/** Which findings of a review become inline comments: severity filter, first occurrence of a
    fingerprint, not yet recorded, most severe first, at most a cap. */
module Selection {
  datatype Finding = Finding(file: string, line: int, severity: string, title: string, body: string)

  const MINOR: string := "minor"

  predicate KnownSeverity(s: string) {
    s in ["nit", MINOR, "major", "critical"]
  }

  /** A severity outside the table ranks 0, as a missing Go map entry does. */
  function Rank(s: string): nat {
    if s == "critical" then 3 else if s == "major" then 2 else if s == MINOR then 1 else 0
  }

  predicate AtLeast(s: string, min: string) {
    Rank(s) >= Rank(min)
  }

  /** The severities from the least to the most severe. */
  const CHAIN: seq<string> := ["nit", "minor", "major", "critical"]

  /** `s` stands at least as high in the chain as `min`; a severity outside it stands with "nit". */
  ghost predicate NotBelow(s: string, min: string) {
    && (forall p, q | 0 <= p < 4 && 0 <= q < 4 && CHAIN[p] == s && CHAIN[q] == min :: p >= q)
    && (s !in CHAIN ==> min == "nit" || min !in CHAIN)
  }

  /** The known severities are the four of the chain, and the order of ranks is the chain's. */
  lemma SeverityOrder(s: string, min: string)
    ensures KnownSeverity(s) <==> s == "nit" || s == "minor" || s == "major" || s == "critical"
    ensures AtLeast(s, min) <==> NotBelow(s, min)
    ensures AtLeast(s, min) <==> Rank(s) >= Rank(min)
  {
    assert CHAIN[0] == "nit" && CHAIN[1] == "minor" && CHAIN[2] == "major" && CHAIN[3] == "critical";
    assert forall p | 0 <= p < 4 :: Rank(CHAIN[p]) == p;
    if s in CHAIN && min in CHAIN {
      var p :| 0 <= p < 4 && CHAIN[p] == s;
      var q :| 0 <= q < 4 && CHAIN[q] == min;
    }
  }

  /** `digest` stands for the truncated SHA-256 of the lower-cased text. */
  function Fingerprint(digest: string -> string, f: Finding): string {
    digest(f.file + "|" + f.title)
  }

  /** Whatever the hash, a fingerprint depends on file and title alone: not on the line, the body or
      the severity; and for a hash without collisions on nothing less. */
  lemma FingerprintOf(f: Finding, g: Finding)
    ensures (forall digest: string -> string :: Fingerprint(digest, f) == Fingerprint(digest, g)) <==>
            f.file + "|" + f.title == g.file + "|" + g.title
    ensures f.file == g.file && f.title == g.title ==>
            forall digest: string -> string :: Fingerprint(digest, f) == Fingerprint(digest, g)
  {
    var same := (text: string) => text;
    assert Fingerprint(same, f) == f.file + "|" + f.title && Fingerprint(same, g) == g.file + "|" + g.title;
  }

  // ----- filter and dedup -----

  /** The eligible findings by fingerprint, first occurrence kept, with the fingerprints in order. */
  datatype Collected = Collected(fps: seq<string>, table: map<string, Finding>)

  function Collect(digest: string -> string, min: string, fs: seq<Finding>): (c: Collected)
    ensures forall fp :: fp in c.fps <==> fp in c.table
  {
    if fs == [] then Collected([], map[])
    else
      var c := Collect(digest, min, fs[..|fs| - 1]);
      var f := fs[|fs| - 1];
      var fp := Fingerprint(digest, f);
      if !AtLeast(f.severity, min) || fp in c.table then c
      else Collected(c.fps + [fp], c.table[fp := f])
  }

  predicate Distinct(xs: seq<string>) {
    forall i, j | 0 <= i < j < |xs| :: xs[i] != xs[j]
  }

  predicate FirstAt(digest: string -> string, min: string, fs: seq<Finding>, i: nat)
    requires i < |fs|
  {
    && AtLeast(fs[i].severity, min)
    && forall k | 0 <= k < i && AtLeast(fs[k].severity, min) :: Fingerprint(digest, fs[k]) != Fingerprint(digest, fs[i])
  }

  lemma {:induction false} CollectDistinct(digest: string -> string, min: string, fs: seq<Finding>)
    ensures Distinct(Collect(digest, min, fs).fps)
  {
    if fs != [] {
      CollectDistinct(digest, min, fs[..|fs| - 1]);
      var c := Collect(digest, min, fs[..|fs| - 1]);
      forall i | 0 <= i < |c.fps| ensures c.fps[i] in c.table {
        assert c.fps[i] in c.fps;
      }
    }
  }

  lemma {:induction false} CollectSound(digest: string -> string, min: string, fs: seq<Finding>, fp: string)
    ensures var t := Collect(digest, min, fs).table;
      fp in t ==> Fingerprint(digest, t[fp]) == fp && t[fp] in fs && AtLeast(t[fp].severity, min)
  {
    if fs != [] {
      CollectSound(digest, min, fs[..|fs| - 1], fp);
    }
  }

  lemma {:induction false} CollectFirst(digest: string -> string, min: string, fs: seq<Finding>, i: nat)
    requires i < |fs| && AtLeast(fs[i].severity, min)
    ensures var t := Collect(digest, min, fs).table; var fp := Fingerprint(digest, fs[i]);
      fp in t && (FirstAt(digest, min, fs, i) ==> t[fp] == fs[i])
  {
    var front := fs[..|fs| - 1];
    if i < |front| {
      CollectFirst(digest, min, front, i);
      assert FirstAt(digest, min, fs, i) ==> FirstAt(digest, min, front, i);
    } else {
      var fp := Fingerprint(digest, fs[i]);
      CollectSound(digest, min, front, fp);
      var t := Collect(digest, min, front).table;
      if fp in t {
        var k :| 0 <= k < |front| && front[k] == t[fp];
        assert fs[k] == t[fp] && !FirstAt(digest, min, fs, i);
      }
    }
  }

  /** The collected findings are exactly the first eligible occurrences. */
  lemma CollectExact(digest: string -> string, min: string, fs: seq<Finding>)
    ensures var c := Collect(digest, min, fs);
      && Distinct(c.fps)
      && (forall fp | fp in c.table ::
            Fingerprint(digest, c.table[fp]) == fp && c.table[fp] in fs && AtLeast(c.table[fp].severity, min))
      && (forall i | 0 <= i < |fs| && AtLeast(fs[i].severity, min) ::
            var fp := Fingerprint(digest, fs[i]);
            fp in c.table && (FirstAt(digest, min, fs, i) ==> c.table[fp] == fs[i]))
  {
    CollectDistinct(digest, min, fs);
    forall fp { CollectSound(digest, min, fs, fp); }
    forall i | 0 <= i < |fs| && AtLeast(fs[i].severity, min) { CollectFirst(digest, min, fs, i); }
  }

  // ----- the engine's order -----

  /** Some `x` stands before some `y`. */
  ghost predicate Before(xs: seq<string>, x: string, y: string) {
    exists p, q :: 0 <= p < q < |xs| && xs[p] == x && xs[q] == y
  }

  /** One more element comes behind all others. */
  lemma BeforeAppend(xs: seq<string>, z: string, x: string, y: string)
    ensures Before(xs + [z], x, y) <==> Before(xs, x, y) || (x in xs && y == z)
  {
    var zs := xs + [z];
    if Before(zs, x, y) {
      var p, q :| 0 <= p < q < |zs| && zs[p] == x && zs[q] == y;
      assert q < |xs| ==> xs[p] == x && xs[q] == y;
    }
    if Before(xs, x, y) {
      var p, q :| 0 <= p < q < |xs| && xs[p] == x && xs[q] == y;
      assert zs[p] == x && zs[q] == y;
    }
    if x in xs && y == z {
      var p :| 0 <= p < |xs| && xs[p] == x;
      assert zs[p] == x && zs[|xs|] == y;
    }
  }

  /** The fingerprints stand in the order in which the engine first named them. */
  lemma {:induction false} CollectOrder(digest: string -> string, min: string, fs: seq<Finding>, i: nat, j: nat)
    requires i < j < |fs| && FirstAt(digest, min, fs, i) && FirstAt(digest, min, fs, j)
    ensures Before(Collect(digest, min, fs).fps, Fingerprint(digest, fs[i]), Fingerprint(digest, fs[j]))
  {
    var front, fp, fq := fs[..|fs| - 1], Fingerprint(digest, fs[i]), Fingerprint(digest, fs[j]);
    var c := Collect(digest, min, front);
    assert FirstAt(digest, min, front, i);
    if j < |front| {
      assert FirstAt(digest, min, front, j);
      CollectOrder(digest, min, front, i, j);
      BeforeAppend(c.fps, Fingerprint(digest, fs[|front|]), fp, fq);
    } else {
      CollectFirst(digest, min, front, i);
      NotCollected(digest, min, fs, fq);
      BeforeAppend(c.fps, fq, fp, fq);
    }
  }

  /** A first occurrence is new to what came before it. */
  lemma NotCollected(digest: string -> string, min: string, fs: seq<Finding>, fp: string)
    requires fs != [] && FirstAt(digest, min, fs, |fs| - 1) && fp == Fingerprint(digest, fs[|fs| - 1])
    ensures fp !in Collect(digest, min, fs[..|fs| - 1]).table
  {
    CollectSound(digest, min, fs[..|fs| - 1], fp);
  }

  // ----- already recorded -----

  function Unseen(fps: seq<string>, posted: set<string>): (r: seq<string>)
    ensures forall fp :: fp in r <==> fp in fps && fp !in posted
  {
    if fps == [] then []
    else
      var r := Unseen(fps[..|fps| - 1], posted);
      var fp := fps[|fps| - 1];
      if fp in posted then r else r + [fp]
  }

  lemma {:induction false} UnseenDistinct(fps: seq<string>, posted: set<string>)
    requires Distinct(fps)
    ensures Distinct(Unseen(fps, posted))
  {
    if fps != [] {
      var front := fps[..|fps| - 1];
      UnseenDistinct(front, posted);
      var r := Unseen(front, posted);
      forall i | 0 <= i < |r| ensures r[i] != fps[|fps| - 1] {
        assert r[i] in r;
      }
    }
  }

  /** The unrecorded fingerprints keep their order, and nothing else is in the result. */
  lemma {:induction false} UnseenOrder(fps: seq<string>, posted: set<string>, x: string, y: string)
    ensures Before(Unseen(fps, posted), x, y) <==> Before(fps, x, y) && x !in posted && y !in posted
  {
    if fps != [] {
      var front, fp := fps[..|fps| - 1], fps[|fps| - 1];
      UnseenOrder(front, posted, x, y);
      assert fps == front + [fp];
      BeforeAppend(front, fp, x, y);
      BeforeAppend(Unseen(front, posted), fp, x, y);
    }
  }

  // ----- stable sort by severity -----

  function RankOf(table: map<string, Finding>, fp: string): nat {
    if fp in table then Rank(table[fp].severity) else 0
  }

  /** Puts `x` behind every element that ranks at least as high. */
  function Insert(table: map<string, Finding>, ys: seq<string>, x: string): seq<string> {
    if ys == [] || RankOf(table, ys[|ys| - 1]) >= RankOf(table, x) then ys + [x]
    else Insert(table, ys[..|ys| - 1], x) + [ys[|ys| - 1]]
  }

  /** sort.SliceStable with "ranks higher" as the order. */
  function SortDesc(table: map<string, Finding>, xs: seq<string>): seq<string> {
    if xs == [] then [] else Insert(table, SortDesc(table, xs[..|xs| - 1]), xs[|xs| - 1])
  }

  predicate Descending(table: map<string, Finding>, xs: seq<string>) {
    forall i, j | 0 <= i < j < |xs| :: RankOf(table, xs[i]) >= RankOf(table, xs[j])
  }

  /** The elements of one rank, in order. */
  function OfRank(table: map<string, Finding>, xs: seq<string>, r: int): seq<string> {
    if xs == [] then []
    else
      OfRank(table, xs[..|xs| - 1], r) + if RankOf(table, xs[|xs| - 1]) == r then [xs[|xs| - 1]] else []
  }

  lemma OfRankAppend(table: map<string, Finding>, xs: seq<string>, x: string, r: int)
    ensures OfRank(table, xs + [x], r) == OfRank(table, xs, r) + if RankOf(table, x) == r then [x] else []
  {
    assert (xs + [x])[..|xs|] == xs;
  }

  lemma {:induction false} InsertPermutes(table: map<string, Finding>, ys: seq<string>, x: string)
    ensures multiset(Insert(table, ys, x)) == multiset(ys) + multiset{x}
  {
    if ys != [] && RankOf(table, ys[|ys| - 1]) < RankOf(table, x) {
      InsertPermutes(table, ys[..|ys| - 1], x);
      assert ys == ys[..|ys| - 1] + [ys[|ys| - 1]];
    }
  }

  lemma {:induction false} InsertDescending(table: map<string, Finding>, ys: seq<string>, x: string)
    requires Descending(table, ys)
    ensures Descending(table, Insert(table, ys, x))
    ensures forall i | 0 <= i < |Insert(table, ys, x)| :: Insert(table, ys, x)[i] == x || Insert(table, ys, x)[i] in ys
  {
    if ys != [] && RankOf(table, ys[|ys| - 1]) < RankOf(table, x) {
      InsertDescending(table, ys[..|ys| - 1], x);
    }
  }

  lemma {:induction false} InsertOfRank(table: map<string, Finding>, ys: seq<string>, x: string, r: int)
    requires Descending(table, ys)
    ensures OfRank(table, Insert(table, ys, x), r) == OfRank(table, ys + [x], r)
  {
    if ys != [] && RankOf(table, ys[|ys| - 1]) < RankOf(table, x) {
      var front, last := ys[..|ys| - 1], ys[|ys| - 1];
      InsertOfRank(table, front, x, r);
      assert ys == front + [last];
      SwapRanks(table, front, last, x, r);
      OfRankAppend(table, Insert(table, front, x), last, r);
      OfRankAppend(table, front + [x], last, r);
    }
  }

  lemma SwapRanks(table: map<string, Finding>, ys: seq<string>, x: string, y: string, r: int)
    requires RankOf(table, x) != RankOf(table, y)
    ensures OfRank(table, (ys + [x]) + [y], r) == OfRank(table, (ys + [y]) + [x], r)
  {
    var o := OfRank(table, ys, r);
    OfRankAppend(table, ys, x, r);
    OfRankAppend(table, ys, y, r);
    OfRankAppend(table, ys + [x], y, r);
    OfRankAppend(table, ys + [y], x, r);
    assert o + [] == o;
  }

  lemma {:induction false} SortPermutes(table: map<string, Finding>, xs: seq<string>)
    ensures multiset(SortDesc(table, xs)) == multiset(xs)
  {
    if xs != [] {
      SortPermutes(table, xs[..|xs| - 1]);
      InsertPermutes(table, SortDesc(table, xs[..|xs| - 1]), xs[|xs| - 1]);
      assert xs == xs[..|xs| - 1] + [xs[|xs| - 1]];
    }
  }

  lemma {:induction false} SortDescending(table: map<string, Finding>, xs: seq<string>)
    ensures Descending(table, SortDesc(table, xs))
  {
    if xs != [] {
      SortDescending(table, xs[..|xs| - 1]);
      InsertDescending(table, SortDesc(table, xs[..|xs| - 1]), xs[|xs| - 1]);
    }
  }

  /** The sort keeps the order inside every rank. */
  lemma {:induction false} SortStable(table: map<string, Finding>, xs: seq<string>, r: int)
    ensures OfRank(table, SortDesc(table, xs), r) == OfRank(table, xs, r)
  {
    if xs != [] {
      var front, last := xs[..|xs| - 1], xs[|xs| - 1];
      SortStable(table, front, r);
      SortDescending(table, front);
      InsertOfRank(table, SortDesc(table, front), last, r);
      OfRankAppend(table, SortDesc(table, front), last, r);
    }
  }

  lemma {:induction false} OfRankMembers(table: map<string, Finding>, xs: seq<string>, r: int)
    ensures forall x :: x in OfRank(table, xs, r) <==> x in xs && RankOf(table, x) == r
  {
    if xs != [] {
      OfRankMembers(table, xs[..|xs| - 1], r);
      assert xs == xs[..|xs| - 1] + [xs[|xs| - 1]];
    }
  }

  ghost predicate SameRanks(table: map<string, Finding>, ys: seq<string>, zs: seq<string>) {
    forall r: int :: OfRank(table, ys, r) == OfRank(table, zs, r)
  }

  lemma LastRankIsLower(table: map<string, Finding>, ys: seq<string>, zs: seq<string>)
    requires Descending(table, zs) && SameRanks(table, ys, zs) && ys != [] && zs != []
    ensures RankOf(table, ys[|ys| - 1]) >= RankOf(table, zs[|zs| - 1])
  {
    var y := ys[|ys| - 1];
    OfRankMembers(table, ys, RankOf(table, y));
    OfRankMembers(table, zs, RankOf(table, y));
    assert OfRank(table, ys, RankOf(table, y)) == OfRank(table, zs, RankOf(table, y));
    assert y in zs;
  }

  lemma SameRanksEmpty(table: map<string, Finding>, ys: seq<string>)
    requires SameRanks(table, ys, [])
    ensures ys == []
  {
    if ys != [] {
      var r: int := RankOf(table, ys[0]);
      OfRankMembers(table, ys, r);
    }
  }

  lemma DropLast(table: map<string, Finding>, ys: seq<string>, zs: seq<string>)
    requires SameRanks(table, ys, zs) && ys != [] && zs != []
    requires RankOf(table, ys[|ys| - 1]) == RankOf(table, zs[|zs| - 1])
    ensures ys[|ys| - 1] == zs[|zs| - 1]
    ensures SameRanks(table, ys[..|ys| - 1], zs[..|zs| - 1])
  {
    var yf, y, zf, z := ys[..|ys| - 1], ys[|ys| - 1], zs[..|zs| - 1], zs[|zs| - 1];
    assert ys == yf + [y] && zs == zf + [z];
    var r0: int := RankOf(table, y);
    OfRankAppend(table, yf, y, r0);
    OfRankAppend(table, zf, z, r0);
    assert OfRank(table, ys, r0)[|OfRank(table, ys, r0)| - 1] == y;
    assert OfRank(table, zs, r0)[|OfRank(table, zs, r0)| - 1] == z;
    forall r: int ensures OfRank(table, yf, r) == OfRank(table, zf, r) {
      OfRankAppend(table, yf, y, r);
      OfRankAppend(table, zf, z, r);
      var oy, oz := OfRank(table, yf, r), OfRank(table, zf, r);
      assert OfRank(table, ys, r) == OfRank(table, zs, r);
      if r == r0 {
        assert oy + [y] == oz + [z] && |oy| == |oz|;
        assert (oy + [y])[..|oy|] == oy && (oz + [z])[..|oz|] == oz;
      } else {
        assert oy + [] == oy && oz + [] == oz;
      }
    }
  }

  /** Descending order and an unchanged order inside every rank leave exactly one result, so
      SortDesc is the stable sort. */
  lemma {:induction false} StableSortUnique(table: map<string, Finding>, ys: seq<string>, zs: seq<string>)
    requires Descending(table, ys) && Descending(table, zs) && SameRanks(table, ys, zs)
    ensures ys == zs
  {
    if ys == [] {
      SameRanksEmpty(table, zs);
    } else if zs == [] {
      SameRanksEmpty(table, ys);
    } else {
      LastRankIsLower(table, ys, zs);
      LastRankIsLower(table, zs, ys);
      DropLast(table, ys, zs);
      StableSortUnique(table, ys[..|ys| - 1], zs[..|zs| - 1]);
      assert ys == ys[..|ys| - 1] + [ys[|ys| - 1]];
    }
  }

  // ----- the cap -----

  function Capped(xs: seq<string>, cap: int): nat {
    if cap > 0 && |xs| > cap then cap else |xs|
  }

  /** The fresh fingerprints, most severe first. */
  function Ranked(digest: string -> string, min: string, fs: seq<Finding>, posted: set<string>): seq<string> {
    var c := Collect(digest, min, fs);
    SortDesc(c.table, Unseen(c.fps, posted))
  }

  function Attempted(
    digest: string -> string, min: string, cap: int, fs: seq<Finding>, posted: set<string>): seq<string>
  {
    var r := Ranked(digest, min, fs, posted);
    r[..Capped(r, cap)]
  }

  function OverCap(
    digest: string -> string, min: string, cap: int, fs: seq<Finding>, posted: set<string>): seq<string>
  {
    var r := Ranked(digest, min, fs, posted);
    r[Capped(r, cap)..]
  }

  lemma DistinctFromMultiset(xs: seq<string>, ys: seq<string>)
    requires multiset(xs) == multiset(ys) && Distinct(xs)
    ensures Distinct(ys)
  {
    forall i, j | 0 <= i < j < |ys| ensures ys[i] != ys[j] {
      if ys[i] == ys[j] {
        var x := ys[i];
        assert ys == ys[..i] + [x] + ys[i + 1..j] + [x] + ys[j + 1..];
        assert multiset(ys)[x] >= 2;
        OnceIfDistinct(xs, x);
        assert false;
      }
    }
  }

  lemma {:induction false} OnceIfDistinct(xs: seq<string>, x: string)
    requires Distinct(xs)
    ensures multiset(xs)[x] <= 1
  {
    if xs != [] {
      var front, last := xs[..|xs| - 1], xs[|xs| - 1];
      OnceIfDistinct(front, x);
      assert xs == front + [last];
      assert x !in front ==> multiset(front)[x] == 0;
    }
  }

  lemma RankedFacts(digest: string -> string, min: string, fs: seq<Finding>, posted: set<string>)
    ensures var c := Collect(digest, min, fs); var s := Ranked(digest, min, fs, posted);
      && Distinct(s) && Descending(c.table, s)
      && (forall fp :: fp in s <==> fp in c.table && fp !in posted)
  {
    var c := Collect(digest, min, fs);
    var u := Unseen(c.fps, posted);
    CollectDistinct(digest, min, fs);
    UnseenDistinct(c.fps, posted);
    SortPermutes(c.table, u);
    SortDescending(c.table, u);
    var s := SortDesc(c.table, u);
    DistinctFromMultiset(u, s);
    forall fp ensures fp in s <==> fp in u {
      assert fp in multiset(s) <==> fp in multiset(u);
    }
  }

  lemma SplitAtCap(s: seq<string>, cap: int)
    ensures s == s[..Capped(s, cap)] + s[Capped(s, cap)..]
    ensures cap > 0 ==> Capped(s, cap) <= cap
    ensures Capped(s, cap) < |s| ==> cap > 0 && Capped(s, cap) == cap
  {
  }

  /** The selection is an exact top-k: the eligible fingerprints that have no record split, with
      no loss and no repeat, into those attempted and those over the cap; at most `cap` are
      attempted, and all of them unless there are more; none of those attempted ranks below one
      that was left over. */
  lemma TopK(digest: string -> string, min: string, cap: int, fs: seq<Finding>, posted: set<string>)
    ensures var t := Collect(digest, min, fs).table;
      var a := Attempted(digest, min, cap, fs, posted);
      var o := OverCap(digest, min, cap, fs, posted);
      && Distinct(a + o) && Descending(t, a + o)
      && (forall fp :: fp in a + o <==> fp in t && fp !in posted)
      && (cap > 0 ==> |a| <= cap)
      && (o != [] ==> cap > 0 && |a| == cap)
  {
    RankedFacts(digest, min, fs, posted);
    SplitAtCap(Ranked(digest, min, fs, posted), cap);
  }

  lemma RanksApart(table: map<string, Finding>, a: seq<string>, o: seq<string>, x: string, y: string)
    requires Descending(table, a + o) && x in a && y in o
    ensures RankOf(table, x) >= RankOf(table, y)
  {
    var p :| 0 <= p < |a| && a[p] == x;
    var q :| 0 <= q < |o| && o[q] == y;
    assert (a + o)[p] == x && (a + o)[|a| + q] == y;
  }

  /** However a sorted list is cut in two, nothing in the first part is less severe than anything in
      the second. */
  lemma HighestFirst(
    table: map<string, Finding>, xs: seq<string>, a: seq<string>, o: seq<string>, x: string, y: string)
    requires a + o == SortDesc(table, xs) && x in a && y in o && x in table && y in table
    ensures NotBelow(table[x].severity, table[y].severity)
  {
    SortDescending(table, xs);
    RanksApart(table, a, o, x, y);
    SeverityOrder(table[x].severity, table[y].severity);
  }

  lemma RankOfFirst(digest: string -> string, min: string, fs: seq<Finding>, i: nat)
    requires i < |fs| && FirstAt(digest, min, fs, i)
    ensures RankOf(Collect(digest, min, fs).table, Fingerprint(digest, fs[i])) == Rank(fs[i].severity)
  {
    CollectFirst(digest, min, fs, i);
  }

  /** The most severe findings are attempted: of two first occurrences without a record, one of which
      is attempted and the other left over, the attempted one stands at least as high in the chain
      nit, minor, major, critical. */
  lemma MostSevereFirst(
    digest: string -> string, min: string, cap: int, fs: seq<Finding>, posted: set<string>, i: nat, j: nat)
    requires i < |fs| && j < |fs| && FirstAt(digest, min, fs, i) && FirstAt(digest, min, fs, j)
    requires Fingerprint(digest, fs[i]) in Attempted(digest, min, cap, fs, posted)
    requires Fingerprint(digest, fs[j]) in OverCap(digest, min, cap, fs, posted)
    ensures NotBelow(fs[i].severity, fs[j].severity)
  {
    TopK(digest, min, cap, fs, posted);
    RanksApart(Collect(digest, min, fs).table, Attempted(digest, min, cap, fs, posted),
               OverCap(digest, min, cap, fs, posted), Fingerprint(digest, fs[i]), Fingerprint(digest, fs[j]));
    RankOfFirst(digest, min, fs, i);
    RankOfFirst(digest, min, fs, j);
    SeverityOrder(fs[i].severity, fs[j].severity);
  }

  /** The order inside one rank is the order of those elements. */
  lemma {:induction false} OfRankOrder(table: map<string, Finding>, xs: seq<string>, r: int, x: string, y: string)
    ensures Before(OfRank(table, xs, r), x, y) <==> Before(xs, x, y) && RankOf(table, x) == r && RankOf(table, y) == r
  {
    if xs != [] {
      var front, last := xs[..|xs| - 1], xs[|xs| - 1];
      OfRankOrder(table, front, r, x, y);
      OfRankMembers(table, front, r);
      assert xs == front + [last];
      BeforeAppend(front, last, x, y);
      BeforeAppend(OfRank(table, front, r), last, x, y);
      assert OfRank(table, front, r) + [] == OfRank(table, front, r);
    }
  }

  /** Of two first occurrences of the same rank without a record, the one that the engine named
      first stands first in what is attempted and then left over. */
  lemma EqualRanksKeepOrder(
    digest: string -> string, min: string, cap: int, fs: seq<Finding>, posted: set<string>, i: nat, j: nat)
    requires i < j < |fs| && FirstAt(digest, min, fs, i) && FirstAt(digest, min, fs, j)
    requires Rank(fs[i].severity) == Rank(fs[j].severity)
    requires Fingerprint(digest, fs[i]) !in posted && Fingerprint(digest, fs[j]) !in posted
    ensures Before(Attempted(digest, min, cap, fs, posted) + OverCap(digest, min, cap, fs, posted),
                   Fingerprint(digest, fs[i]), Fingerprint(digest, fs[j]))
  {
    var c, r: int := Collect(digest, min, fs), Rank(fs[i].severity);
    var u, x, y := Unseen(c.fps, posted), Fingerprint(digest, fs[i]), Fingerprint(digest, fs[j]);
    CollectFirst(digest, min, fs, i);
    CollectFirst(digest, min, fs, j);
    CollectOrder(digest, min, fs, i, j);
    UnseenOrder(c.fps, posted, x, y);
    SplitAtCap(Ranked(digest, min, fs, posted), cap);
    SortKeepsOrder(c.table, u, r, x, y);
  }

  lemma SortKeepsOrder(table: map<string, Finding>, xs: seq<string>, r: int, x: string, y: string)
    requires Before(xs, x, y) && RankOf(table, x) == r && RankOf(table, y) == r
    ensures Before(SortDesc(table, xs), x, y)
  {
    OfRankOrder(table, xs, r, x, y);
    SortStable(table, xs, r);
    OfRankOrder(table, SortDesc(table, xs), r, x, y);
  }
}
