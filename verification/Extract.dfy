/** The review payload of an engine's output: the last JSON object that looks like one, in
    whatever prose the engine wraps it. */
module Extract {
  import opened Basics
  import opened Json
  import opened Scanner
  import opened Selection

  datatype Extracted = Found(json: string) | NoObject | Unbalanced

  /** The object that a scan from the start of `s` cuts out, if it is valid JSON. `valid` is the
      JSON library's check. */
  function ObjectAt(s: string, valid: string -> bool): (r: Option<string>)
    ensures r.Some? ==> r.value != "" && r.value <= s
  {
    if s == [] || s[0] != '{' then None
    else
      match Close(ZERO, s)
      case None => None
      case Some(n) => if n < |s| && valid(s[..n + 1]) then Some(s[..n + 1]) else None
  }

  /** The top-level objects of a text: each one is skipped as a whole once found. */
  function Objects(s: string, valid: string -> bool): seq<string>
    decreases |s|
  {
    if s == [] then []
    else
      match ObjectAt(s, valid)
      case None => Objects(s[1..], valid)
      case Some(obj) => [obj] + Objects(s[|obj|..], valid)
  }

  predicate Payload(s: string) {
    Contains(s, "\"findings\"") || Contains(s, "\"summary\"")
  }

  /** The last of `os` that satisfies `p`. */
  function LastWhere(os: seq<string>, p: string -> bool): Option<string> {
    if os == [] then None
    else if p(os[|os| - 1]) then Some(os[|os| - 1])
    else LastWhere(os[..|os| - 1], p)
  }

  /** The last payload, or else the last object. */
  function Choose(os: seq<string>, p: string -> bool): Option<string> {
    if LastWhere(os, p).Some? then LastWhere(os, p)
    else if os == [] then None
    else Some(os[|os| - 1])
  }

  function ChosenOf(s: string, valid: string -> bool, p: string -> bool): Extracted {
    if '{' !in s then NoObject
    else match Choose(Objects(s, valid), p) case None => Unbalanced case Some(obj) => Found(obj)
  }

  function ExtractSpec(s: string, valid: string -> bool): Extracted {
    ChosenOf(s, valid, Payload)
  }

  /** `os` are the objects of `s` that begin before `start`, and none of them reaches beyond. */
  ghost predicate FoundSoFar(s: string, valid: string -> bool, os: seq<string>, start: nat) {
    start <= |s| && Objects(s, valid) == os + Objects(s[start..], valid)
  }

  lemma FoundMore(s: string, valid: string -> bool, os: seq<string>, start: nat)
    requires FoundSoFar(s, valid, os, start) && start < |s|
    ensures match ObjectAt(s[start..], valid)
            case None => FoundSoFar(s, valid, os, start + 1)
            case Some(obj) => FoundSoFar(s, valid, os + [obj], start + |obj|)
  {
    var rest := s[start..];
    assert rest[1..] == s[start + 1..];
    if ObjectAt(rest, valid).Some? {
      var obj := ObjectAt(rest, valid).value;
      assert rest[|obj|..] == s[start + |obj|..];
      var more := Objects(s[start + |obj|..], valid);
      assert os + ([obj] + more) == (os + [obj]) + more;
    }
  }

  lemma CutOut(s: string, start: nat, valid: string -> bool, candidate: string, ok: bool)
    requires start < |s| && s[start] == '{'
    requires ok <==> Close(ZERO, s[start..]).Some?
    requires ok ==> var n := Close(ZERO, s[start..]).value; start + n < |s| && candidate == s[start..start + n + 1]
    ensures ObjectAt(s[start..], valid) == if ok && valid(candidate) then Some(candidate) else None
  {
    if ok {
      assert candidate == s[start..][..|candidate|];
    }
  }

  /** The loop's variables hold the last object found and the last payload found. */
  predicate Tracks(
    os: seq<string>, p: string -> bool, last: string, lastFound: bool, lastPayload: string, lastPayloadFound: bool)
  {
    && (lastFound <==> os != [])
    && (lastFound ==> last == os[|os| - 1])
    && LastWhere(os, p) == if lastPayloadFound then Some(lastPayload) else None
  }

  lemma TracksMore(
    os: seq<string>, p: string -> bool, last: string, lastFound: bool, lastPayload: string, lastPayloadFound: bool,
    obj: string)
    requires Tracks(os, p, last, lastFound, lastPayload, lastPayloadFound)
    ensures Tracks(os + [obj], p, obj, true, if p(obj) then obj else lastPayload, p(obj) || lastPayloadFound)
  {
    assert (os + [obj])[..|os|] == os;
  }

  lemma FoundNothing(s: string, valid: string -> bool)
    ensures FoundSoFar(s, valid, [], 0)
  {
    assert s[0..] == s && [] + Objects(s, valid) == Objects(s, valid);
  }

  /** Nothing begins where there is no brace. */
  lemma FoundNoBrace(s: string, valid: string -> bool, os: seq<string>, start: nat)
    requires FoundSoFar(s, valid, os, start) && start < |s| && s[start] != '{'
    ensures FoundSoFar(s, valid, os, start + 1)
  {
    FoundMore(s, valid, os, start);
  }

  /** At a brace an object is passed as a whole. */
  lemma FoundNext(s: string, valid: string -> bool, os: seq<string>, start: nat, candidate: string, ok: bool)
    requires FoundSoFar(s, valid, os, start) && start < |s| && s[start] == '{'
    requires ok <==> Close(ZERO, s[start..]).Some?
    requires ok ==> var n := Close(ZERO, s[start..]).value; start + n < |s| && candidate == s[start..start + n + 1]
    ensures ok && valid(candidate) ==> candidate != "" && FoundSoFar(s, valid, os + [candidate], start + |candidate|)
    ensures !(ok && valid(candidate)) ==> FoundSoFar(s, valid, os, start + 1)
  {
    CutOut(s, start, valid, candidate, ok);
    FoundMore(s, valid, os, start);
  }

  lemma FoundAll(s: string, valid: string -> bool, os: seq<string>)
    requires FoundSoFar(s, valid, os, |s|)
    ensures Objects(s, valid) == os
  {
    assert s[|s|..] == [] && os + [] == os;
  }

  /** The candidate that begins at a brace, if it balances and is valid. */
  method ValidObject(s: string, valid: string -> bool, start: nat, ghost os: seq<string>)
    returns (candidate: string, ok: bool)
    requires FoundSoFar(s, valid, os, start) && start < |s| && s[start] == '{'
    ensures ok ==> candidate != "" && FoundSoFar(s, valid, os + [candidate], start + |candidate|)
    ensures !ok ==> FoundSoFar(s, valid, os, start + 1)
  {
    candidate, ok := BalancedObject(s, start);
    FoundNext(s, valid, os, start, candidate, ok);
    ok := ok && valid(candidate);
  }

  method ExtractJson(s: string, valid: string -> bool) returns (r: Extracted)
    ensures r == ExtractSpec(s, valid)
  {
    r := ExtractLast(s, valid, Payload);
  }

  /** The loop, for any test of what a payload is. */
  method ExtractLast(s: string, valid: string -> bool, p: string -> bool) returns (r: Extracted)
    ensures r == ChosenOf(s, valid, p)
  {
    if '{' !in s {
      return NoObject;
    }
    var last, lastFound, lastPayload, lastPayloadFound := "", false, "", false;
    ghost var os: seq<string> := [];
    var start := 0;
    FoundNothing(s, valid);
    while start < |s|
      invariant 0 <= start <= |s|
      invariant FoundSoFar(s, valid, os, start)
      invariant Tracks(os, p, last, lastFound, lastPayload, lastPayloadFound)
    {
      if s[start] != '{' {
        FoundNoBrace(s, valid, os, start);
        start := start + 1;
        continue;
      }
      var candidate, ok := ValidObject(s, valid, start, os);
      if !ok {
        start := start + 1;
        continue;
      }
      TracksMore(os, p, last, lastFound, lastPayload, lastPayloadFound, candidate);
      os := os + [candidate];
      last, lastFound := candidate, true;
      if p(candidate) {
        lastPayload, lastPayloadFound := candidate, true;
      }
      start := start + |candidate|;
    }
    FoundAll(s, valid, os);
    r := if lastPayloadFound then Found(lastPayload) else if lastFound then Found(last) else Unbalanced;
  }

  // ----- prose and objects -----

  /** Prose in which no brace could begin an object: after a brace, and white space, there is
      neither a quote nor a closing brace. */
  predicate Prose(p: string) {
    forall i | 0 <= i < |p| && p[i] == '{' :: Ink(p[i + 1..]) != Some('"') && Ink(p[i + 1..]) != Some('}')
  }

  /** An engine's output: prose, object, prose, object and so on, then some last prose. */
  function Render(parts: seq<(string, Value)>, tail: string): string {
    if parts == [] then tail else parts[0].0 + (Print(parts[0].1) + Render(parts[1..], tail))
  }

  function Texts(parts: seq<(string, Value)>): seq<string> {
    if parts == [] then [] else [Print(parts[0].1)] + Texts(parts[1..])
  }

  predicate PartsOk(parts: seq<(string, Value)>) {
    forall i | 0 <= i < |parts| :: Prose(parts[i].0) && parts[i].1.Object? && Acceptable(parts[i].1)
  }

  predicate Braced(s: string) {
    s != [] && s[0] == '{' && s[|s| - 1] == '}'
  }

  /** On texts from brace to brace, the only ones it is asked about, the library's check is the
      grammar. */
  ghost predicate ChecksJson(valid: string -> bool) {
    forall s | Braced(s) :: valid(s) <==> IsJson(s)
  }

  lemma {:induction false} CloseAtBrace(st: Scan, s: string)
    ensures Close(st, s).Some? ==> Close(st, s).value < |s| && s[Close(st, s).value] == '}'
    decreases s
  {
    if s != [] {
      CloseAtBrace(Next(st, s[0]), s[1..]);
    }
  }

  /** The library's check is asked only about texts from brace to brace. */
  lemma ObjectIsBraced(s: string, valid: string -> bool)
    ensures ObjectAt(s, valid).Some? ==> Braced(ObjectAt(s, valid).value)
  {
    CloseAtBrace(ZERO, s);
  }

  lemma InkOfPrefix(s: string, n: nat)
    requires n <= |s| && Ink(s[..n]).Some?
    ensures Ink(s) == Ink(s[..n])
  {
    InkOfJoin(s[..n], s[n..]);
    assert s[..n] + s[n..] == s;
  }

  /** No object begins at a brace that prose puts there. */
  lemma NoObjectHere(s: string, valid: string -> bool)
    requires ChecksJson(valid) && s != [] && s[0] == '{'
    requires Ink(s[1..]) != Some('"') && Ink(s[1..]) != Some('}')
    ensures ObjectAt(s, valid) == None
  {
    ObjectIsBraced(s, valid);
    if ObjectAt(s, valid).Some? {
      var obj := ObjectAt(s, valid).value;
      var v :| Acceptable(v) && Print(v) == obj;
      BraceMeansObject(v);
      InkOfObject(v);
      assert obj[1..] == s[1..][..|obj| - 1];
      InkOfPrefix(s[1..], |obj| - 1);
    }
  }

  /** Prose is skipped, up to an object or the end. */
  lemma {:induction false} ProseSkipped(p: string, rest: string, valid: string -> bool)
    requires ChecksJson(valid) && Prose(p) && (rest == [] || rest[0] == '{')
    ensures Objects(p + rest, valid) == Objects(rest, valid)
  {
    if p == [] {
      assert p + rest == rest;
    } else {
      var s := p + rest;
      assert s[1..] == p[1..] + rest;
      forall i | 0 <= i < |p[1..]| && p[1..][i] == '{'
        ensures Ink(p[1..][i + 1..]) != Some('"') && Ink(p[1..][i + 1..]) != Some('}')
      {
        assert p[i + 1] == '{' && p[1..][i + 1..] == p[i + 2..];
      }
      ProseSkipped(p[1..], rest, valid);
      if p[0] == '{' {
        assert p[0 + 1..] == p[1..];
        InkOfJoin(p[1..], rest);
        NoObjectHere(s, valid);
      }
    }
  }

  lemma ObjectFound(v: Value, rest: string, valid: string -> bool)
    requires ChecksJson(valid) && v.Object? && Acceptable(v)
    ensures Objects(Print(v) + rest, valid) == [Print(v)] + Objects(rest, valid)
  {
    ObjectComesBack(v, rest);
    var s := Print(v) + rest;
    assert Braced(Print(v)) && s[0] == '{' && IsJson(Print(v));
    assert s[|Print(v)|..] == rest;
  }

  /** The objects cut out of an output are exactly those it was made of. */
  lemma {:induction false} ObjectsComeBack(parts: seq<(string, Value)>, tail: string, valid: string -> bool)
    requires ChecksJson(valid) && PartsOk(parts) && Prose(tail)
    ensures Objects(Render(parts, tail), valid) == Texts(parts)
  {
    if parts == [] {
      ProseSkipped(tail, "", valid);
      assert tail + "" == tail;
    } else {
      var rest := Render(parts[1..], tail);
      ObjectsComeBack(parts[1..], tail, valid);
      ObjectFound(parts[0].1, rest, valid);
      ProseSkipped(parts[0].0, Print(parts[0].1) + rest, valid);
    }
  }

  lemma {:induction false} BraceInRender(parts: seq<(string, Value)>, tail: string)
    requires parts != [] && parts[0].1.Object?
    ensures '{' in Render(parts, tail)
  {
    var p, t := parts[0].0, Print(parts[0].1);
    assert (p + (t + Render(parts[1..], tail)))[|p|] == '{';
  }

  lemma {:induction false} LastWhereIsLast(os: seq<string>, p: string -> bool)
    ensures LastWhere(os, p).None? <==> forall i | 0 <= i < |os| :: !p(os[i])
    ensures LastWhere(os, p).Some? ==>
              exists i | 0 <= i < |os| ::
                os[i] == LastWhere(os, p).value && p(os[i]) && forall k | i < k < |os| :: !p(os[k])
  {
    if os != [] && !p(os[|os| - 1]) {
      var front := os[..|os| - 1];
      LastWhereIsLast(front, p);
      if LastWhere(front, p).Some? {
        var i :| 0 <= i < |front| && front[i] == LastWhere(front, p).value && p(front[i])
                 && forall k | i < k < |front| :: !p(front[k]);
        assert os[i] == front[i];
        forall k | i < k < |os| ensures !p(os[k]) {
          assert k < |front| ==> os[k] == front[k];
        }
      }
    }
  }

  /** "findings" or "summary", in quotes, occurs somewhere in the text. */
  ghost predicate NamesPayload(s: string) {
    OccursIn("\"findings\"", s) || OccursIn("\"summary\"", s)
  }

  lemma PayloadIsNamed(s: string)
    ensures Payload(s) <==> NamesPayload(s)
  {
    ContainsAnywhere(s, "\"findings\"");
    ContainsAnywhere(s, "\"summary\"");
  }

  /** `r` is the last of `os` whose text names a payload, or else the last one. */
  ghost predicate LastNamed(os: seq<string>, r: string) {
    if exists i | 0 <= i < |os| :: NamesPayload(os[i]) then
      exists i | 0 <= i < |os| :: r == os[i] && NamesPayload(os[i]) && forall k | i < k < |os| :: !NamesPayload(os[k])
    else os != [] && r == os[|os| - 1]
  }

  /** What is chosen among the objects found, if there are any. */
  lemma ChoiceIsLastNamed(os: seq<string>)
    ensures os == [] <==> Choose(os, Payload).None?
    ensures os != [] ==> LastNamed(os, Choose(os, Payload).value)
  {
    LastWhereIsLast(os, Payload);
    forall i | 0 <= i < |os| ensures Payload(os[i]) <==> NamesPayload(os[i]) {
      PayloadIsNamed(os[i]);
    }
  }

  // ----- any output at all -----

  /** An object begins a text exactly as the shortest prefix whose unquoted braces balance, if that is
      valid. */
  lemma ObjectAtMeans(s: string, valid: string -> bool, n: nat)
    requires n < |s|
    ensures ObjectAt(s, valid) == Some(s[..n + 1]) <==>
            && s[0] == '{' && n >= 1 && Balance(s[..n + 1]) == 0 && valid(s[..n + 1])
            && forall m | 1 <= m <= n :: Balance(s[..m]) > 0
  {
    if s[0] == '{' {
      ShortestBalanced(s, n);
      CloseBound(ZERO, s);
      if ObjectAt(s, valid) == Some(s[..n + 1]) {
        assert |s[..Close(ZERO, s).value + 1]| == |s[..n + 1]|;
      }
    }
  }

  function BeginsAt(s: string, valid: string -> bool): nat -> Option<string> {
    (i: nat) => if i <= |s| then ObjectAt(s[i..], valid) else None
  }

  predicate Placed(begins: nat -> Option<string>, from: nat, end: nat, ks: seq<nat>, os: seq<string>) {
    && |ks| == |os|
    && (forall a | 0 <= a < |ks| :: from <= ks[a] && ks[a] + |os[a]| <= end && begins(ks[a]) == Some(os[a]))
  }

  predicate Apart(ks: seq<nat>, os: seq<string>) {
    |ks| == |os| && forall a, b | 0 <= a < b < |ks| :: ks[a] + |os[a]| <= ks[b]
  }

  predicate Inside(i: nat, ks: seq<nat>, os: seq<string>) {
    |ks| == |os| && exists a | 0 <= a < |ks| :: ks[a] <= i < ks[a] + |os[a]|
  }

  /** From `from` on, up to `end`, the texts `os` begin at `ks`, one behind the other, and outside of
      them none begins. */
  ghost predicate Stand(begins: nat -> Option<string>, from: nat, end: nat, ks: seq<nat>, os: seq<string>) {
    && Placed(begins, from, end, ks, os) && Apart(ks, os)
    && (forall i: nat | from <= i < end && begins(i).Some? :: Inside(i, ks, os))
  }

  lemma PlacedFirst(begins: nat -> Option<string>, from: nat, end: nat, obj: string, ks: seq<nat>, os: seq<string>)
    requires begins(from) == Some(obj) && from + |obj| <= end && Placed(begins, from + |obj|, end, ks, os)
    ensures Placed(begins, from, end, [from] + ks, [obj] + os)
  {
  }

  lemma ApartFirst(from: nat, obj: string, ks: seq<nat>, os: seq<string>)
    requires Apart(ks, os) && forall a | 0 <= a < |ks| :: from + |obj| <= ks[a]
    ensures Apart([from] + ks, [obj] + os)
  {
    var ks', os' := [from] + ks, [obj] + os;
    forall a, b | 0 <= a < b < |ks'| ensures ks'[a] + |os'[a]| <= ks'[b] {
      assert ks'[b] == ks[b - 1];
      assert a > 0 ==> ks'[a] == ks[a - 1] && os'[a] == os[a - 1];
    }
  }

  lemma InsideFirst(i: nat, from: nat, obj: string, ks: seq<nat>, os: seq<string>)
    requires from <= i < from + |obj| || Inside(i, ks, os)
    requires |ks| == |os|
    ensures Inside(i, [from] + ks, [obj] + os)
  {
    var ks', os' := [from] + ks, [obj] + os;
    if from <= i < from + |obj| {
      assert ks'[0] <= i < ks'[0] + |os'[0]|;
    } else {
      var a :| 0 <= a < |ks| && ks[a] <= i < ks[a] + |os[a]|;
      assert ks'[a + 1] <= i < ks'[a + 1] + |os'[a + 1]|;
    }
  }

  lemma StandFirst(begins: nat -> Option<string>, from: nat, end: nat, obj: string, ks: seq<nat>, os: seq<string>)
    requires begins(from) == Some(obj) && from + |obj| <= end && Stand(begins, from + |obj|, end, ks, os)
    ensures Stand(begins, from, end, [from] + ks, [obj] + os)
  {
    PlacedFirst(begins, from, end, obj, ks, os);
    ApartFirst(from, obj, ks, os);
    forall i: nat | from <= i < end && begins(i).Some? ensures Inside(i, [from] + ks, [obj] + os) {
      InsideFirst(i, from, obj, ks, os);
    }
  }

  lemma StandSkip(begins: nat -> Option<string>, from: nat, end: nat, ks: seq<nat>, os: seq<string>)
    requires begins(from).None? && Stand(begins, from + 1, end, ks, os)
    ensures Stand(begins, from, end, ks, os)
  {
  }

  lemma {:induction false} ObjectsStandFrom(s: string, valid: string -> bool, from: nat) returns (ks: seq<nat>)
    requires from <= |s|
    ensures Stand(BeginsAt(s, valid), from, |s|, ks, Objects(s[from..], valid))
    decreases |s| - from
  {
    ks := [];
    if from < |s| {
      var rest := s[from..];
      assert BeginsAt(s, valid)(from) == ObjectAt(rest, valid);
      match ObjectAt(rest, valid)
      case None =>
        assert rest[1..] == s[from + 1..];
        ks := ObjectsStandFrom(s, valid, from + 1);
        StandSkip(BeginsAt(s, valid), from, |s|, ks, Objects(s[from + 1..], valid));
      case Some(obj) =>
        assert rest[|obj|..] == s[from + |obj|..];
        ks := ObjectsStandFrom(s, valid, from + |obj|);
        StandFirst(BeginsAt(s, valid), from, |s|, obj, ks, Objects(s[from + |obj|..], valid));
        ks := [from] + ks;
    }
  }

  /** Of any text: the objects found stand one behind the other, and none begins outside of them; so
      the search goes on behind an object, and one character further where none begins. */
  lemma ObjectsStand(s: string, valid: string -> bool)
    ensures exists ks :: Stand(BeginsAt(s, valid), 0, |s|, ks, Objects(s, valid))
  {
    var ks := ObjectsStandFrom(s, valid, 0);
    assert s[0..] == s;
  }

  /** What follows a text in which no object begins is searched as if it stood alone: a malformed
      object in front does not hide the real one behind it. */
  lemma {:induction false} SuffixSurvives(p: string, rest: string, valid: string -> bool)
    requires forall i | 0 <= i < |p| :: ObjectAt((p + rest)[i..], valid) == None
    ensures Objects(p + rest, valid) == Objects(rest, valid)
  {
    if p == [] {
      assert p + rest == rest;
    } else {
      var s := p + rest;
      assert s[0..] == s && s[1..] == p[1..] + rest;
      forall i | 0 <= i < |p[1..]| ensures ObjectAt((p[1..] + rest)[i..], valid) == None {
        assert (p[1..] + rest)[i..] == s[i + 1..];
      }
      SuffixSurvives(p[1..], rest, valid);
    }
  }

  lemma {:induction false} NoBraceNoObject(s: string, valid: string -> bool)
    requires '{' !in s
    ensures Objects(s, valid) == []
    decreases |s|
  {
    if s != [] {
      assert s[0] in s;
      NoBraceNoObject(s[1..], valid);
    }
  }

  /** The extractor's answer for any text: an error exactly without a valid object, and else the last
      of its objects that names a payload, or the last one. */
  lemma ExtractMeans(s: string, valid: string -> bool)
    ensures var os, r := Objects(s, valid), ExtractSpec(s, valid);
      && (r == NoObject <==> '{' !in s)
      && (r.Found? <==> os != [])
      && (r.Found? ==> LastNamed(os, r.json))
  {
    ChoiceIsLastNamed(Objects(s, valid));
    if '{' !in s {
      NoBraceNoObject(s, valid);
    }
  }

  /** Round trip: out of any prose and any printed objects, the extractor returns the last object
      whose text has "findings" or "summary" anywhere in it, else the last one; without objects it
      fails. */
  lemma ExtractComesBack(parts: seq<(string, Value)>, tail: string, valid: string -> bool)
    requires ChecksJson(valid) && PartsOk(parts) && Prose(tail)
    ensures var r := ExtractSpec(Render(parts, tail), valid);
      if parts == [] then !r.Found? else r.Found? && LastNamed(Texts(parts), r.json)
  {
    ObjectsComeBack(parts, tail, valid);
    ChoiceIsLastNamed(Texts(parts));
    if parts != [] {
      BraceInRender(parts, tail);
    }
  }

  // ----- the findings of a payload -----

  datatype ReviewResult = ReviewResult(summary: string, findings: seq<Finding>)

  function Normal(f: Finding): Finding {
    if KnownSeverity(f.severity) then f else f.(severity := MINOR)
  }

  function Kept(fs: seq<Finding>): seq<Finding> {
    if fs == [] then []
    else
      var f := fs[|fs| - 1];
      Kept(fs[..|fs| - 1]) + if f.file == "" || f.title == "" then [] else [Normal(f)]
  }

  /** `decode` is the JSON library's decoder. */
  method ParseResult(out: string, valid: string -> bool, decode: string -> Option<ReviewResult>)
    returns (r: Option<ReviewResult>)
    ensures r == match ExtractSpec(out, valid)
                 case Found(raw) =>
                   (match decode(raw)
                    case None => None
                    case Some(res) => Some(ReviewResult(res.summary, Kept(res.findings))))
                 case _ => None
  {
    var raw := ExtractJson(out, valid);
    if !raw.Found? {
      return None;
    }
    match decode(raw.json)
    case None => return None;
    case Some(res) =>
      var kept: seq<Finding> := [];
      for i := 0 to |res.findings|
        invariant kept == Kept(res.findings[..i])
      {
        assert res.findings[..i + 1][..i] == res.findings[..i];
        var f := res.findings[i];
        if f.file == "" || f.title == "" {
          continue;
        }
        if !KnownSeverity(f.severity) {
          f := f.(severity := MINOR);
        }
        kept := kept + [f];
      }
      assert res.findings[..|res.findings|] == res.findings;
      return Some(ReviewResult(res.summary, kept));
  }

  predicate Usable(f: Finding) {
    f.file != "" && f.title != ""
  }

  predicate Ascending(ks: seq<nat>) {
    forall a, b | 0 <= a < b < |ks| :: ks[a] < ks[b]
  }

  /** `ks` are the positions of the usable findings, in order, and `kept` are those findings with
      an unknown severity made minor. */
  ghost predicate KeptAt(fs: seq<Finding>, ks: seq<nat>, kept: seq<Finding>) {
    && Ascending(ks) && |kept| == |ks|
    && (forall a | 0 <= a < |ks| :: ks[a] < |fs| && Usable(fs[ks[a]]) && kept[a] == Normal(fs[ks[a]]))
    && (forall i | 0 <= i < |fs| && Usable(fs[i]) :: i in ks)
  }

  lemma KeptGrows(fs: seq<Finding>, ks: seq<nat>, kept: seq<Finding>, f: Finding)
    requires KeptAt(fs, ks, kept)
    ensures Usable(f) ==> KeptAt(fs + [f], ks + [|fs|], kept + [Normal(f)])
    ensures !Usable(f) ==> KeptAt(fs + [f], ks, kept)
  {
    forall i | 0 <= i < |fs + [f]| && Usable((fs + [f])[i]) ensures i in ks + [|fs|] && (i < |fs| ==> i in ks) {
      if i == |fs| {
        assert (ks + [|fs|])[|ks|] == i;
      } else {
        assert (fs + [f])[i] == fs[i];
      }
    }
  }

  lemma {:induction false} KeptExact(fs: seq<Finding>) returns (ks: seq<nat>)
    ensures KeptAt(fs, ks, Kept(fs))
  {
    ks := [];
    if fs != [] {
      var front, last := fs[..|fs| - 1], fs[|fs| - 1];
      ks := KeptExact(front);
      KeptGrows(front, ks, Kept(front), last);
      assert fs == front + [last] && Kept(front) + [] == Kept(front);
      if Usable(last) {
        ks := ks + [|front|];
      }
    }
  }

  /** One of the four severities. */
  predicate Listed(severity: string) {
    severity == "nit" || severity == "minor" || severity == "major" || severity == "critical"
  }

  /** A listed severity is kept; any other becomes "minor", with all else unchanged. */
  lemma NormalMeans(f: Finding)
    ensures Normal(f) == Finding(f.file, f.line, if Listed(f.severity) then f.severity else "minor", f.title, f.body)
  {
  }

  /** The kept findings are the payload's usable ones, in its order, and each has a listed severity:
      its own, or minor in place of another. */
  lemma KeptUsable(fs: seq<Finding>)
    ensures exists ks :: KeptAt(fs, ks, Kept(fs))
    ensures forall f | f in Kept(fs) :: f.file != "" && f.title != "" && Listed(f.severity)
    ensures forall f | f in fs && f.file != "" && f.title != "" && Listed(f.severity) :: f in Kept(fs)
  {
    var ks := KeptExact(fs);
    forall f | f in Kept(fs) ensures Usable(f) && Listed(f.severity) {
      var a :| 0 <= a < |Kept(fs)| && Kept(fs)[a] == f;
      NormalMeans(fs[ks[a]]);
    }
    forall f | f in fs && Usable(f) && Listed(f.severity) ensures f in Kept(fs) {
      NormalMeans(f);
      var i :| 0 <= i < |fs| && fs[i] == f;
      assert i in ks;
      var a :| 0 <= a < |ks| && ks[a] == i;
      assert Kept(fs)[a] == f;
    }
  }
}
