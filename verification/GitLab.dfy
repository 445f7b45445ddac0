/** The GitLab provider's memo of one merge request's diff refs: a single slot that is read and
    overwritten around a fetch. */
module GitLab {
  import opened Basics
  import opened Keys

  datatype Refs = Refs(base: string, head: string, start: string)

  datatype Query = Query(repo: string, iid: int, head: string)
  {
    function Key(): string {
      RefsKey(repo, iid, head)
    }
  }

  /** The slot; an empty key means that nothing was fetched yet. */
  datatype Memo = Memo(key: string, refs: Refs)

  const EMPTY: Memo := Memo("", Refs("", "", ""))

  /** What the slot becomes and what the caller gets; `fetched` is the forge's answer, in case it
      is asked. */
  function Ask(m: Memo, q: Query, fetched: Option<Refs>): (Memo, Option<Refs>) {
    if m.key == q.Key() then (m, Some(m.refs))
    else
      match fetched
      case None => (m, None)
      case Some(refs) => (Memo(q.Key(), refs), Some(refs))
  }

  class DiffRefs {
    var refsKey: string
    var refs: Refs

    function Slot(): Memo
      reads this
    {
      Memo(refsKey, refs)
    }

    constructor ()
      ensures Slot() == EMPTY
    {
      refsKey, refs := "", Refs("", "", "");
    }

    /** Answers from the slot, or asks the forge once and overwrites the slot. */
    method Lookup(q: Query, fetched: Option<Refs>) returns (r: Option<Refs>, calls: nat)
      modifies this
      ensures Slot() == Ask(old(Slot()), q, fetched).0 && r == Ask(old(Slot()), q, fetched).1
      ensures calls == if old(refsKey) == q.Key() then 0 else 1
    {
      var cached, hit := refs, refsKey == q.Key();
      if hit {
        return Some(cached), 0;
      }
      if fetched.None? {
        return None, 1;
      }
      refsKey, refs := q.Key(), fetched.value;
      r, calls := fetched, 1;
    }
  }

  // ----- any sequence of lookups -----

  datatype Call = Call(query: Query, fetched: Option<Refs>)

  function AfterCalls(cs: seq<Call>): Memo {
    if cs == [] then EMPTY
    else Ask(AfterCalls(cs[..|cs| - 1]), cs[|cs| - 1].query, cs[|cs| - 1].fetched).0
  }

  /** The answer to the last call. */
  function Answer(cs: seq<Call>): Option<Refs>
    requires cs != []
  {
    Ask(AfterCalls(cs[..|cs| - 1]), cs[|cs| - 1].query, cs[|cs| - 1].fetched).1
  }

  /** The successful fetches. */
  function Fetches(cs: seq<Call>): nat {
    if cs == [] then 0
    else
      var last := cs[|cs| - 1];
      Fetches(cs[..|cs| - 1])
      + if AfterCalls(cs[..|cs| - 1]).key != last.query.Key() && last.fetched.Some? then 1 else 0
  }

  /** The keys of the calls that got an answer. */
  function Answered(cs: seq<Call>): seq<string> {
    if cs == [] then []
    else Answered(cs[..|cs| - 1]) + if Answer(cs).Some? then [cs[|cs| - 1].query.Key()] else []
  }

  /** How often a key differs from the one before it. */
  function Switches<T(==)>(keys: seq<T>): nat {
    if keys == [] then 0
    else
      var n := |keys| - 1;
      Switches(keys[..n]) + if n == 0 || keys[n] != keys[n - 1] then 1 else 0
  }

  /** The forge's refs are a function of the revision. */
  ghost predicate Truthful(cs: seq<Call>, truth: Query -> Refs) {
    forall c | c in cs :: IsHex(c.query.head) && (c.fetched.Some? ==> c.fetched.value == truth(c.query))
  }

  /** The key and the refs in the slot belong together. */
  ghost predicate Holds(m: Memo, truth: Query -> Refs) {
    m == EMPTY || exists q: Query :: IsHex(q.head) && m == Memo(q.Key(), truth(q))
  }

  /** A key names one revision, so a hit answers for the revision that was asked about. */
  lemma HitIsTrue(m: Memo, q: Query, truth: Query -> Refs)
    requires Holds(m, truth) && IsHex(q.head) && m.key == q.Key()
    ensures m.refs == truth(q)
  {
    RefsKeyRoundTrip(q.repo, q.iid, q.head);
    var p: Query :| IsHex(p.head) && m == Memo(p.Key(), truth(p));
    RefsKeyRoundTrip(p.repo, p.iid, p.head);
    assert p == q;
  }

  lemma {:induction false} SlotHolds(cs: seq<Call>, truth: Query -> Refs)
    requires Truthful(cs, truth)
    ensures Holds(AfterCalls(cs), truth)
  {
    if cs != [] {
      SlotHolds(cs[..|cs| - 1], truth);
    }
  }

  lemma KeyNotEmpty(q: Query)
    ensures q.Key() != ""
  {
    assert q.Key() == q.repo + ("#" + Dec(q.iid) + "@" + q.head);
  }

  lemma SwitchesAppend<T>(keys: seq<T>, key: T)
    ensures Switches(keys + [key]) == Switches(keys) + if keys == [] || key != keys[|keys| - 1] then 1 else 0
  {
    var longer := keys + [key];
    assert longer[..|keys|] == keys && longer[|keys|] == key;
    if keys != [] {
      assert longer[|keys| - 1] == keys[|keys| - 1];
    }
  }

  function LastAnswered(cs: seq<Call>): string {
    if Answered(cs) == [] then "" else Answered(cs)[|Answered(cs)| - 1]
  }

  lemma {:induction false} SlotIsLastAnswered(cs: seq<Call>)
    ensures AfterCalls(cs).key == LastAnswered(cs)
  {
    if cs != [] {
      SlotIsLastAnswered(cs[..|cs| - 1]);
    }
  }

  /** Whatever the memo answers is true, as if the forge had been asked every time; and it answers
      exactly when the forge would, or when the last answer was for the same revision. */
  lemma MemoIsTransparent(cs: seq<Call>, truth: Query -> Refs)
    requires cs != [] && Truthful(cs, truth)
    ensures var last := cs[|cs| - 1];
      && (Answer(cs).Some? ==> Answer(cs).value == truth(last.query))
      && (Answer(cs).Some? <==> last.fetched.Some? || LastAnswered(cs[..|cs| - 1]) == last.query.Key())
  {
    var m, last := AfterCalls(cs[..|cs| - 1]), cs[|cs| - 1];
    SlotHolds(cs[..|cs| - 1], truth);
    SlotIsLastAnswered(cs[..|cs| - 1]);
    if m.key == last.query.Key() {
      HitIsTrue(m, last.query, truth);
    }
  }

  lemma OneCallMore(keys: seq<string>, slot: string, key: string, asked: bool, answered: bool)
    requires slot == if keys == [] then "" else keys[|keys| - 1]
    requires key != "" && (answered <==> slot == key || asked)
    ensures Switches(keys + if answered then [key] else []) == Switches(keys) + if slot != key && asked then 1 else 0
  {
    SwitchesAppend(keys, key);
    assert keys + [] == keys;
  }

  /** What the last call adds to the counts. */
  lemma {:induction false} LastCall(cs: seq<Call>, front: seq<Call>, slot: string, key: string, asked: bool)
    requires cs != [] && front == cs[..|cs| - 1] && slot == AfterCalls(front).key
    requires key == cs[|cs| - 1].query.Key() && asked == cs[|cs| - 1].fetched.Some?
    ensures Fetches(cs) == Fetches(front) + if slot != key && asked then 1 else 0
    ensures Answered(cs) == Answered(front) + if slot == key || asked then [key] else []
  {
  }

  lemma {:induction false} SwitchStep(cs: seq<Call>, front: seq<Call>, query: Query)
    requires cs != [] && front == cs[..|cs| - 1] && query == cs[|cs| - 1].query
    requires Fetches(front) == Switches(Answered(front)) && AfterCalls(front).key == LastAnswered(front)
    ensures Fetches(cs) == Switches(Answered(cs))
  {
    var slot, key, asked := AfterCalls(front).key, query.Key(), cs[|cs| - 1].fetched.Some?;
    KeyNotEmpty(query);
    LastCall(cs, front, slot, key, asked);
    OneCallMore(Answered(front), slot, key, asked, slot == key || asked);
  }

  /** The forge is asked successfully once per change of revision along the answered calls. */
  lemma {:induction false} FetchesAreSwitches(cs: seq<Call>)
    ensures Fetches(cs) == Switches(Answered(cs))
  {
    if cs != [] {
      FetchesAreSwitches(cs[..|cs| - 1]);
      SlotIsLastAnswered(cs[..|cs| - 1]);
      SwitchStep(cs, cs[..|cs| - 1], cs[|cs| - 1].query);
    }
  }
}
