/** What the history of a run says: counts over the whole log, and counts since the last reset
    of a pull request (a reset epoch). */
module History {
  import opened Basics
  import opened Machine

  function One(b: bool): nat {
    if b then 1 else 0
  }

  /** Occurrences of `e` in the whole log. */
  function Count(log: seq<Entry>, e: Entry): nat {
    if log == [] then 0
    else Count(log[..|log| - 1], e) + if log[|log| - 1] == e then 1 else 0
  }

  predicate IsReset(x: Entry, key: string) {
    x.ResetDone? && x.key == key
  }

  predicate IsPass(x: Entry, key: string) {
    x.PassDone? && x.key == key
  }

  /** How one more entry changes a count of `e` since the last reset. */
  function Plus(n: nat, x: Entry, e: Entry): nat {
    if IsReset(x, e.key) then 0 else if x == e then n + 1 else n
  }

  /** Occurrences of `e` since the last reset of its pull request. */
  function Since(log: seq<Entry>, e: Entry): nat {
    if log == [] then 0 else Plus(Since(log[..|log| - 1], e), log[|log| - 1], e)
  }

  function PlusPass(ps: seq<Entry>, x: Entry, key: string): seq<Entry> {
    if IsReset(x, key) then [] else if IsPass(x, key) then ps + [x] else ps
  }

  /** The completed passes of a pull request since its last reset, in order. */
  function Passes(log: seq<Entry>, key: string): (r: seq<Entry>)
    ensures forall p | p in r :: p.PassDone? && p.key == key
  {
    if log == [] then [] else PlusPass(Passes(log[..|log| - 1], key), log[|log| - 1], key)
  }

  /** All completed passes of a pull request, over every epoch. */
  function TotalPasses(log: seq<Entry>, key: string): nat {
    if log == [] then 0
    else TotalPasses(log[..|log| - 1], key) + if IsPass(log[|log| - 1], key) then 1 else 0
  }

  /** The deliveries that have reset a pull request, one element per reset. */
  function Resets(log: seq<Entry>, key: string): seq<string> {
    if log == [] then []
    else
      Resets(log[..|log| - 1], key)
      + if IsReset(log[|log| - 1], key) then [log[|log| - 1].delivery] else []
  }

  /** The cycles that one delivery has spent. */
  function SpentBy(log: seq<Entry>, delivery: string): nat {
    if log == [] then 0
    else
      SpentBy(log[..|log| - 1], delivery) + if IsSpend(log[|log| - 1], delivery) then 1 else 0
  }

  predicate IsSpend(x: Entry, delivery: string) {
    x.PassDone? && x.delivery == delivery
  }

  // ----- a step appends at most two entries -----

  lemma Split2(log: seq<Entry>, xs: seq<Entry>)
    requires |xs| == 2
    ensures log + xs == (log + [xs[0]]) + [xs[1]]
    ensures ((log + [xs[0]]) + [xs[1]])[..|log| + 1] == log + [xs[0]]
    ensures (log + [xs[0]])[..|log|] == log
  {
  }

  lemma SinceAdded(log: seq<Entry>, xs: seq<Entry>, e: Entry)
    requires |xs| <= 2
    ensures Since(log + xs, e) ==
            if xs == [] then Since(log, e)
            else if |xs| == 1 then Plus(Since(log, e), xs[0], e)
            else Plus(Plus(Since(log, e), xs[0], e), xs[1], e)
  {
    if xs == [] {
      assert log + xs == log;
    } else if |xs| == 1 {
      assert (log + xs)[..|log|] == log;
    } else {
      Split2(log, xs);
    }
  }

  lemma CountAdded(log: seq<Entry>, xs: seq<Entry>, e: Entry)
    requires |xs| <= 2
    ensures Count(log + xs, e) == Count(log, e)
              + (if |xs| >= 1 && xs[0] == e then 1 else 0) + (if |xs| == 2 && xs[1] == e then 1 else 0)
  {
    if xs == [] {
      assert log + xs == log;
    } else if |xs| == 1 {
      assert (log + xs)[..|log|] == log;
    } else {
      Split2(log, xs);
    }
  }

  lemma PassesAdded(log: seq<Entry>, xs: seq<Entry>, key: string)
    requires |xs| <= 2
    ensures Passes(log + xs, key) ==
            if xs == [] then Passes(log, key)
            else if |xs| == 1 then PlusPass(Passes(log, key), xs[0], key)
            else PlusPass(PlusPass(Passes(log, key), xs[0], key), xs[1], key)
    ensures TotalPasses(log + xs, key) == TotalPasses(log, key)
              + (if |xs| >= 1 && IsPass(xs[0], key) then 1 else 0)
              + (if |xs| == 2 && IsPass(xs[1], key) then 1 else 0)
    ensures Resets(log + xs, key) == Resets(log, key)
              + (if |xs| >= 1 && IsReset(xs[0], key) then [xs[0].delivery] else [])
              + (if |xs| == 2 && IsReset(xs[1], key) then [xs[1].delivery] else [])
  {
    if xs == [] {
      assert log + xs == log;
    } else if |xs| == 1 {
      assert (log + xs)[..|log|] == log;
    } else {
      Split2(log, xs);
    }
  }

  lemma SpentAdded(log: seq<Entry>, xs: seq<Entry>, delivery: string)
    requires |xs| <= 2
    ensures SpentBy(log + xs, delivery) == SpentBy(log, delivery)
              + (if |xs| >= 1 && IsSpend(xs[0], delivery) then 1 else 0)
              + (if |xs| == 2 && IsSpend(xs[1], delivery) then 1 else 0)
  {
    if xs == [] {
      assert log + xs == log;
    } else if |xs| == 1 {
      assert (log + xs)[..|log|] == log;
    } else {
      Split2(log, xs);
    }
  }

  // ----- one step -----

  lemma IoShape(cfg: Cfg, s: Sys, o: Outcome, key: string)
    requires !s.pc.Ready?
    ensures var xs := IoLog(cfg, s, o);
      && |xs| <= 2
      && (|xs| == 2 ==> xs[0] != xs[1] && !xs[0].ResetDone? && !xs[1].ResetDone?)
      && (s.pc.Resetting? && o.Applied() ==> |xs| == 1)
      && (|xs| >= 1 && xs[0].ResetDone? ==> s.pc.Resetting? && o.Applied() && xs[0].key == s.pc.job.Key())
  {
  }

  lemma StepShape(cfg: Cfg, s: Sys, a: Action, key: string)
    requires Enabled(cfg, s, a)
    ensures var xs := Added(cfg, s, a);
      && |xs| <= 2
      && (|xs| == 2 ==> xs[0] != xs[1] && !xs[0].ResetDone? && !xs[1].ResetDone?)
      && (ResetsKey(s, a, key) <==> |xs| >= 1 && IsReset(xs[0], key))
      && (ResetsKey(s, a, key) ==> |xs| == 1)
  {
    if a.Io? {
      IoShape(cfg, s, a.outcome, key);
    }
  }

  /** `xs` is what one step appends; `resets` says whether that is a reset of `key`. */
  predicate Shaped(xs: seq<Entry>, key: string, resets: bool) {
    && |xs| <= 2
    && (|xs| == 2 ==> xs[0] != xs[1] && !xs[0].ResetDone? && !xs[1].ResetDone?)
    && (resets <==> |xs| >= 1 && IsReset(xs[0], key))
    && (resets ==> |xs| == 1)
  }

  lemma SinceFrom(log: seq<Entry>, xs: seq<Entry>, e: Entry, resets: bool)
    requires Shaped(xs, e.key, resets) && !e.ResetDone?
    ensures Since(log + xs, e) == if resets then 0 else Since(log, e) + One(e in xs)
  {
    SinceAdded(log, xs, e);
  }

  lemma CountFrom(log: seq<Entry>, xs: seq<Entry>, e: Entry)
    requires |xs| <= 2 && (|xs| == 2 ==> xs[0] != xs[1])
    ensures Count(log + xs, e) == Count(log, e) + One(e in xs)
  {
    CountAdded(log, xs, e);
  }

  lemma SinceStep(cfg: Cfg, s: Sys, a: Action, e: Entry)
    requires Enabled(cfg, s, a) && !e.ResetDone?
    ensures Since(Step(cfg, s, a).log, e) ==
            if ResetsKey(s, a, e.key) then 0 else Since(s.log, e) + One(e in Added(cfg, s, a))
  {
    StepShape(cfg, s, a, e.key);
    SinceFrom(s.log, Added(cfg, s, a), e, ResetsKey(s, a, e.key));
  }

  lemma CountStep(cfg: Cfg, s: Sys, a: Action, e: Entry)
    requires Enabled(cfg, s, a)
    ensures Count(Step(cfg, s, a).log, e) == Count(s.log, e) + One(e in Added(cfg, s, a))
  {
    StepShape(cfg, s, a, e.key);
    CountFrom(s.log, Added(cfg, s, a), e);
  }

  /** The step completes a pass of `key`. */
  predicate PassesKey(s: Sys, a: Action, key: string) {
    a.Io? && a.outcome.Applied() && s.pc.SavingCycle? && s.pc.job.Key() == key
  }

  function ThePass(s: Sys): Entry
    requires s.pc.SavingCycle?
  {
    PassDone(s.pc.job.Key(), s.pc.job.delivery.id, s.pc.job.delivery.head, s.pc.scope)
  }

  lemma PassShape(cfg: Cfg, s: Sys, a: Action)
    requires Enabled(cfg, s, a)
    ensures var xs := Added(cfg, s, a);
      && (|xs| == 2 ==> !xs[1].PassDone?)
      && (|xs| >= 1 && xs[0].PassDone? <==> a.Io? && a.outcome.Applied() && s.pc.SavingCycle?)
      && (|xs| >= 1 && xs[0].PassDone? ==> xs[0] == ThePass(s))
  {
  }

  lemma PassesFrom(log: seq<Entry>, xs: seq<Entry>, key: string, resets: bool)
    requires Shaped(xs, key, resets) && (|xs| == 2 ==> !xs[1].PassDone?)
    ensures Passes(log + xs, key) ==
            if resets then []
            else if |xs| >= 1 && IsPass(xs[0], key) then Passes(log, key) + [xs[0]] else Passes(log, key)
    ensures TotalPasses(log + xs, key) == TotalPasses(log, key) + One(|xs| >= 1 && IsPass(xs[0], key))
    ensures Resets(log + xs, key) == Resets(log, key) + if resets then [xs[0].delivery] else []
  {
    PassesAdded(log, xs, key);
    assert Resets(log, key) + [] == Resets(log, key);
  }

  /** Only a reset and a saved pass change which passes count. */
  lemma PassesStep(cfg: Cfg, s: Sys, a: Action, key: string)
    requires Enabled(cfg, s, a)
    ensures var log, log' := s.log, Step(cfg, s, a).log;
      && Passes(log', key) == (if ResetsKey(s, a, key) then []
                               else if PassesKey(s, a, key) then Passes(log, key) + [ThePass(s)]
                               else Passes(log, key))
      && TotalPasses(log', key) == TotalPasses(log, key) + One(PassesKey(s, a, key))
      && Resets(log', key) == Resets(log, key) + if ResetsKey(s, a, key) then [s.pc.job.delivery.id] else []
  {
    StepShape(cfg, s, a, key);
    PassShape(cfg, s, a);
    ResetEntry(cfg, s, a);
    PassesFrom(s.log, Added(cfg, s, a), key, ResetsKey(s, a, key));
  }

  lemma ResetEntry(cfg: Cfg, s: Sys, a: Action)
    requires Enabled(cfg, s, a)
    ensures |Added(cfg, s, a)| >= 1 && Added(cfg, s, a)[0].ResetDone? ==>
              !s.pc.Ready? && Added(cfg, s, a)[0].delivery == s.pc.job.delivery.id
  {
  }
}
