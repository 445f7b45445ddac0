/** What surrounds the worker: for each of its operations, an answer of the database, the forge or
    the engine, and the deliveries that arrive before it. Against given answers the machine is
    deterministic. */
module World {
  import opened Basics
  import opened Tables
  import opened Selection
  import opened Machine

  /** The id of a comment that a forge created. */
  type Id = s: string | s != "" witness "0"

  /** `compared` and `diffed` say whether the comparison and the whole diff could be fetched;
      `stop` is the cancelled context at the end of a turn. */
  datatype Answer = Answer(
    arrivals: seq<Delivery>, outcome: Outcome, compared: bool, diffed: bool, blank: bool,
    findings: seq<Finding>, id: Id, stop: bool)

  /** The whole diff at first, then the comparison with the head reviewed last, and the whole diff
      again if that comparison fails. */
  function ScopeFor(st: PRState, compared: bool): (scope: Scope)
    ensures ScopeFits(st, scope)
  {
    if st.cycle + 1 == 1 || st.lastReviewed == "" then Full
    else if compared then Delta(st.lastReviewed) else Fallback(st.lastReviewed)
  }

  predicate HasDiff(st: PRState, ans: Answer) {
    ScopeFor(st, ans.compared).Delta? || ans.diffed
  }

  /** One delivery; without a head it is turned away. */
  function Receive(cfg: Cfg, s: Sys, d: Delivery): (t: Sys)
    ensures t.pc == s.pc && t.db.reviews == s.db.reviews && t.db.posted == s.db.posted && t.log == s.log
  {
    if d.head == "" then s else s.(db := NextDb(cfg, s, Arrive(d)))
  }

  /** The deliveries that arrive before an operation. */
  function Arrived(cfg: Cfg, s: Sys, ds: seq<Delivery>): (t: Sys)
    ensures t.pc == s.pc && t.db.reviews == s.db.reviews && t.db.posted == s.db.posted && t.log == s.log
  {
    if ds == [] then s else Receive(cfg, Arrived(cfg, s, ds[..|ds| - 1]), ds[|ds| - 1])
  }

  /** The step that the answer completes; a claim that finds nothing or fails is none. */
  function Response(cfg: Cfg, s: Sys, ans: Answer): (a: Option<Action>)
    ensures a.Some? ==> Enabled(cfg, s, a.value) && !a.value.Crash? && !a.value.Arrive?
    ensures a.None? ==> s.pc.Ready?
  {
    match s.pc
    case Ready =>
      if Head(s.db.jobs).None? || ans.outcome.Refused? then None else Some(Claim(ans.outcome.Acked?))
    case Fetching(_, st) =>
      if HasDiff(st, ans) then Some(Io(ans.outcome, DiffText(ScopeFor(st, ans.compared), ans.blank)))
      else Some(Io(Refused, Silent))
    case Reviewing(_, _, _) => Some(Io(ans.outcome, Findings(ans.findings)))
    case Summarizing(_, _, _) => Some(Io(ans.outcome, CommentId(ans.id)))
    case _ => Some(Io(ans.outcome, Silent))
  }

  /** One operation. */
  function Op(cfg: Cfg, s: Sys, ans: Answer): Sys {
    var p := Arrived(cfg, s, ans.arrivals);
    match Response(cfg, p, ans)
    case None => p
    case Some(a) => Step(cfg, p, a)
  }

  /** The operations answered by `world(from)` up to `world(until - 1)`. */
  function Ops(cfg: Cfg, world: nat -> Answer, s: Sys, from: nat, until: nat): Sys
    decreases until
  {
    if until <= from then s else Op(cfg, Ops(cfg, world, s, from, until - 1), world(until - 1))
  }

  /** The operations of any step function. */
  function Fold<S>(f: (S, nat) -> S, s: S, from: nat, until: nat): S
    decreases until
  {
    if until <= from then s else f(Fold(f, s, from, until - 1), until - 1)
  }

  lemma {:induction false} FoldJoin<S>(f: (S, nat) -> S, s: S, a: nat, b: nat, c: nat)
    requires a <= b <= c
    ensures Fold(f, Fold(f, s, a, b), b, c) == Fold(f, s, a, c)
  {
    if b < c {
      FoldJoin(f, s, a, b, c - 1);
    }
  }

  /** `step` is the machine's operation against the world's answers. */
  ghost predicate Follows(step: (Sys, nat) -> Sys, cfg: Cfg, world: nat -> Answer) {
    forall s, n: nat {:trigger Op(cfg, s, world(n))} :: step(s, n) == Op(cfg, s, world(n))
  }

  lemma {:induction false} FoldIsOps(
    step: (Sys, nat) -> Sys, cfg: Cfg, world: nat -> Answer, s: Sys, from: nat, until: nat)
    requires Follows(step, cfg, world)
    ensures Fold(step, s, from, until) == Ops(cfg, world, s, from, until)
    decreases until
  {
    if until > from {
      FoldIsOps(step, cfg, world, s, from, until - 1);
    }
  }

  // ----- operations stay among the reachable states -----

  ghost predicate Reachable(cfg: Cfg, s: Sys) {
    exists run :: Reaches(cfg, run, s)
  }

  lemma StepReachable(cfg: Cfg, s: Sys, a: Action)
    requires Reachable(cfg, s) && Enabled(cfg, s, a)
    ensures Reachable(cfg, Step(cfg, s, a))
  {
    var run :| Reaches(cfg, run, s);
    ExecAppend(cfg, run, a);
    assert Reaches(cfg, run + [a], Step(cfg, s, a));
  }

  lemma {:induction false} ArrivedReachable(cfg: Cfg, s: Sys, ds: seq<Delivery>)
    requires Reachable(cfg, s)
    ensures Reachable(cfg, Arrived(cfg, s, ds))
  {
    if ds != [] {
      var p, d := Arrived(cfg, s, ds[..|ds| - 1]), ds[|ds| - 1];
      ArrivedReachable(cfg, s, ds[..|ds| - 1]);
      if d.head != "" {
        StepReachable(cfg, p, Arrive(d));
        assert p.log + [] == p.log;
      }
    }
  }

  lemma OpReachable(cfg: Cfg, s: Sys, ans: Answer)
    requires Reachable(cfg, s)
    ensures Reachable(cfg, Op(cfg, s, ans))
  {
    var p := Arrived(cfg, s, ans.arrivals);
    ArrivedReachable(cfg, s, ans.arrivals);
    if Response(cfg, p, ans).Some? {
      StepReachable(cfg, p, Response(cfg, p, ans).value);
    }
  }

  /** Whatever the world answers, what holds of every reachable state holds between any two
      operations. */
  lemma {:induction false} OpsReachable(cfg: Cfg, world: nat -> Answer, s: Sys, from: nat, until: nat)
    requires Reachable(cfg, s)
    ensures Reachable(cfg, Ops(cfg, world, s, from, until))
    decreases until
  {
    if until > from {
      OpsReachable(cfg, world, s, from, until - 1);
      OpReachable(cfg, Ops(cfg, world, s, from, until - 1), world(until - 1));
    }
  }
}
