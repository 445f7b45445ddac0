/** A pass that is saved left nothing out: in the same attempt everything before it succeeded. */
module ReviewOrder {
  import opened Basics
  import opened Tables
  import opened Machine

  /** How far a review has come. */
  function Stage(pc: Pc): nat {
    match pc
    case Fetching(_, _) => 1
    case Reviewing(_, _, _) => 2
    case Selecting(_, _, _, _) => 3
    case Posting(_, _, _, _) => 4
    case Recording(_, _, _, _, _) => 4
    case Summarizing(_, _, _) => 4
    case SavingSummary(_, _, _) => 5
    case SavingCycle(_, _, _) => 6
    case _ => 0
  }

  /** The operation that ends stage `n`. */
  predicate EndsStage(s: Sys, a: Action, job: Job, n: nat) {
    && a.Io? && !s.pc.Ready? && s.pc.job == job
    && match n
       case 0 => s.pc.Reading? && a.outcome == Acked
       case 1 => s.pc.Fetching? && a.outcome == Acked && a.reply.DiffText? && !a.reply.blank
       case 2 => s.pc.Reviewing? && a.outcome == Acked && a.reply.Findings?
       case 3 => s.pc.Selecting?
       case 4 => s.pc.Summarizing? && a.outcome == Acked
       case 5 => s.pc.SavingSummary? && a.outcome == Acked
       case _ => false
  }

  predicate DidAt(cfg: Cfg, run: seq<Action>, k: nat, job: Job, n: nat) {
    k < |run| && Exec(cfg, run[..k]).Some? && EndsStage(Exec(cfg, run[..k]).value, run[k], job, n)
  }

  /** From `s` by `a` the review is at `pc`: at no stage, at the same one, or behind the one it ended. */
  predicate GoesOn(s: Sys, a: Action, pc: Pc) {
    || Stage(pc) == 0
    || (!s.pc.Ready? && pc.job == s.pc.job && Stage(pc) == Stage(s.pc))
    || (!s.pc.Ready? && pc.job == s.pc.job && Stage(pc) == Stage(s.pc) + 1 && EndsStage(s, a, pc.job, Stage(s.pc)))
  }

  lemma AckedGoesOn(cfg: Cfg, s: Sys, r: Reply)
    requires Enabled(cfg, s, Io(Acked, r))
    ensures GoesOn(s, Io(Acked, r), AckedPc(cfg, s, r))
  {
  }

  lemma ErrorGoesOn(cfg: Cfg, s: Sys, o: Outcome, r: Reply)
    requires Enabled(cfg, s, Io(o, r)) && o != Acked
    ensures GoesOn(s, Io(o, r), ErrorPc(cfg, s.pc))
  {
  }

  /** A step keeps the stage, ends it and enters the next one, or starts from none. */
  lemma StageStep(cfg: Cfg, s: Sys, a: Action)
    requires Enabled(cfg, s, a)
    ensures GoesOn(s, a, Step(cfg, s, a).pc)
  {
    if a.Io? && a.outcome == Acked {
      AckedGoesOn(cfg, s, a.reply);
    } else if a.Io? {
      ErrorGoesOn(cfg, s, a.outcome, a.reply);
    }
  }

  /** This attempt ended the first `n` stages, one after the other. */
  ghost predicate DidInOrder(cfg: Cfg, run: seq<Action>, job: Job, n: nat)
    decreases n
  {
    n == 0 || exists k: nat :: DidAt(cfg, run, k, job, n - 1) && DidInOrder(cfg, run[..k], job, n - 1)
  }

  lemma KeptAt(cfg: Cfg, run: seq<Action>, a: Action, k: nat, job: Job, n: nat)
    requires DidAt(cfg, run, k, job, n)
    ensures DidAt(cfg, run + [a], k, job, n) && (run + [a])[..k] == run[..k]
  {
    assert (run + [a])[..k] == run[..k] && (run + [a])[k] == run[k];
  }

  lemma {:induction false} StillInOrder(cfg: Cfg, run: seq<Action>, a: Action, job: Job, n: nat)
    requires DidInOrder(cfg, run, job, n)
    ensures DidInOrder(cfg, run + [a], job, n)
  {
    if n > 0 {
      var k: nat :| DidAt(cfg, run, k, job, n - 1) && DidInOrder(cfg, run[..k], job, n - 1);
      KeptAt(cfg, run, a, k, job, n - 1);
    }
  }

  lemma {:induction false} OneMore(cfg: Cfg, run: seq<Action>, s: Sys, a: Action, job: Job, n: nat)
    requires Reaches(cfg, run, s) && EndsStage(s, a, job, n) && DidInOrder(cfg, run, job, n)
    ensures DidInOrder(cfg, run + [a], job, n + 1)
  {
    assert (run + [a])[..|run|] == run && (run + [a])[|run|] == a;
    assert DidAt(cfg, run + [a], |run|, job, n);
  }

  /** Over every run: whatever stage a review is at, this attempt of it ended every earlier one, in
      order. So a pass is saved only after, in the same attempt, the budget was read, a diff that is
      not empty was fetched, the engine answered, the recorded comments were looked up, the summary
      was accepted and its id was stored. */
  lemma {:induction false} StagesInOrder(cfg: Cfg, run: seq<Action>, s: Sys)
    requires Reaches(cfg, run, s) && Stage(s.pc) > 0
    ensures DidInOrder(cfg, run, s.pc.job, Stage(s.pc))
  {
    var front, a := run[..|run| - 1], run[|run| - 1];
    var p := Exec(cfg, front).value;
    assert run == front + [a];
    StageStep(cfg, p, a);
    if Stage(p.pc) > 0 {
      StagesInOrder(cfg, front, p);
    }
    if Stage(p.pc) == Stage(s.pc) {
      StillInOrder(cfg, front, a, s.pc.job, Stage(s.pc));
    } else {
      OneMore(cfg, front, p, a, s.pc.job, Stage(p.pc));
    }
  }
}
