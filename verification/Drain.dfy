/** The queue drains: without further arrivals and with finitely many faults, every schedule of
    outcomes leads to an idle worker and a queue of done and dead rows. */
module Drain {
  import opened Basics
  import opened Tables
  import opened Machine
  import opened Safety
  import opened Verdicts

  /** A step that leaves a row running with nobody on it, or loses the worker's memory. */
  predicate IsFault(s: Sys, a: Action) {
    a.Crash? || a == Claim(false) || (a.Io? && a.outcome.Refused? && s.pc.Finishing?)
  }

  predicate Drained(s: Sys) {
    s.pc.Ready? && Head(s.db.jobs).None?
  }

  // ----- what decreases -----

  function Runnable(jobs: seq<Row>): nat {
    if jobs == [] then 0
    else Runnable(jobs[..|jobs| - 1]) + if jobs[|jobs| - 1].state.Terminal() then 0 else 1
  }

  lemma {:induction false} RunnableUpdate(jobs: seq<Row>, i: nat, row: Row)
    requires i < |jobs| && !jobs[i].state.Terminal()
    ensures Runnable(jobs[i := row]) == Runnable(jobs) - if row.state.Terminal() then 1 else 0
    ensures Runnable(jobs) >= 1
  {
    var front := jobs[..|jobs| - 1];
    var jobs' := jobs[i := row];
    if i < |front| {
      RunnableUpdate(front, i, row);
      assert jobs'[..|jobs'| - 1] == front[i := row];
    } else {
      assert jobs'[..|jobs'| - 1] == front;
    }
  }

  /** The tries that the oldest runnable row has left; the row in hand counts half a try more. */
  function Tries(cfg: Cfg, s: Sys): nat {
    if s.pc.Owns() then
      if s.pc.job.attempts < cfg.maxAttempts then 2 * (cfg.maxAttempts - s.pc.job.attempts) + 2 else 0
    else
      match Head(s.db.jobs)
      case None => 0
      case Some(h) =>
        if s.db.jobs[h].attempts < cfg.maxAttempts then 2 * (cfg.maxAttempts - s.db.jobs[h].attempts) + 1 else 1
  }

  function Phase(pc: Pc): nat {
    match pc
    case Ready => 0
    case Reporting(_) => 1
    case Finishing(_, _) => 2
    case SavingCycle(_, _, _) => 3
    case SavingSummary(_, _, _) => 4
    case Summarizing(_, _, _) => 5
    case Recording(_, _, _, _, _) => 6
    case Posting(_, _, _, _) => 6
    case Selecting(_, _, _, _) => 7
    case Reviewing(_, _, _) => 8
    case Fetching(_, _) => 9
    case SavingNotice(_, _) => 10
    case Noticing(_, _) => 11
    case Reading(_) => 12
    case Resetting(_) => 13
  }

  function Comments(pc: Pc): nat {
    match pc
    case Recording(_, _, _, _, todo) => 2 * |todo| + 1
    case Posting(_, _, _, todo) => 2 * |todo|
    case _ => 0
  }

  lemma HeadIs(jobs: seq<Row>, h: nat)
    requires h < |jobs| && !jobs[h].state.Terminal()
    requires forall i | 0 <= i < h :: jobs[i].state.Terminal()
    ensures Head(jobs) == Some(h)
  {
  }

  lemma ClaimDecreases(cfg: Cfg, s: Sys)
    requires QueueOk(s) && Enabled(cfg, s, Claim(true))
    ensures Runnable(Step(cfg, s, Claim(true)).db.jobs) == Runnable(s.db.jobs)
    ensures Tries(cfg, Step(cfg, s, Claim(true))) < Tries(cfg, s)
  {
    var h := Head(s.db.jobs).value;
    RunnableUpdate(s.db.jobs, h, ClaimRow(s.db.jobs, h)[h]);
  }

  lemma FinishDecreases(cfg: Cfg, s: Sys, o: Outcome, r: Reply)
    requires QueueOk(s) && s.pc.Finishing? && o.Applied()
    ensures var t := Step(cfg, s, Io(o, r));
      Runnable(t.db.jobs) < Runnable(s.db.jobs)
      || (Runnable(t.db.jobs) == Runnable(s.db.jobs) && Tries(cfg, t) < Tries(cfg, s))
  {
    var job, t := s.pc.job, Step(cfg, s, Io(o, r));
    var v := Verdict(cfg, job, s.pc.ok);
    assert t.db.jobs == s.db.jobs[job.id := s.db.jobs[job.id].(state := v)];
    RunnableUpdate(s.db.jobs, job.id, t.db.jobs[job.id]);
    if v == Failed {
      HeadIs(t.db.jobs, job.id);
    }
  }

  /** Later in the review, or at the same place with fewer comments to go. */
  predicate Later(pc: Pc, pc': Pc) {
    Phase(pc') < Phase(pc) || (Phase(pc') == Phase(pc) && Comments(pc') < Comments(pc))
  }

  lemma AckedIsLater(cfg: Cfg, s: Sys, r: Reply)
    requires !s.pc.Ready? && ReplyFits(s.pc, Acked, r) && !s.pc.Finishing?
    requires s.pc.Posting? ==> s.pc.todo != []
    ensures Later(s.pc, AckedPc(cfg, s, r))
  {
  }

  lemma ErrorIsLater(cfg: Cfg, pc: Pc)
    requires !pc.Ready? && !pc.Finishing?
    requires pc.Posting? ==> pc.todo != []
    ensures Later(pc, ErrorPc(cfg, pc))
  {
  }

  lemma IoKeepsTries(cfg: Cfg, s: Sys, o: Outcome, r: Reply)
    requires Safe(cfg, s) && Enabled(cfg, s, Io(o, r)) && !s.pc.Finishing?
    ensures var t := Step(cfg, s, Io(o, r)); t.db.jobs == s.db.jobs && Tries(cfg, t) == Tries(cfg, s)
  {
    IoJobs(cfg, s, o, r);
    assert s.pc.Owns() ==> Step(cfg, s, Io(o, r)).pc.Owns();
  }

  /** Every fault-free step of the worker decreases (runnable rows, tries, phase, comments). */
  lemma WorkerDecreases(cfg: Cfg, s: Sys, a: Action)
    requires Safe(cfg, s) && Enabled(cfg, s, a) && !a.Arrive? && !IsFault(s, a)
    ensures var t := Step(cfg, s, a);
      var r, r', n, n' := Runnable(s.db.jobs), Runnable(t.db.jobs), Tries(cfg, s), Tries(cfg, t);
      || r' < r
      || (r' == r && n' < n)
      || (r' == r && n' == n && Later(s.pc, t.pc))
  {
    match a
    case Claim(_) => ClaimDecreases(cfg, s);
    case Io(o, r) =>
      if s.pc.Finishing? {
        FinishDecreases(cfg, s, o, r);
      } else {
        if o.Acked? {
          AckedIsLater(cfg, s, r);
        } else {
          ErrorIsLater(cfg, s.pc);
        }
        IoKeepsTries(cfg, s, o, r);
      }
  }

  /** The worker is never stuck: unless the queue is drained it has a step that is no fault. */
  lemma NeverStuck(cfg: Cfg, s: Sys)
    requires !Drained(s)
    ensures exists a :: Enabled(cfg, s, a) && !a.Arrive? && !IsFault(s, a)
  {
    if s.pc.Ready? {
      assert Enabled(cfg, s, Claim(true));
    } else {
      assert Enabled(cfg, s, Io(Unacked, CommentId("x")));
    }
  }

  /** A schedule answers every claim, write and call; `n` counts the steps so far. */
  ghost predicate Schedules(cfg: Cfg, plan: (Sys, nat) -> Action, calm: nat) {
    && (forall s, n {:trigger plan(s, n)} | !Drained(s) :: Enabled(cfg, s, plan(s, n)) && !plan(s, n).Arrive?)
    && (forall s, n {:trigger plan(s, n)} | n >= calm :: !IsFault(s, plan(s, n)))
  }

  lemma OtherStepsKeepLength(cfg: Cfg, s: Sys, a: Action)
    requires Enabled(cfg, s, a) && !a.Arrive?
    ensures |Step(cfg, s, a).db.jobs| == |s.db.jobs|
  {
    if a.Io? {
      IoJobs(cfg, s, a.outcome, a.reply);
    }
  }

  lemma PlannedStep(cfg: Cfg, run: seq<Action>, s: Sys, plan: (Sys, nat) -> Action, n: nat, calm: nat)
    returns (t: Sys)
    requires Reaches(cfg, run, s) && Schedules(cfg, plan, calm) && !Drained(s)
    ensures Reaches(cfg, run + [plan(s, n)], t) && !plan(s, n).Arrive? && |t.db.jobs| == |s.db.jobs|
    ensures var r, r', k, k' := Runnable(s.db.jobs), Runnable(t.db.jobs), Tries(cfg, s), Tries(cfg, t);
      n < calm || r' < r || (r' == r && k' < k) || (r' == r && k' == k && Later(s.pc, t.pc))
  {
    var a := plan(s, n);
    t := Step(cfg, s, a);
    AlwaysSafe(cfg, run, s);
    ExecAppend(cfg, run, a);
    OtherStepsKeepLength(cfg, s, a);
    if n >= calm {
      WorkerDecreases(cfg, s, a);
    }
  }

  /** Under every schedule whose faults end at some step, the worker becomes idle with every row
      done or dead. */
  lemma {:induction false} QueueDrains(
    cfg: Cfg, run: seq<Action>, s: Sys, plan: (Sys, nat) -> Action, n: nat, calm: nat)
    returns (whole: seq<Action>, t: Sys)
    requires Reaches(cfg, run, s) && Schedules(cfg, plan, calm)
    ensures run <= whole && Reaches(cfg, whole, t)
    ensures |t.db.jobs| == |s.db.jobs| && t.pc.Ready?
    ensures forall i | 0 <= i < |t.db.jobs| ::
              t.db.jobs[i].state == Done || (t.db.jobs[i].state == Dead && t.db.jobs[i].attempts >= cfg.maxAttempts)
    decreases if n < calm then calm - n else 0, Runnable(s.db.jobs), Tries(cfg, s), Phase(s.pc), Comments(s.pc)
  {
    if Drained(s) {
      whole, t := run, s;
      forall i | 0 <= i < |s.db.jobs| ensures s.db.jobs[i].state == Dead ==> s.db.jobs[i].attempts >= cfg.maxAttempts {
        DeadAfterTries(cfg, run, s, i);
      }
    } else {
      var s' := PlannedStep(cfg, run, s, plan, n, calm);
      whole, t := QueueDrains(cfg, run + [plan(s, n)], s', plan, n + 1, calm);
    }
  }
}
