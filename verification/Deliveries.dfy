/** What one delivery can do over its whole life: reset once, spend one cycle, and run a bounded
    number of attempts. */
module Deliveries {
  import opened Basics
  import opened Tables
  import opened Machine
  import opened History
  import opened Safety
  import opened ReviewBudget

  /** The worker holds row `i`. */
  predicate On(s: Sys, i: nat) {
    s.pc.Owns() && s.pc.job.id == i
  }

  function Attempts(cfg: Cfg): nat {
    Max(1, cfg.maxAttempts)
  }

  function Orphans(s: Sys, d: Delivery): nat {
    Count(s.log, Orphaned(d.Key(), d.id))
  }

  /** A row that has spent its cycle but is not finished: its head is the stored one, and the
      worker is not, and cannot get, past the checks that stop a second review. */
  predicate SpentOk(s: Sys, i: nat, row: Row) {
    && row.attempts >= 1
    && Budget(s.db, row.delivery.Key()).lastReviewed == row.delivery.head
    && (On(s, i) ==> s.pc.Reading? || s.pc.Noticing? || s.pc.SavingNotice? || s.pc.Finishing?)
  }

  ghost predicate OnceOk(s: Sys, i: nat)
    requires i < |s.db.jobs|
  {
    var row := s.db.jobs[i];
    var d := row.delivery;
    && (row.attempts == 0 ==> SpentBy(s.log, d.id) == 0 && Count(s.log, ResetDone(d.Key(), d.id)) == 0)
    && SpentBy(s.log, d.id) <= 1
    && (SpentBy(s.log, d.id) == 1 && !row.state.Terminal() ==> SpentOk(s, i, row))
    && Count(s.log, ResetDone(d.Key(), d.id)) <= 1
    && (Count(s.log, ResetDone(d.Key(), d.id)) == 1 ==> d.event == Reopened)
    && (On(s, i) && s.pc.Resetting? ==> Count(s.log, ResetDone(d.Key(), d.id)) == 0 && SpentBy(s.log, d.id) == 0)
  }

  lemma RowKept(cfg: Cfg, s: Sys, a: Action, i: nat)
    requires QueueOk(s) && Enabled(cfg, s, a) && i < |s.db.jobs|
    ensures i < |Step(cfg, s, a).db.jobs|
    ensures Step(cfg, s, a).db.jobs[i].delivery == s.db.jobs[i].delivery
  {
    if a.Io? {
      IoJobs(cfg, s, a.outcome, a.reply);
    }
  }

  predicate Names(x: Entry) {
    x.ResetDone? || x.PassDone? || x.PassUnacked? || x.Orphaned? || x.FailureNote?
    || x.NoteLost? || x.DeathUnsaved?
  }

  /** Entries that name this row's delivery are this row's own. */
  lemma OwnEntry(cfg: Cfg, s: Sys, a: Action, i: nat, x: Entry)
    requires QueueOk(s) && Enabled(cfg, s, a) && i < |s.db.jobs|
    requires x in Added(cfg, s, a) && Names(x) && x.delivery == s.db.jobs[i].delivery.id
    ensures if a.Claim? then Head(s.db.jobs) == Some(i) else !s.pc.Ready? && s.pc.job.id == i
  {
    var j := if a.Claim? then Head(s.db.jobs).value else s.pc.job.id;
    assert s.db.jobs[j].delivery.id == x.delivery;
  }

  lemma NamedEntries(cfg: Cfg, s: Sys, a: Action, i: nat)
    requires QueueOk(s) && Enabled(cfg, s, a) && i < |s.db.jobs| && !s.pc.Ready? && s.pc.job.id == i
    ensures var xs := Added(cfg, s, a); var d := s.db.jobs[i].delivery;
      && (PassUnacked(d.Key(), d.id) in xs <==> a.Io? && a.outcome.Unacked? && s.pc.SavingCycle?)
      && (ResetDone(d.Key(), d.id) in xs <==> a.Io? && a.outcome.Applied() && s.pc.Resetting?)
      && (Orphaned(d.Key(), d.id) in xs <==>
            (a.Crash? && s.pc.Owns()) || (a.Io? && a.outcome.Refused? && s.pc.Finishing?))
  {
  }

  /** Only this row's own saved pass spends its cycle. */
  lemma SpentStep(cfg: Cfg, s: Sys, a: Action, i: nat)
    requires QueueOk(s) && Enabled(cfg, s, a) && i < |s.db.jobs|
    ensures var id := s.db.jobs[i].delivery.id;
      SpentBy(Step(cfg, s, a).log, id) == SpentBy(s.log, id)
        + One(a.Io? && a.outcome.Applied() && s.pc.SavingCycle? && s.pc.job.id == i)
  {
    var id, xs := s.db.jobs[i].delivery.id, Added(cfg, s, a);
    PassShape(cfg, s, a);
    StepShape(cfg, s, a, "");
    SpentAdded(s.log, xs, id);
    if |xs| >= 1 && IsSpend(xs[0], id) {
      OwnEntry(cfg, s, a, i, xs[0]);
    }
  }

  /** Only this row's own steps reset, orphan or lose an acknowledgement in its name. */
  lemma NamedStep(cfg: Cfg, s: Sys, a: Action, i: nat)
    requires QueueOk(s) && Enabled(cfg, s, a) && i < |s.db.jobs|
    ensures var d, log, log' := s.db.jobs[i].delivery, s.log, Step(cfg, s, a).log;
      && Count(log', ResetDone(d.Key(), d.id)) == Count(log, ResetDone(d.Key(), d.id))
           + One(a.Io? && a.outcome.Applied() && s.pc.Resetting? && s.pc.job.id == i)
      && Count(log', PassUnacked(d.Key(), d.id)) == Count(log, PassUnacked(d.Key(), d.id))
           + One(a.Io? && a.outcome.Unacked? && s.pc.SavingCycle? && s.pc.job.id == i)
      && Count(log', Orphaned(d.Key(), d.id)) == Count(log, Orphaned(d.Key(), d.id))
           + One((a == Claim(false) && Head(s.db.jobs) == Some(i)) || (a.Crash? && On(s, i))
                 || (a.Io? && a.outcome.Refused? && s.pc.Finishing? && s.pc.job.id == i))
  {
    var d, xs := s.db.jobs[i].delivery, Added(cfg, s, a);
    var es := [ResetDone(d.Key(), d.id), PassUnacked(d.Key(), d.id), Orphaned(d.Key(), d.id)];
    forall k | 0 <= k < 3 ensures Count(Step(cfg, s, a).log, es[k]) == Count(s.log, es[k]) + One(es[k] in xs) {
      CountStep(cfg, s, a, es[k]);
    }
    assert es[0] == ResetDone(d.Key(), d.id) && es[1] == PassUnacked(d.Key(), d.id) && es[2] == Orphaned(d.Key(), d.id);
    if a.Claim? {
      ClaimEntries(cfg, s, a, i);
    } else if !s.pc.Ready? && s.pc.job.id == i {
      NamedEntries(cfg, s, a, i);
    } else {
      forall k | 0 <= k < 3 ensures es[k] !in xs {
        if es[k] in xs {
          OwnEntry(cfg, s, a, i, es[k]);
        }
      }
    }
  }

  lemma ClaimEntries(cfg: Cfg, s: Sys, a: Action, i: nat)
    requires QueueOk(s) && Enabled(cfg, s, a) && a.Claim? && i < |s.db.jobs|
    ensures var xs := Added(cfg, s, a); var d := s.db.jobs[i].delivery;
      && PassUnacked(d.Key(), d.id) !in xs && ResetDone(d.Key(), d.id) !in xs
      && (Orphaned(d.Key(), d.id) in xs <==> a == Claim(false) && Head(s.db.jobs) == Some(i))
  {
    if s.db.jobs[Head(s.db.jobs).value].delivery.id == s.db.jobs[i].delivery.id {
      assert Head(s.db.jobs) == Some(i);
    }
  }

  lemma OnceClaim(cfg: Cfg, s: Sys, acked: bool, i: nat)
    requires Safe(cfg, s) && Enabled(cfg, s, Claim(acked)) && i < |s.db.jobs| && OnceOk(s, i)
    ensures OnceOk(Step(cfg, s, Claim(acked)), i)
  {
    RowKept(cfg, s, Claim(acked), i);
    SpentStep(cfg, s, Claim(acked), i);
    NamedStep(cfg, s, Claim(acked), i);
  }

  /** Nobody else can run while a claimed row is unfinished. */
  lemma Alone(s: Sys, i: nat)
    requires QueueOk(s) && i < |s.db.jobs| && s.db.jobs[i].attempts > 0 && !s.db.jobs[i].state.Terminal()
    ensures s.pc.Owns() ==> s.pc.job.id == i
  {
  }

  lemma OnceOwnPass(cfg: Cfg, s: Sys, o: Outcome, r: Reply, i: nat)
    requires Safe(cfg, s) && Enabled(cfg, s, Io(o, r)) && i < |s.db.jobs| && OnceOk(s, i)
    requires s.pc.job.id == i && s.pc.SavingCycle?
    ensures i < |Step(cfg, s, Io(o, r)).db.jobs| && OnceOk(Step(cfg, s, Io(o, r)), i)
  {
    SpentStep(cfg, s, Io(o, r), i);
    NamedStep(cfg, s, Io(o, r), i);
    IoJobs(cfg, s, o, r);
    BudgetWrites(cfg, s, Io(o, r), s.db.jobs[i].delivery.Key());
  }

  lemma OnceOwnReset(cfg: Cfg, s: Sys, o: Outcome, r: Reply, i: nat)
    requires Safe(cfg, s) && Enabled(cfg, s, Io(o, r)) && i < |s.db.jobs| && OnceOk(s, i)
    requires s.pc.job.id == i && s.pc.Resetting?
    ensures i < |Step(cfg, s, Io(o, r)).db.jobs| && OnceOk(Step(cfg, s, Io(o, r)), i)
  {
    SpentStep(cfg, s, Io(o, r), i);
    NamedStep(cfg, s, Io(o, r), i);
    IoJobs(cfg, s, o, r);
  }

  /** Only the saved pass and a reset write the stored head. */
  lemma HeadKept(cfg: Cfg, s: Sys, o: Outcome, r: Reply)
    requires MemoryOk(cfg, s) && Enabled(cfg, s, Io(o, r)) && !s.pc.SavingCycle? && !s.pc.Resetting?
    ensures Budget(Step(cfg, s, Io(o, r)).db, s.pc.job.Key()).lastReviewed == Budget(s.db, s.pc.job.Key()).lastReviewed
  {
    BudgetWrites(cfg, s, Io(o, r), s.pc.job.Key());
  }

  /** Behind a reviewed head there is no way into another review. */
  lemma StaysBehind(cfg: Cfg, s: Sys, o: Outcome, r: Reply)
    requires Enabled(cfg, s, Io(o, r))
    ensures var pc := Step(cfg, s, Io(o, r)).pc;
      && !pc.Resetting?
      && ((s.pc.Reading? || s.pc.Noticing? || s.pc.SavingNotice? || s.pc.Finishing?)
          && Budget(s.db, s.pc.job.Key()).lastReviewed == s.pc.job.delivery.head && pc.Owns() ==>
            pc.Reading? || pc.Noticing? || pc.SavingNotice? || pc.Finishing?)
  {
  }

  lemma OnceKept(s: Sys, t: Sys, i: nat)
    requires i < |s.db.jobs| && OnceOk(s, i) && On(s, i) && s.db.jobs[i].attempts > 0 && !s.db.jobs[i].state.Terminal()
    requires i < |t.db.jobs| && t.db.jobs[i].delivery == s.db.jobs[i].delivery && !t.pc.Resetting?
    requires t.db.jobs[i].attempts == s.db.jobs[i].attempts
    requires var d := s.db.jobs[i].delivery;
      && SpentBy(t.log, d.id) == SpentBy(s.log, d.id)
      && Count(t.log, ResetDone(d.Key(), d.id)) == Count(s.log, ResetDone(d.Key(), d.id))
      && Budget(t.db, d.Key()).lastReviewed == Budget(s.db, d.Key()).lastReviewed
    requires SpentOk(s, i, s.db.jobs[i]) && On(t, i) ==>
               t.pc.Reading? || t.pc.Noticing? || t.pc.SavingNotice? || t.pc.Finishing?
    ensures OnceOk(t, i)
  {
  }

  lemma OnceOwnIo(cfg: Cfg, s: Sys, o: Outcome, r: Reply, i: nat)
    requires Safe(cfg, s) && Enabled(cfg, s, Io(o, r)) && i < |s.db.jobs| && OnceOk(s, i)
    requires On(s, i) && !s.pc.SavingCycle? && !s.pc.Resetting?
    ensures i < |Step(cfg, s, Io(o, r)).db.jobs| && OnceOk(Step(cfg, s, Io(o, r)), i)
  {
    SpentStep(cfg, s, Io(o, r), i);
    NamedStep(cfg, s, Io(o, r), i);
    IoJobs(cfg, s, o, r);
    HeadKept(cfg, s, o, r);
    StaysBehind(cfg, s, o, r);
    OnceKept(s, Step(cfg, s, Io(o, r)), i);
  }

  lemma OnceOtherIo(cfg: Cfg, s: Sys, o: Outcome, r: Reply, i: nat)
    requires Safe(cfg, s) && Enabled(cfg, s, Io(o, r)) && i < |s.db.jobs| && OnceOk(s, i)
    requires s.pc.job.id != i || s.pc.Reporting?
    ensures i < |Step(cfg, s, Io(o, r)).db.jobs| && OnceOk(Step(cfg, s, Io(o, r)), i)
  {
    SpentStep(cfg, s, Io(o, r), i);
    NamedStep(cfg, s, Io(o, r), i);
    IoJobs(cfg, s, o, r);
    if s.db.jobs[i].attempts > 0 && !s.db.jobs[i].state.Terminal() {
      Alone(s, i);
      ReportWrites(cfg, s, o, r);
    }
  }

  lemma ReportWrites(cfg: Cfg, s: Sys, o: Outcome, r: Reply)
    requires Enabled(cfg, s, Io(o, r)) && s.pc.Reporting?
    ensures Step(cfg, s, Io(o, r)).db == s.db && Step(cfg, s, Io(o, r)).pc.Ready?
  {
  }

  lemma OnceStep(cfg: Cfg, s: Sys, a: Action, i: nat)
    requires Safe(cfg, s) && Enabled(cfg, s, a) && i < |s.db.jobs| && OnceOk(s, i)
    ensures i < |Step(cfg, s, a).db.jobs| && OnceOk(Step(cfg, s, a), i)
  {
    match a
    case Claim(acked) => OnceClaim(cfg, s, acked, i);
    case Io(o, r) =>
      if s.pc.job.id == i && s.pc.SavingCycle? {
        OnceOwnPass(cfg, s, o, r, i);
      } else if s.pc.job.id == i && s.pc.Resetting? {
        OnceOwnReset(cfg, s, o, r, i);
      } else if On(s, i) {
        OnceOwnIo(cfg, s, o, r, i);
      } else {
        OnceOtherIo(cfg, s, o, r, i);
      }
    case _ =>
      RowKept(cfg, s, a, i);
      SpentStep(cfg, s, a, i);
      NamedStep(cfg, s, a, i);
  }

  // ----- the history only names deliveries of the queue -----

  predicate NamedBy(x: Entry, row: Row)
    requires Names(x)
  {
    && row.delivery.id == x.delivery && row.delivery.Key() == x.key && row.attempts > 0
    && (x.ResetDone? ==> row.delivery.event == Reopened)
  }

  ghost predicate HistoryOk(s: Sys) {
    forall x | x in s.log && Names(x) :: exists i | 0 <= i < |s.db.jobs| :: NamedBy(x, s.db.jobs[i])
  }

  lemma AddedNamed(cfg: Cfg, s: Sys, a: Action, x: Entry)
    requires Safe(cfg, s) && Enabled(cfg, s, a) && x in Added(cfg, s, a) && Names(x)
    ensures exists i | 0 <= i < |Step(cfg, s, a).db.jobs| :: NamedBy(x, Step(cfg, s, a).db.jobs[i])
  {
    var i := if a.Claim? then Head(s.db.jobs).value else s.pc.job.id;
    if a.Io? {
      IoJobs(cfg, s, a.outcome, a.reply);
    }
    assert NamedBy(x, Step(cfg, s, a).db.jobs[i]);
  }

  lemma HistoryStep(cfg: Cfg, s: Sys, a: Action)
    requires Safe(cfg, s) && Enabled(cfg, s, a) && HistoryOk(s)
    ensures HistoryOk(Step(cfg, s, a))
  {
    var t := Step(cfg, s, a);
    forall x | x in t.log && Names(x) ensures exists i | 0 <= i < |t.db.jobs| :: NamedBy(x, t.db.jobs[i]) {
      if x in Added(cfg, s, a) {
        AddedNamed(cfg, s, a, x);
      } else {
        var i :| 0 <= i < |s.db.jobs| && NamedBy(x, s.db.jobs[i]);
        RowKept(cfg, s, a, i);
        AttemptsGrow(cfg, s, a, i);
        assert NamedBy(x, t.db.jobs[i]);
      }
    }
  }

  lemma AttemptsGrow(cfg: Cfg, s: Sys, a: Action, i: nat)
    requires Enabled(cfg, s, a) && i < |s.db.jobs|
    ensures i < |Step(cfg, s, a).db.jobs| && Step(cfg, s, a).db.jobs[i].attempts >= s.db.jobs[i].attempts
  {
    if a.Io? {
      IoJobs(cfg, s, a.outcome, a.reply);
    }
  }

  lemma {:induction false} NoEntryNoCount(log: seq<Entry>, id: string, e: Entry)
    requires forall x | x in log && Names(x) :: x.delivery != id
    requires Names(e) && e.delivery == id
    ensures SpentBy(log, id) == 0 && Count(log, e) == 0
  {
    if log != [] {
      NoEntryNoCount(log[..|log| - 1], id, e);
      assert log[|log| - 1] in log;
    }
  }

  /** A row that has just arrived has no history. */
  lemma NewRow(s: Sys, i: nat, e: Entry)
    requires QueueOk(s) && HistoryOk(s) && i < |s.db.jobs| && s.db.jobs[i].attempts == 0
    requires Names(e) && e.delivery == s.db.jobs[i].delivery.id
    ensures SpentBy(s.log, e.delivery) == 0 && Count(s.log, e) == 0
  {
    forall x | x in s.log && Names(x) ensures x.delivery != e.delivery {
      var j :| 0 <= j < |s.db.jobs| && NamedBy(x, s.db.jobs[j]);
      assert j != i;
    }
    NoEntryNoCount(s.log, e.delivery, e);
  }

  // ----- attempts -----

  /** Attempts never exceed the configured number by more than the times the row was left
      running with nobody on it. */
  predicate AttemptsOk(cfg: Cfg, s: Sys, i: nat)
    requires i < |s.db.jobs|
  {
    var row := s.db.jobs[i];
    var bound := Attempts(cfg) + Orphans(s, row.delivery);
    && row.attempts <= bound
    && (row.state.Failed? ==> row.attempts < Attempts(cfg))
    && (row.state.Running? && !On(s, i) ==> row.attempts < bound)
  }

  lemma AttemptsIo(cfg: Cfg, s: Sys, o: Outcome, r: Reply, i: nat)
    requires QueueOk(s) && Enabled(cfg, s, Io(o, r)) && i < |s.db.jobs| && AttemptsOk(cfg, s, i)
    ensures i < |Step(cfg, s, Io(o, r)).db.jobs| && AttemptsOk(cfg, Step(cfg, s, Io(o, r)), i)
  {
    NamedStep(cfg, s, Io(o, r), i);
    IoJobs(cfg, s, o, r);
    OwnsUntilFinish(cfg, s, o, r);
  }

  lemma OwnsUntilFinish(cfg: Cfg, s: Sys, o: Outcome, r: Reply)
    requires Enabled(cfg, s, Io(o, r))
    ensures Step(cfg, s, Io(o, r)).pc.Owns() <==> s.pc.Owns() && !s.pc.Finishing?
  {
  }

  lemma AttemptsStep(cfg: Cfg, s: Sys, a: Action, i: nat)
    requires QueueOk(s) && Enabled(cfg, s, a) && i < |s.db.jobs| && AttemptsOk(cfg, s, i)
    ensures i < |Step(cfg, s, a).db.jobs| && AttemptsOk(cfg, Step(cfg, s, a), i)
  {
    if a.Io? {
      AttemptsIo(cfg, s, a.outcome, a.reply, i);
    } else {
      NamedStep(cfg, s, a, i);
    }
  }

  /** Without a fault, a spent cycle means the job is done or about to be. */
  predicate CleanOk(s: Sys, i: nat)
    requires i < |s.db.jobs|
  {
    var d := s.db.jobs[i].delivery;
    SpentBy(s.log, d.id) >= 1 && Orphans(s, d) == 0 && Count(s.log, PassUnacked(d.Key(), d.id)) == 0 ==>
      s.db.jobs[i].state.Done? || (On(s, i) && s.pc.Finishing? && s.pc.ok)
  }

  lemma CleanStep(cfg: Cfg, s: Sys, a: Action, i: nat)
    requires Safe(cfg, s) && Enabled(cfg, s, a) && i < |s.db.jobs| && CleanOk(s, i)
    ensures i < |Step(cfg, s, a).db.jobs| && CleanOk(Step(cfg, s, a), i)
  {
    NamedStep(cfg, s, a, i);
    SpentStep(cfg, s, a, i);
    RowKept(cfg, s, a, i);
    if a.Io? {
      IoJobs(cfg, s, a.outcome, a.reply);
    }
  }

  // ----- over every run -----

  lemma {:induction false} HistoryAlwaysOk(cfg: Cfg, run: seq<Action>, s: Sys)
    requires Reaches(cfg, run, s)
    ensures HistoryOk(s)
  {
    if run != [] {
      var p := Exec(cfg, run[..|run| - 1]).value;
      HistoryAlwaysOk(cfg, run[..|run| - 1], p);
      AlwaysSafe(cfg, run[..|run| - 1], p);
      HistoryStep(cfg, p, run[|run| - 1]);
    }
  }

  lemma NewRowOk(cfg: Cfg, s: Sys, i: nat)
    requires QueueOk(s) && HistoryOk(s) && i < |s.db.jobs| && s.db.jobs[i].attempts == 0
    ensures OnceOk(s, i) && AttemptsOk(cfg, s, i) && CleanOk(s, i)
  {
    var d := s.db.jobs[i].delivery;
    NewRow(s, i, ResetDone(d.Key(), d.id));
    NewRow(s, i, Orphaned(d.Key(), d.id));
  }

  lemma {:induction false} DeliveriesOk(cfg: Cfg, run: seq<Action>, s: Sys, i: nat)
    requires Reaches(cfg, run, s) && i < |s.db.jobs|
    ensures OnceOk(s, i) && AttemptsOk(cfg, s, i) && CleanOk(s, i)
  {
    AlwaysSafe(cfg, run, s);
    HistoryAlwaysOk(cfg, run, s);
    if s.db.jobs[i].attempts == 0 {
      NewRowOk(cfg, s, i);
    } else {
      var a := run[|run| - 1];
      var p := Exec(cfg, run[..|run| - 1]).value;
      AlwaysSafe(cfg, run[..|run| - 1], p);
      if a.Io? {
        IoJobs(cfg, p, a.outcome, a.reply);
      }
      assert i < |p.db.jobs|;
      DeliveriesOk(cfg, run[..|run| - 1], p, i);
      OnceStep(cfg, p, a, i);
      AttemptsStep(cfg, p, a, i);
      CleanStep(cfg, p, a, i);
    }
  }

  /** Whatever crashes, fails, is retried or loses its acknowledgement: over its whole life a
      delivery spends at most one review cycle and resets at most once, and only a reopened one
      resets. */
  lemma OneCyclePerDelivery(cfg: Cfg, run: seq<Action>, s: Sys, i: nat)
    requires Reaches(cfg, run, s) && i < |s.db.jobs|
    ensures var d := s.db.jobs[i].delivery;
      && SpentBy(s.log, d.id) <= 1
      && Count(s.log, ResetDone(d.Key(), d.id)) <= if d.event == Reopened then 1 else 0
  {
    DeliveriesOk(cfg, run, s, i);
  }

  /** Attempts are bounded, and a dead job that spent its cycle met a fault: it was orphaned, or
      its saved pass was reported as an error. */
  lemma BoundedAttempts(cfg: Cfg, run: seq<Action>, s: Sys, i: nat)
    requires Reaches(cfg, run, s) && i < |s.db.jobs|
    ensures var d := s.db.jobs[i].delivery;
      && s.db.jobs[i].attempts <= Max(1, cfg.maxAttempts) + Count(s.log, Orphaned(d.Key(), d.id))
      && (s.db.jobs[i].state.Dead? && SpentBy(s.log, d.id) >= 1 ==>
            Count(s.log, Orphaned(d.Key(), d.id)) + Count(s.log, PassUnacked(d.Key(), d.id)) >= 1)
  {
    DeliveriesOk(cfg, run, s, i);
    AlwaysSafe(cfg, run, s);
  }

  // ----- the total number of passes -----

  /** The reopened deliveries of a pull request that are in the queue. */
  function ReopenedIds(jobs: seq<Row>, key: string): set<string> {
    set i | 0 <= i < |jobs| && jobs[i].delivery.event == Reopened && jobs[i].delivery.Key() == key
      :: jobs[i].delivery.id
  }

  lemma {:induction false} ResetsCounted(log: seq<Entry>, key: string, id: string)
    ensures id in Resets(log, key) <==> Count(log, ResetDone(key, id)) > 0
    ensures id in Resets(log, key) ==> ResetDone(key, id) in log
  {
    if log != [] {
      ResetsCounted(log[..|log| - 1], key, id);
    }
  }

  ghost predicate TotalOk(cfg: Cfg, s: Sys, key: string) {
    && (forall i, j | 0 <= i < j < |Resets(s.log, key)| :: Resets(s.log, key)[i] != Resets(s.log, key)[j])
    && TotalPasses(s.log, key) <= Max(0, cfg.maxCycles) * |Resets(s.log, key)| + |Passes(s.log, key)|
  }

  lemma NewEpoch(m: nat, n: nat, passes: nat, total: nat)
    requires total <= m * n + passes && passes <= m
    ensures total <= m * (n + 1)
  {
  }

  lemma TotalStep(cfg: Cfg, s: Sys, a: Action, key: string)
    requires Enabled(cfg, s, a) && TotalOk(cfg, s, key) && |Passes(s.log, key)| <= Max(0, cfg.maxCycles)
    requires s.pc.Resetting? ==> Count(s.log, ResetDone(s.pc.job.Key(), s.pc.job.delivery.id)) == 0
    ensures TotalOk(cfg, Step(cfg, s, a), key)
  {
    var t := Step(cfg, s, a);
    PassesStep(cfg, s, a, key);
    if ResetsKey(s, a, key) {
      ResetsCounted(s.log, key, s.pc.job.delivery.id);
      NewEpoch(Max(0, cfg.maxCycles), |Resets(s.log, key)|, |Passes(s.log, key)|, TotalPasses(s.log, key));
      assert |Resets(t.log, key)| == |Resets(s.log, key)| + 1;
    } else {
      assert Resets(t.log, key) == Resets(s.log, key);
    }
  }

  lemma {:induction false} TotalAlwaysOk(cfg: Cfg, run: seq<Action>, s: Sys, key: string)
    requires Reaches(cfg, run, s)
    ensures TotalOk(cfg, s, key)
  {
    if run != [] {
      var front := run[..|run| - 1];
      var p := Exec(cfg, front).value;
      TotalAlwaysOk(cfg, front, p, key);
      AlwaysSafe(cfg, front, p);
      BudgetAgrees(cfg, front, p, key);
      if p.pc.Resetting? {
        DeliveriesOk(cfg, front, p, p.pc.job.id);
      }
      TotalStep(cfg, p, run[|run| - 1], key);
    }
  }

  lemma {:induction false} SmallerSet(xs: seq<string>, ys: set<string>)
    requires forall i, j | 0 <= i < j < |xs| :: xs[i] != xs[j]
    requires forall x | x in xs :: x in ys
    ensures |xs| <= |ys|
  {
    if xs != [] {
      var last := xs[|xs| - 1];
      SmallerSet(xs[..|xs| - 1], ys - {last});
    }
  }

  /** Every reset is one reopened delivery's, and a pull request is reviewed at most MaxCycles
      times per epoch, so its completed passes are bounded by the deliveries that reopened it. */
  lemma PassesBounded(cfg: Cfg, run: seq<Action>, s: Sys, key: string)
    requires Reaches(cfg, run, s)
    ensures forall i, j | 0 <= i < j < |Resets(s.log, key)| :: Resets(s.log, key)[i] != Resets(s.log, key)[j]
    ensures forall id | id in Resets(s.log, key) :: id in ReopenedIds(s.db.jobs, key)
    ensures |Resets(s.log, key)| <= |ReopenedIds(s.db.jobs, key)|
    ensures TotalPasses(s.log, key) <= Max(0, cfg.maxCycles) * (1 + |ReopenedIds(s.db.jobs, key)|)
  {
    TotalAlwaysOk(cfg, run, s, key);
    BudgetAgrees(cfg, run, s, key);
    HistoryAlwaysOk(cfg, run, s);
    var ids, rs := ReopenedIds(s.db.jobs, key), Resets(s.log, key);
    forall x | x in rs ensures x in ids {
      ResetsCounted(s.log, key, x);
      var e := ResetDone(key, x);
      assert e in s.log && Names(e);
      var i :| 0 <= i < |s.db.jobs| && NamedBy(e, s.db.jobs[i]);
    }
    SmallerSet(rs, ids);
    MoreEpochs(Max(0, cfg.maxCycles), |rs|, |ids|);
  }

  lemma MoreEpochs(m: nat, n: nat, k: nat)
    requires n <= k
    ensures m * n + m <= m * (1 + k)
  {
    assert m * n <= m * k;
  }
}
