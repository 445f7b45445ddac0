/** What every reachable state satisfies about the queue and about the worker's memory. */
module Safety {
  import opened Basics
  import opened Tables
  import opened Selection
  import opened Machine

  // ----- the queue -----

  /** Delivery ids are unique; a row that was ever claimed has only finished rows before it; the
      worker's job is a running row that agrees with its memory. */
  ghost predicate QueueOk(s: Sys) {
    var jobs := s.db.jobs;
    && (forall i, j | 0 <= i < j < |jobs| :: jobs[i].delivery.id != jobs[j].delivery.id)
    && (forall i, j | 0 <= i < j < |jobs| && jobs[j].attempts > 0 :: jobs[i].state.Terminal())
    && (forall i | 0 <= i < |jobs| :: jobs[i].state.Queued? <==> jobs[i].attempts == 0)
    && (forall i | 0 <= i < |jobs| :: jobs[i].delivery.head != "")
    && (!s.pc.Ready? ==>
          var job := s.pc.job;
          job.id < |jobs| && jobs[job.id].delivery == job.delivery && job.attempts >= 1
          && jobs[job.id].attempts == job.attempts)
    && (s.pc.Owns() ==> jobs[s.pc.job.id].state.Running?)
  }

  lemma QueueArrive(cfg: Cfg, s: Sys, d: Delivery)
    requires QueueOk(s) && d.head != ""
    ensures QueueOk(Step(cfg, s, Arrive(d)))
  {
  }

  lemma QueueClaim(cfg: Cfg, s: Sys, acked: bool)
    requires QueueOk(s) && Enabled(cfg, s, Claim(acked))
    ensures QueueOk(Step(cfg, s, Claim(acked)))
  {
  }

  /** I/O changes at most the state of the worker's own row. */
  lemma IoJobs(cfg: Cfg, s: Sys, o: Outcome, r: Reply)
    requires Enabled(cfg, s, Io(o, r))
    ensures Step(cfg, s, Io(o, r)).db.jobs ==
            if s.pc.Finishing? && o.Applied()
            then SetState(s.db.jobs, s.pc.job.id, Verdict(cfg, s.pc.job, s.pc.ok)) else s.db.jobs
    ensures var t := Step(cfg, s, Io(o, r));
      (t.pc.Ready? || t.pc.job == s.pc.job) && (t.pc.Owns() ==> s.pc.Owns() && !s.pc.Finishing?)
  {
  }

  lemma QueueIo(cfg: Cfg, s: Sys, o: Outcome, r: Reply)
    requires QueueOk(s) && Enabled(cfg, s, Io(o, r))
    ensures QueueOk(Step(cfg, s, Io(o, r)))
  {
    IoJobs(cfg, s, o, r);
  }

  // ----- the worker's memory -----

  ghost predicate TodoOk(db: Db, key: string, todo: seq<string>) {
    Distinct(todo) && forall fp | fp in todo :: fp !in Posted(db, key)
  }

  /** A review in progress read a budget with a cycle left, for a head it has not seen. */
  predicate ReviewOk(cfg: Cfg, job: Job, st: PRState) {
    st.cycle < cfg.maxCycles && st.lastReviewed != job.delivery.head
  }

  /** The budget in memory is the stored one up to the fields that the step is about to write. */
  ghost predicate MemoryOk(cfg: Cfg, s: Sys) {
    match s.pc
    case Ready => true
    case Resetting(job) => job.delivery.event == Reopened && job.attempts == 1
    case Reading(_) => true
    case Noticing(job, st) => st == Budget(s.db, job.Key()) && st.cycle >= cfg.maxCycles && !st.noticePosted
    case SavingNotice(job, st) =>
      var b := Budget(s.db, job.Key());
      st == b.(noticePosted := true) && b.cycle >= cfg.maxCycles && !b.noticePosted
    case Fetching(job, st) => st == Budget(s.db, job.Key()) && ReviewOk(cfg, job, st)
    case Reviewing(job, st, scope) =>
      st == Budget(s.db, job.Key()) && ReviewOk(cfg, job, st) && ScopeFits(st, scope)
    case Selecting(job, st, scope, _) =>
      st == Budget(s.db, job.Key()) && ReviewOk(cfg, job, st) && ScopeFits(st, scope)
    case Posting(job, st, scope, todo) =>
      && st == Budget(s.db, job.Key()) && ReviewOk(cfg, job, st) && ScopeFits(st, scope)
      && todo != [] && TodoOk(s.db, job.Key(), todo)
    case Recording(job, st, scope, fp, todo) =>
      && st == Budget(s.db, job.Key()) && ReviewOk(cfg, job, st) && ScopeFits(st, scope)
      && TodoOk(s.db, job.Key(), todo) && fp !in todo && fp !in Posted(s.db, job.Key())
    case Summarizing(job, st, scope) =>
      st == Budget(s.db, job.Key()) && ReviewOk(cfg, job, st) && ScopeFits(st, scope)
    case SavingSummary(job, st, scope) =>
      var b := Budget(s.db, job.Key());
      && st == b.(summaryId := st.summaryId, summaryCycle := b.cycle + 1) && st.summaryId != ""
      && ReviewOk(cfg, job, st) && ScopeFits(st, scope)
    case SavingCycle(job, st, scope) =>
      && st == Budget(s.db, job.Key()) && st.summaryCycle == st.cycle + 1 && st.summaryId != ""
      && ReviewOk(cfg, job, st) && ScopeFits(st, scope)
    case Finishing(_, _) => true
    case Reporting(_) => true
  }

  lemma TodoTail(db: Db, key: string, todo: seq<string>)
    requires TodoOk(db, key, todo) && todo != []
    ensures TodoOk(db, key, todo[1..]) && todo[0] !in todo[1..] && todo[0] !in Posted(db, key)
  {
    assert todo[0] in todo;
    forall x | x in todo[1..] ensures x in todo && x != todo[0] {
      var k :| 1 <= k < |todo| && todo[k] == x;
    }
  }

  lemma MemorySelects(cfg: Cfg, s: Sys, o: Outcome, r: Reply)
    requires MemoryOk(cfg, s) && Enabled(cfg, s, Io(o, r)) && s.pc.Selecting?
    ensures MemoryOk(cfg, Step(cfg, s, Io(o, r)))
  {
    RankedFacts(cfg.digest, cfg.minSeverity, s.pc.findings, Posted(s.db, s.pc.job.Key()));
  }

  lemma MemoryPosts(cfg: Cfg, s: Sys, o: Outcome, r: Reply)
    requires MemoryOk(cfg, s) && Enabled(cfg, s, Io(o, r)) && s.pc.Posting?
    ensures MemoryOk(cfg, Step(cfg, s, Io(o, r)))
  {
    TodoTail(s.db, s.pc.job.Key(), s.pc.todo);
  }

  lemma MemoryRecords(cfg: Cfg, s: Sys, o: Outcome, r: Reply)
    requires MemoryOk(cfg, s) && Enabled(cfg, s, Io(o, r)) && s.pc.Recording?
    ensures MemoryOk(cfg, Step(cfg, s, Io(o, r)))
  {
  }

  lemma MemorySaves(cfg: Cfg, s: Sys, o: Outcome, r: Reply)
    requires MemoryOk(cfg, s) && Enabled(cfg, s, Io(o, r))
    requires s.pc.SavingNotice? || s.pc.Summarizing? || s.pc.SavingSummary? || s.pc.SavingCycle?
    ensures MemoryOk(cfg, Step(cfg, s, Io(o, r)))
  {
  }

  lemma MemoryOther(cfg: Cfg, s: Sys, o: Outcome, r: Reply)
    requires MemoryOk(cfg, s) && Enabled(cfg, s, Io(o, r))
    requires !(s.pc.Selecting? || s.pc.Posting? || s.pc.Recording?)
    requires !(s.pc.SavingNotice? || s.pc.Summarizing? || s.pc.SavingSummary? || s.pc.SavingCycle?)
    ensures MemoryOk(cfg, Step(cfg, s, Io(o, r)))
  {
  }

  lemma MemoryStep(cfg: Cfg, s: Sys, a: Action)
    requires MemoryOk(cfg, s) && Enabled(cfg, s, a)
    ensures MemoryOk(cfg, Step(cfg, s, a))
  {
    match a
    case Io(o, r) =>
      if s.pc.Selecting? {
        MemorySelects(cfg, s, o, r);
      } else if s.pc.Posting? {
        MemoryPosts(cfg, s, o, r);
      } else if s.pc.Recording? {
        MemoryRecords(cfg, s, o, r);
      } else if s.pc.SavingNotice? || s.pc.Summarizing? || s.pc.SavingSummary? || s.pc.SavingCycle? {
        MemorySaves(cfg, s, o, r);
      } else {
        MemoryOther(cfg, s, o, r);
      }
    case Arrive(d) => MemoryArrive(cfg, s, Enqueue(s.db.jobs, d));
    case _ =>
  }

  lemma MemoryArrive(cfg: Cfg, s: Sys, jobs: seq<Row>)
    requires MemoryOk(cfg, s)
    ensures MemoryOk(cfg, s.(db := s.db.(jobs := jobs)))
  {
  }

  /** Which budget row a step writes. */
  lemma BudgetWrites(cfg: Cfg, s: Sys, a: Action, key: string)
    requires Enabled(cfg, s, a)
    ensures var b, b' := Budget(s.db, key), Budget(Step(cfg, s, a).db, key);
      if ResetsKey(s, a, key) then b' == NEW_PR
      else if a.Io? && a.outcome.Applied() && !s.pc.Ready? && s.pc.job.Key() == key then
        b' == match s.pc
              case SavingNotice(_, st) => st
              case SavingSummary(_, st, _) => st
              case SavingCycle(job, st, _) => st.(cycle := st.cycle + 1, lastReviewed := job.delivery.head)
              case _ => b
      else b' == b
  {
  }

  /** Which fingerprint set a step writes. */
  lemma PostedWrites(cfg: Cfg, s: Sys, a: Action, key: string)
    requires Enabled(cfg, s, a)
    ensures var x, x' := Posted(s.db, key), Posted(Step(cfg, s, a).db, key);
      if ResetsKey(s, a, key) then x' == {}
      else if a.Io? && a.outcome.Applied() && s.pc.Recording? && s.pc.job.Key() == key then x' == x + {s.pc.fp}
      else x' == x
  {
  }

  // ----- every reachable state -----

  ghost predicate Safe(cfg: Cfg, s: Sys) {
    QueueOk(s) && MemoryOk(cfg, s)
  }

  lemma SafeStep(cfg: Cfg, s: Sys, a: Action)
    requires Safe(cfg, s) && Enabled(cfg, s, a)
    ensures Safe(cfg, Step(cfg, s, a))
  {
    MemoryStep(cfg, s, a);
    match a
    case Arrive(d) => QueueArrive(cfg, s, d);
    case Claim(acked) => QueueClaim(cfg, s, acked);
    case Io(o, r) => QueueIo(cfg, s, o, r);
    case Crash =>
  }

  lemma {:induction false} AlwaysSafe(cfg: Cfg, run: seq<Action>, s: Sys)
    requires Reaches(cfg, run, s)
    ensures Safe(cfg, s)
  {
    if run != [] {
      var p := Exec(cfg, run[..|run| - 1]).value;
      AlwaysSafe(cfg, run[..|run| - 1], p);
      SafeStep(cfg, p, run[|run| - 1]);
    }
  }

  // ----- head-of-line order -----

  /** The rows claimed by a run, in order of the claims. */
  function Claims(cfg: Cfg, run: seq<Action>): seq<nat> {
    if run == [] then []
    else
      var front := run[..|run| - 1];
      match Exec(cfg, front)
      case None => []
      case Some(s) =>
        Claims(cfg, front)
        + if run[|run| - 1].Claim? && Head(s.db.jobs).Some? then [Head(s.db.jobs).value] else []
  }

  predicate Rising(cs: seq<nat>) {
    forall i, j | 0 <= i <= j < |cs| :: cs[i] <= cs[j]
  }

  predicate OnlyClaimed(cs: seq<nat>, jobs: seq<Row>) {
    forall i | 0 <= i < |cs| :: cs[i] < |jobs| && jobs[cs[i]].attempts > 0
  }

  predicate AllClaimed(cs: seq<nat>, jobs: seq<Row>) {
    forall r | 0 <= r < |jobs| && jobs[r].attempts > 0 :: r in cs
  }

  /** Claims never go back, and the claimed rows are exactly those with an attempt. */
  predicate ClaimsOk(cs: seq<nat>, jobs: seq<Row>) {
    Rising(cs) && OnlyClaimed(cs, jobs) && AllClaimed(cs, jobs)
  }

  predicate SameAttempts(jobs: seq<Row>, jobs': seq<Row>) {
    && |jobs| <= |jobs'|
    && (forall i | 0 <= i < |jobs| :: jobs'[i].attempts == jobs[i].attempts)
    && (forall i | |jobs| <= i < |jobs'| :: jobs'[i].attempts == 0)
  }

  lemma ClaimsKept(cs: seq<nat>, jobs: seq<Row>, jobs': seq<Row>)
    requires ClaimsOk(cs, jobs) && SameAttempts(jobs, jobs')
    ensures ClaimsOk(cs, jobs')
  {
  }

  lemma RisingGrows(cs: seq<nat>, jobs: seq<Row>, h: nat)
    requires Rising(cs) && OnlyClaimed(cs, jobs) && h < |jobs| && !jobs[h].state.Terminal()
    requires forall i, j | 0 <= i < j < |jobs| && jobs[j].attempts > 0 :: jobs[i].state.Terminal()
    ensures Rising(cs + [h])
  {
    forall i | 0 <= i < |cs| ensures cs[i] <= h {
      assert jobs[cs[i]].attempts > 0;
    }
  }

  lemma OnlyClaimedGrows(cs: seq<nat>, jobs: seq<Row>, h: nat)
    requires OnlyClaimed(cs, jobs) && h < |jobs|
    ensures OnlyClaimed(cs + [h], ClaimRow(jobs, h))
  {
    forall i | 0 <= i < |cs| ensures cs[i] < |jobs| && ClaimRow(jobs, h)[cs[i]].attempts > 0 {
      assert jobs[cs[i]].attempts > 0;
    }
  }

  lemma AllClaimedGrows(cs: seq<nat>, jobs: seq<Row>, h: nat)
    requires AllClaimed(cs, jobs) && h < |jobs|
    ensures AllClaimed(cs + [h], ClaimRow(jobs, h))
  {
    forall r | 0 <= r < |jobs| && ClaimRow(jobs, h)[r].attempts > 0 ensures r in cs + [h] {
      if r == h {
        assert (cs + [h])[|cs|] == h;
      } else {
        assert jobs[r].attempts > 0;
      }
    }
  }

  lemma ClaimsGrow(cs: seq<nat>, jobs: seq<Row>, h: nat)
    requires ClaimsOk(cs, jobs) && Head(jobs) == Some(h)
    requires forall i, j | 0 <= i < j < |jobs| && jobs[j].attempts > 0 :: jobs[i].state.Terminal()
    ensures ClaimsOk(cs + [h], ClaimRow(jobs, h))
  {
    RisingGrows(cs, jobs, h);
    OnlyClaimedGrows(cs, jobs, h);
    AllClaimedGrows(cs, jobs, h);
  }

  lemma OtherStepsKeepAttempts(cfg: Cfg, s: Sys, a: Action)
    requires Enabled(cfg, s, a) && !a.Claim?
    ensures SameAttempts(s.db.jobs, Step(cfg, s, a).db.jobs)
  {
    if a.Io? {
      IoJobs(cfg, s, a.outcome, a.reply);
    }
  }

  lemma {:induction false} ClaimsAlwaysOk(cfg: Cfg, run: seq<Action>, s: Sys)
    requires Reaches(cfg, run, s)
    ensures ClaimsOk(Claims(cfg, run), s.db.jobs)
  {
    if run != [] {
      var front, a := run[..|run| - 1], run[|run| - 1];
      var p := Exec(cfg, front).value;
      AlwaysSafe(cfg, front, p);
      ClaimsAlwaysOk(cfg, front, p);
      ClaimsStep(cfg, p, a, Claims(cfg, front));
    }
  }

  lemma ClaimsStep(cfg: Cfg, s: Sys, a: Action, cs: seq<nat>)
    requires QueueOk(s) && Enabled(cfg, s, a) && ClaimsOk(cs, s.db.jobs)
    ensures ClaimsOk(cs + if a.Claim? then [Head(s.db.jobs).value] else [], Step(cfg, s, a).db.jobs)
  {
    if a.Claim? {
      ClaimsGrow(cs, s.db.jobs, Head(s.db.jobs).value);
    } else {
      OtherStepsKeepAttempts(cfg, s, a);
      ClaimsKept(cs, s.db.jobs, Step(cfg, s, a).db.jobs);
      assert cs + [] == cs;
    }
  }

  /** Head-of-line order over a whole run: at most one row is running; every row before one that
      was ever claimed is done or dead; claimed ids never decrease, so first claims follow
      arrival order; and the claimed rows are exactly those with an attempt. */
  lemma HeadOfLine(cfg: Cfg, run: seq<Action>, s: Sys)
    requires Reaches(cfg, run, s)
    ensures forall i, j | 0 <= i < j < |s.db.jobs| && s.db.jobs[j].attempts > 0 :: s.db.jobs[i].state.Terminal()
    ensures forall i, j | 0 <= i < j < |s.db.jobs| :: !(s.db.jobs[i].state.Running? && s.db.jobs[j].state.Running?)
    ensures ClaimsOk(Claims(cfg, run), s.db.jobs)
  {
    AlwaysSafe(cfg, run, s);
    ClaimsAlwaysOk(cfg, run, s);
  }
}
