/** The worker's operations in terms of what it holds: what each answer makes of its place in the
    review and of the tables. */
module Operations {
  import opened Basics
  import opened Tables
  import opened Selection
  import opened Machine
  import opened World
  import opened DurableStore

  function Write(o: Outcome, written: Db, db: Db): Db {
    if o.Applied() then written else db
  }

  /** Operation `n` of a worker: it began in state `start`, and the deliveries before it led to `s`. */
  datatype Operation = Operation(
    cfg: Cfg, world: nat -> Answer, step: (Sys, nat) -> Sys, n: nat, start: Sys, s: Sys)
  {
    function Ans(): Answer {
      world(n)
    }

    function Outcome(): Outcome {
      world(n).outcome
    }

    predicate Acked() {
      Outcome().Acked?
    }

    ghost predicate Begun() {
      Follows(step, cfg, world) && s == Arrived(cfg, start, world(n).arrivals)
    }

    /** It leads to `t` and leaves `db` stored. */
    ghost predicate Ended(t: Sys, db: Db) {
      t == Fold(step, start, n, n + 1) && t.db == db
    }

    lemma Completed(a: Action) returns (t: Sys)
      requires Begun() && Response(cfg, s, Ans()) == Some(a)
      ensures t.pc == NextPc(cfg, s, a) && Ended(t, NextDb(cfg, s, a))
    {
      assert Fold(step, start, n, n) == start;
      t := Op(cfg, start, world(n));
    }
  }

  lemma IdleStep(op: Operation)
    requires op.Begun() && op.s.pc.Ready?
    requires Head(op.s.db.jobs).None? || op.Outcome().Refused?
    ensures op.Ended(op.s, op.s.db)
  {
    assert Fold(op.step, op.start, op.n, op.n) == op.start && Op(op.cfg, op.start, op.Ans()) == op.s;
  }

  lemma ClaimStep(op: Operation, i: nat) returns (t: Sys)
    requires op.Begun() && op.s.pc.Ready?
    requires Head(op.s.db.jobs) == Some(i) && op.Outcome().Applied()
    ensures op.Ended(t, op.s.db.(jobs := ClaimRow(op.s.db.jobs, i)))
    ensures t.pc == if op.Acked() then AfterClaim(op.cfg, ClaimedJob(op.s.db.jobs, i)) else Ready
  {
    t := op.Completed(Action.Claim(op.Acked()));
  }

  /** What the store promises of a claim that left `db`. */
  predicate Claimable(op: Operation, r: ClaimResult, db: Db) {
    var head := Head(op.s.db.jobs);
    && (r.NoJob? ==> head.None?)
    && (r.Claimed? <==> head.Some? && op.Acked())
    && (r.Claimed? ==> head == Some(r.job.id) && r.job == ClaimedJob(op.s.db.jobs, r.job.id))
    && db == if head.Some? && op.Outcome().Applied() then op.s.db.(jobs := ClaimRow(op.s.db.jobs, head.value))
             else op.s.db
  }

  /** A claimed job is begun; without one, or without an acknowledgement, the worker stays ready. */
  lemma ClaimEnd(op: Operation, r: ClaimResult, db: Db) returns (t: Sys)
    requires op.Begun() && op.s.pc.Ready? && Claimable(op, r, db)
    ensures op.Ended(t, db)
    ensures t.pc == match r case Claimed(job) => AfterClaim(op.cfg, job) case _ => Ready
  {
    if Head(op.s.db.jobs).Some? && op.Outcome().Applied() {
      t := ClaimStep(op, Head(op.s.db.jobs).value);
    } else {
      IdleStep(op);
      t := op.s;
    }
  }

  lemma ResetStep(op: Operation, job: Job) returns (t: Sys)
    requires op.Begun() && op.s.pc == Resetting(job)
    ensures op.Ended(t, Write(op.Outcome(), ResetPR(op.s.db, job.Key()), op.s.db))
    ensures t.pc == if op.Acked() then Reading(job) else Finishing(job, false)
  {
    t := op.Completed(Io(op.Outcome(), Silent));
  }

  lemma ReadStep(op: Operation, job: Job) returns (t: Sys)
    requires op.Begun() && op.s.pc == Reading(job)
    ensures op.Ended(t, op.s.db)
    ensures t.pc == if op.Acked() then AfterRead(op.cfg, job, Budget(op.s.db, job.Key())) else Finishing(job, false)
  {
    t := op.Completed(Io(op.Outcome(), Silent));
  }

  lemma FetchStep(op: Operation, job: Job, st: PRState) returns (t: Sys)
    requires op.Begun() && op.s.pc == Fetching(job, st)
    ensures op.Ended(t, op.s.db)
    ensures t.pc == if !(HasDiff(st, op.Ans()) && op.Acked()) then Finishing(job, false)
                    else if op.Ans().blank then Finishing(job, true)
                    else Reviewing(job, st, ScopeFor(st, op.Ans().compared))
  {
    t := op.Completed(Response(op.cfg, op.s, op.Ans()).value);
  }

  lemma EngineStep(op: Operation, job: Job, st: PRState, scope: Scope) returns (t: Sys)
    requires op.Begun() && op.s.pc == Reviewing(job, st, scope)
    ensures op.Ended(t, op.s.db)
    ensures t.pc == if op.Acked() then Selecting(job, st, scope, op.Ans().findings)
                    else Finishing(job, false)
  {
    t := op.Completed(Io(op.Outcome(), Findings(op.Ans().findings)));
  }

  function Chosen(cfg: Cfg, fs: seq<Finding>, seen: set<string>): seq<string> {
    Attempted(cfg.digest, cfg.minSeverity, cfg.maxComments, fs, seen)
  }

  lemma NothingEligible(cfg: Cfg, fs: seq<Finding>, seen: set<string>)
    requires |Collect(cfg.digest, cfg.minSeverity, fs).fps| == 0
    ensures Chosen(cfg, fs, seen) == []
  {
  }

  /** Where the worker goes when the recorded fingerprints were looked up, or none were needed. */
  lemma SelectionEnds(cfg: Cfg, s: Sys, job: Job, st: PRState, scope: Scope, fs: seq<Finding>, o: Outcome, ok: bool)
    requires s.pc == Selecting(job, st, scope, fs)
    requires ok == (|Collect(cfg.digest, cfg.minSeverity, fs).fps| == 0 || o.Acked?)
    ensures NextPc(cfg, s, Io(o, Silent)) ==
            if ok then AfterPosts(job, st, scope, Chosen(cfg, fs, Posted(s.db, job.Key()))) else Finishing(job, false)
  {
    if |Collect(cfg.digest, cfg.minSeverity, fs).fps| == 0 {
      NothingEligible(cfg, fs, Posted(s.db, job.Key()));
    }
  }

  lemma UnseenStep(op: Operation, job: Job, st: PRState, scope: Scope,
                   fs: seq<Finding>, fps: seq<string>, ok: bool) returns (t: Sys)
    requires op.Begun() && op.s.pc == Selecting(job, st, scope, fs)
    requires fps == Collect(op.cfg.digest, op.cfg.minSeverity, fs).fps
    requires ok == (|fps| == 0 || op.Acked())
    ensures op.Ended(t, op.s.db)
    ensures t.pc == if ok then AfterPosts(job, st, scope, Chosen(op.cfg, fs, Posted(op.s.db, job.Key())))
                    else Finishing(job, false)
  {
    SelectionEnds(op.cfg, op.s, job, st, scope, fs, op.Outcome(), ok);
    t := op.Completed(Io(op.Outcome(), Silent));
  }

  lemma PostStep(op: Operation, job: Job, st: PRState, scope: Scope, todo: seq<string>) returns (t: Sys)
    requires op.Begun() && op.s.pc == Posting(job, st, scope, todo) && todo != []
    ensures op.Ended(t, op.s.db)
    ensures t.pc == if op.Acked() then Recording(job, st, scope, todo[0], todo[1..])
                    else AfterPosts(job, st, scope, todo[1..])
  {
    t := op.Completed(Io(op.Outcome(), Silent));
  }

  lemma RecordStep(op: Operation, job: Job, st: PRState, scope: Scope, fp: string, todo: seq<string>) returns (t: Sys)
    requires op.Begun() && op.s.pc == Recording(job, st, scope, fp, todo)
    ensures op.Ended(t, Write(op.Outcome(), RecordPosted(op.s.db, job.Key(), fp), op.s.db))
    ensures t.pc == if op.Acked() then AfterPosts(job, st, scope, todo) else Finishing(job, false)
  {
    t := op.Completed(Io(op.Outcome(), Silent));
  }

  /** The id under which the summary of a pass is stored, if `created` is that of a new comment. */
  function SummaryIdOf(st: PRState, created: string): (id: string)
    ensures created != "" ==> id != ""
  {
    if EditsSummary(st) then st.summaryId else created
  }

  lemma CommentStep(op: Operation, job: Job, st: PRState, scope: Scope, id: string) returns (t: Sys)
    requires op.Begun() && op.s.pc == Summarizing(job, st, scope)
    requires id == SummaryIdOf(st, op.Ans().id)
    ensures op.Ended(t, op.s.db)
    ensures t.pc == if op.Acked() then SavingSummary(job, st.(summaryId := id, summaryCycle := st.cycle + 1), scope)
                    else Finishing(job, false)
  {
    t := op.Completed(Io(op.Outcome(), CommentId(op.Ans().id)));
  }

  lemma SummaryStep(op: Operation, job: Job, st: PRState, scope: Scope) returns (t: Sys)
    requires op.Begun() && op.s.pc == SavingSummary(job, st, scope)
    ensures op.Ended(t, Write(op.Outcome(), SaveBudget(op.s.db, job.Key(), st), op.s.db))
    ensures t.pc == if op.Acked() then SavingCycle(job, st, scope) else Finishing(job, false)
  {
    t := op.Completed(Io(op.Outcome(), Silent));
  }

  lemma CycleWrites(cfg: Cfg, s: Sys, job: Job, st: PRState, scope: Scope, spent: PRState)
    requires s.pc == SavingCycle(job, st, scope)
    requires spent == st.(cycle := st.cycle + 1, lastReviewed := job.delivery.head)
    ensures IoDb(cfg, s) == SaveBudget(s.db, job.Key(), spent)
  {
  }

  lemma CycleStep(op: Operation, job: Job, st: PRState, scope: Scope, spent: PRState) returns (t: Sys)
    requires op.Begun() && op.s.pc == SavingCycle(job, st, scope)
    requires spent == st.(cycle := st.cycle + 1, lastReviewed := job.delivery.head)
    ensures op.Ended(t, Write(op.Outcome(), SaveBudget(op.s.db, job.Key(), spent), op.s.db))
    ensures t.pc == Finishing(job, op.Acked())
  {
    CycleWrites(op.cfg, op.s, job, st, scope, spent);
    t := op.Completed(Io(op.Outcome(), Silent));
  }

  lemma AnnounceStep(op: Operation, job: Job, st: PRState) returns (t: Sys)
    requires op.Begun() && op.s.pc == Noticing(job, st)
    ensures op.Ended(t, op.s.db)
    ensures t.pc == if op.Acked() then SavingNotice(job, st.(noticePosted := true)) else Finishing(job, false)
  {
    t := op.Completed(Io(op.Outcome(), Silent));
  }

  lemma NoticeStep(op: Operation, job: Job, st: PRState) returns (t: Sys)
    requires op.Begun() && op.s.pc == SavingNotice(job, st)
    ensures op.Ended(t, Write(op.Outcome(), SaveBudget(op.s.db, job.Key(), st), op.s.db))
    ensures t.pc == Finishing(job, op.Acked())
  {
    t := op.Completed(Io(op.Outcome(), Silent));
  }

  lemma FinishStep(op: Operation, job: Job, ok: bool) returns (t: Sys)
    requires op.Begun() && op.s.pc == Finishing(job, ok)
    ensures var jobs := SetState(op.s.db.jobs, job.id, Verdict(op.cfg, job, ok));
      op.Ended(t, Write(op.Outcome(), op.s.db.(jobs := jobs), op.s.db))
    ensures t.pc == AfterFinish(op.cfg, job, ok)
  {
    t := op.Completed(Io(op.Outcome(), Silent));
  }

  lemma ReportStep(op: Operation, job: Job) returns (t: Sys)
    requires op.Begun() && op.s.pc == Reporting(job)
    ensures op.Ended(t, op.s.db)
    ensures t.pc == Ready
  {
    t := op.Completed(Io(op.Outcome(), Silent));
  }
}
