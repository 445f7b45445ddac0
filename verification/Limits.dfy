/** Where the program does less than its documentation says, with exact conditions. The documents
    promise that a reopen resets the budget, and that a retried job never leaves two summaries of one
    pass. */
module Limits {
  import opened Basics
  import opened Tables
  import opened Selection
  import opened Machine
  import opened History
  import opened Safety
  import opened Deliveries
  import opened Comments

  // ----- a reset happens at the first try or never -----

  function ResetsBy(s: Sys, d: Delivery): nat {
    Count(s.log, ResetDone(d.Key(), d.id))
  }

  /** The row was claimed and is not in front of its reset. */
  predicate Missed(s: Sys, i: nat) {
    i < |s.db.jobs| && s.db.jobs[i].attempts > 0 && !(s.pc.Resetting? && s.pc.job.id == i)
  }

  lemma NextReset(cfg: Cfg, s: Sys, a: Action)
    requires Enabled(cfg, s, a) && Step(cfg, s, a).pc.Resetting?
    ensures (a.Arrive? && s.pc.Resetting?) || (a == Claim(true) && s.db.jobs[Head(s.db.jobs).value].attempts == 0)
    ensures Step(cfg, s, a).pc.job.id == if a.Arrive? then s.pc.job.id else Head(s.db.jobs).value
  {
  }

  lemma MissedStep(cfg: Cfg, s: Sys, a: Action, i: nat)
    requires Safe(cfg, s) && Enabled(cfg, s, a) && Missed(s, i)
    ensures Missed(Step(cfg, s, a), i)
    ensures Step(cfg, s, a).db.jobs[i].delivery == s.db.jobs[i].delivery
    ensures ResetsBy(Step(cfg, s, a), s.db.jobs[i].delivery) == ResetsBy(s, s.db.jobs[i].delivery)
  {
    RowKept(cfg, s, a, i);
    AttemptsGrow(cfg, s, a, i);
    NamedStep(cfg, s, a, i);
    if Step(cfg, s, a).pc.Resetting? {
      NextReset(cfg, s, a);
    }
  }

  /** Once a delivery was claimed and its worker is not in front of the reset, no continuation of
      the run ever resets for it. */
  lemma {:induction false} NowOrNever(cfg: Cfg, run: seq<Action>, s: Sys, more: seq<Action>, t: Sys, i: nat)
    requires Reaches(cfg, run, s) && Missed(s, i) && run <= more && Reaches(cfg, more, t)
    ensures Missed(t, i) && t.db.jobs[i].delivery == s.db.jobs[i].delivery
    ensures ResetsBy(t, s.db.jobs[i].delivery) == ResetsBy(s, s.db.jobs[i].delivery)
    decreases |more|
  {
    if more != run {
      var front := more[..|more| - 1];
      var p := Exec(cfg, front).value;
      NowOrNever(cfg, run, s, front, p, i);
      AlwaysSafe(cfg, front, p);
      MissedStep(cfg, p, more[|more| - 1], i);
    }
  }

  lemma Go(cfg: Cfg, run: seq<Action>, s: Sys, a: Action) returns (run': seq<Action>, t: Sys)
    requires Reaches(cfg, run, s) && Enabled(cfg, s, a)
    ensures run' == run + [a] && t == Step(cfg, s, a) && Reaches(cfg, run', t)
  {
    ExecAppend(cfg, run, a);
    run', t := run + [a], Step(cfg, s, a);
  }

  function AReopen(provider: string): Delivery {
    Delivery("id", provider, "o/r", 1, "ab", "", Reopened)
  }

  /** A claimed delivery that has not reset can still do so exactly while the worker stands in
      front of its reset. */
  lemma ResetOnlyNow(cfg: Cfg, run: seq<Action>, s: Sys, i: nat)
    requires Reaches(cfg, run, s) && i < |s.db.jobs| && s.db.jobs[i].attempts > 0
    ensures (s.pc.Resetting? && s.pc.job.id == i) <==>
            exists more, t :: run <= more && Reaches(cfg, more, t)
                              && ResetsBy(t, s.db.jobs[i].delivery) > ResetsBy(s, s.db.jobs[i].delivery)
  {
    var d := s.db.jobs[i].delivery;
    AlwaysSafe(cfg, run, s);
    if s.pc.Resetting? && s.pc.job.id == i {
      var more, t := Go(cfg, run, s, Io(Acked, Silent));
      NamedStep(cfg, s, Io(Acked, Silent), i);
      assert run <= more && Reaches(cfg, more, t) && ResetsBy(t, d) > ResetsBy(s, d);
    } else {
      forall more, t | run <= more && Reaches(cfg, more, t) ensures ResetsBy(t, d) <= ResetsBy(s, d) {
        NowOrNever(cfg, run, s, more, t, i);
      }
    }
  }

  lemma FirstClaim(cfg: Cfg, d: Delivery) returns (run: seq<Action>, s: Sys)
    requires d.provider in cfg.providers && d.head != ""
    ensures Reaches(cfg, run, s) && s.db == EMPTY_DB.(jobs := [Row(d, Running, 1)]) && s.log == []
    ensures s.pc == if d.event == Reopened then Resetting(Job(0, d, 1)) else Reading(Job(0, d, 1))
  {
    run, s := Go(cfg, [], INIT, Arrive(d));
    assert s.db.jobs == [Row(d, Queued, 0)] && Head(s.db.jobs) == Some(0);
    run, s := Go(cfg, run, s, Claim(true));
    assert s.db.jobs == [Row(d, Running, 1)];
  }

  /** A crash between a claim and its reset is enough: the reopened delivery is runnable, has not
      reset, and by NowOrNever never will. */
  lemma ResetCanBeLost(cfg: Cfg, provider: string)
    requires provider in cfg.providers
    ensures exists run, s :: Reaches(cfg, run, s) && Missed(s, 0) && s.db.jobs[0].delivery == AReopen(provider)
                             && !s.db.jobs[0].state.Terminal() && ResetsBy(s, AReopen(provider)) == 0
  {
    var run, s := FirstClaim(cfg, AReopen(provider));
    run, s := CrashBeforeReset(cfg, run, s, AReopen(provider));
  }

  lemma CrashBeforeReset(cfg: Cfg, run0: seq<Action>, s0: Sys, d: Delivery) returns (run: seq<Action>, s: Sys)
    requires Reaches(cfg, run0, s0) && s0.pc == Resetting(Job(0, d, 1)) && s0.db.jobs == [Row(d, Running, 1)]
    ensures Reaches(cfg, run, s) && s.db.jobs == [Row(d, Running, 1)] && Missed(s, 0) && ResetsBy(s, d) == 0
  {
    AlwaysSafe(cfg, run0, s0);
    DeliveriesOk(cfg, run0, s0, 0);
    NamedStep(cfg, s0, Crash, 0);
    run, s := Go(cfg, run0, s0, Crash);
  }

  // ----- a review without findings -----

  function APush(provider: string): Delivery {
    Delivery("id", provider, "o/r", 1, "ab", "", Opened)
  }

  lemma NothingToPost(cfg: Cfg, posted: set<string>)
    ensures Attempted(cfg.digest, cfg.minSeverity, cfg.maxComments, [], posted) == []
  {
    RankedFacts(cfg.digest, cfg.minSeverity, [], posted);
  }

  function ScopeOf(st: PRState): Scope {
    if st.cycle + 1 == 1 || st.lastReviewed == "" then Full else Delta(st.lastReviewed)
  }

  /** A pass from its first read up to its summary; the engine finds nothing. */
  lemma ToSummary(cfg: Cfg, run0: seq<Action>, s0: Sys, job: Job, st: PRState) returns (run: seq<Action>, s: Sys)
    requires Reaches(cfg, run0, s0) && s0.pc == Reading(job) && st == Budget(s0.db, job.Key())
    requires st.cycle < cfg.maxCycles && st.lastReviewed != job.delivery.head
    ensures Reaches(cfg, run, s) && s.db == s0.db && s.log == s0.log && s.pc == Summarizing(job, st, ScopeOf(st))
  {
    run, s := Go(cfg, run0, s0, Io(Acked, Silent));
    run, s := Go(cfg, run, s, Io(Acked, DiffText(ScopeOf(st), false)));
    run, s := Go(cfg, run, s, Io(Acked, Findings([])));
    assert s.pc == Selecting(job, st, ScopeOf(st), []);
    NothingToPost(cfg, Posted(s.db, job.Key()));
    run, s := Go(cfg, run, s, Io(Acked, Silent));
  }

  // ----- two summaries of one pass -----

  /** A pass with exactly one summary, in the words of the documents, needs that no id of a posted
      summary was lost: then there is one exactly when an id is stored or being stored. */
  lemma OneSummaryUnlessLost(cfg: Cfg, run: seq<Action>, s: Sys, key: string, cycle: int)
    requires Reaches(cfg, run, s) && cycle >= 1
    ensures Since(s.log, SummaryPosted(key, cycle)) <= 1 <==>
              Since(s.log, SummaryUnsaved(key, cycle)) == 0
              || (Since(s.log, SummaryUnsaved(key, cycle)) == 1
                  && cycle > Budget(s.db, key).summaryCycle && !SavingNow(s, key, cycle))
  {
    SummaryAlwaysOk(cfg, run, s, key, cycle);
  }

  function TheSummary(st: PRState): PRState {
    st.(summaryId := "7", summaryCycle := st.cycle + 1)
  }

  lemma PostSummary(cfg: Cfg, run0: seq<Action>, s0: Sys, job: Job) returns (run: seq<Action>, s: Sys)
    requires Reaches(cfg, run0, s0) && s0.pc == Summarizing(job, NEW_PR, Full)
    ensures Reaches(cfg, run, s) && s.db == s0.db && s.pc == SavingSummary(job, TheSummary(NEW_PR), Full)
    ensures s.log == s0.log + [SummaryPosted(job.Key(), 1)]
  {
    run, s := Go(cfg, run0, s0, Io(Acked, CommentId("7")));
  }

  lemma CrashThere(cfg: Cfg, run0: seq<Action>, s0: Sys, job: Job) returns (run: seq<Action>, s: Sys)
    requires Reaches(cfg, run0, s0) && s0.pc == SavingSummary(job, TheSummary(NEW_PR), Full)
    requires job.Key() !in s0.db.reviews
    ensures Reaches(cfg, run, s) && s.db == s0.db && s.pc == Ready
    ensures s.log == s0.log + [Orphaned(job.Key(), job.delivery.id), SummaryUnsaved(job.Key(), 1)]
  {
    LostThere(s0, job);
    run, s := Go(cfg, run0, s0, Crash);
  }

  lemma LostThere(s: Sys, job: Job)
    requires s.pc == SavingSummary(job, TheSummary(NEW_PR), Full) && job.Key() !in s.db.reviews
    ensures CrashLog(s) == [Orphaned(job.Key(), job.delivery.id), SummaryUnsaved(job.Key(), 1)]
  {
    assert LostSummary(s.db, job.Key(), s.pc.st) == [SummaryUnsaved(job.Key(), 1)];
  }

  lemma ClaimAgain(cfg: Cfg, run0: seq<Action>, s0: Sys, d: Delivery) returns (run: seq<Action>, s: Sys)
    requires Reaches(cfg, run0, s0) && s0.pc == Ready && s0.db == EMPTY_DB.(jobs := [Row(d, Running, 1)])
    requires d.provider in cfg.providers && d.event != Reopened
    ensures Reaches(cfg, run, s) && s.pc == Reading(Job(0, d, 2)) && s.log == s0.log
    ensures s.db == EMPTY_DB.(jobs := [Row(d, Running, 2)])
  {
    assert Head(s0.db.jobs) == Some(0);
    run, s := Go(cfg, run0, s0, Claim(true));
    assert s.db.jobs == [Row(d, Running, 2)];
  }

  lemma CountedTwice(log: seq<Entry>, e: Entry, others: seq<Entry>)
    requires log == [e] + others + [e] && |others| == 2 && e !in others
    requires forall x | x in log :: !x.ResetDone?
    ensures Since(log, e) == 2
  {
    SinceAdded([], [e], e);
    SinceAdded([e], others, e);
    SinceAdded([e] + others, [e], e);
    assert [] + [e] == [e] && others[0] in log && others[1] in log;
  }

  /** A crash before the id is stored is enough for the retried job to leave two. */
  lemma TwoSummaries(cfg: Cfg, provider: string)
    requires provider in cfg.providers && cfg.maxCycles >= 1
    ensures exists run, s :: Reaches(cfg, run, s) && |s.db.jobs| == 1
                             && Since(s.log, SummaryPosted(APush(provider).Key(), 1)) == 2
  {
    var d := APush(provider);
    var run, s := FirstClaim(cfg, d);
    run, s := PostTwice(cfg, run, s, d, d.Key());
    CountedTwice(s.log, SummaryPosted(d.Key(), 1), [Orphaned(d.Key(), d.id), SummaryUnsaved(d.Key(), 1)]);
  }

  lemma PostTwice(cfg: Cfg, run0: seq<Action>, s0: Sys, d: Delivery, key: string) returns (run: seq<Action>, s: Sys)
    requires Reaches(cfg, run0, s0) && s0.pc == Reading(Job(0, d, 1)) && s0.log == []
    requires s0.db == EMPTY_DB.(jobs := [Row(d, Running, 1)])
    requires d.provider in cfg.providers && cfg.maxCycles >= 1 && d.event != Reopened && d.head != "" && key == d.Key()
    ensures Reaches(cfg, run, s) && |s.db.jobs| == 1
    ensures s.log == [SummaryPosted(key, 1)] + [Orphaned(key, d.id), SummaryUnsaved(key, 1)] + [SummaryPosted(key, 1)]
  {
    run, s := PostOnce(cfg, run0, s0, Job(0, d, 1));
    assert s.log == [SummaryPosted(key, 1)];
    run, s := CrashThere(cfg, run, s, Job(0, d, 1));
    assert s.log == [SummaryPosted(key, 1)] + [Orphaned(key, d.id), SummaryUnsaved(key, 1)];
    run, s := ClaimAgain(cfg, run, s, d);
    run, s := PostOnce(cfg, run, s, Job(0, d, 2));
  }

  lemma PostOnce(cfg: Cfg, run0: seq<Action>, s0: Sys, job: Job) returns (run: seq<Action>, s: Sys)
    requires Reaches(cfg, run0, s0) && s0.pc == Reading(job) && job.Key() !in s0.db.reviews
    requires cfg.maxCycles >= 1 && job.delivery.head != ""
    ensures Reaches(cfg, run, s) && s.db == s0.db && s.pc == SavingSummary(job, TheSummary(NEW_PR), Full)
    ensures s.log == s0.log + [SummaryPosted(job.Key(), 1)]
  {
    run, s := ToSummary(cfg, run0, s0, job, NEW_PR);
    run, s := PostSummary(cfg, run, s, job);
  }
}
