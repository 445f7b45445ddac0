/** Why a review goes on as it does and a row ends as it does. Everything here is said of states,
    answers and rows, whatever the worker's decision functions are called. */
module Verdicts {
  import opened Basics
  import opened Tables
  import opened Selection
  import opened Machine
  import opened Safety
  import opened World

  // ----- what an answered operation leads to -----

  /** A claimed delivery with a provider resets exactly if it is a reopen on its first attempt; any
      other one, a reopen on a later attempt included, goes on to read the budget. */
  lemma AfterTheClaim(cfg: Cfg, s: Sys, i: nat)
    requires Enabled(cfg, s, Claim(true)) && Head(s.db.jobs) == Some(i)
    ensures var row, t := s.db.jobs[i], Step(cfg, s, Claim(true));
      var job := Job(i, row.delivery, row.attempts + 1);
      && t.db == s.db.(jobs := s.db.jobs[i := Row(row.delivery, Running, row.attempts + 1)])
      && (row.delivery.provider !in cfg.providers ==> t.pc == Finishing(job, false))
      && (row.delivery.provider in cfg.providers ==>
            (t.pc == Resetting(job) <==> row.delivery.event == Reopened && row.attempts == 0)
            && (t.pc == Reading(job) <==> row.delivery.event != Reopened || row.attempts > 0))
  {
  }

  /** A reset takes budget and comments of its pull request, and the budget is read next. */
  lemma AfterTheReset(cfg: Cfg, s: Sys, o: Outcome, r: Reply)
    requires s.pc.Resetting?
    ensures var key, t := s.pc.job.Key(), Step(cfg, s, Io(o, r));
      && t.pc == (if o == Acked then Reading(s.pc.job) else Finishing(s.pc.job, false))
      && t.db == (if o == Refused then s.db
                  else Db(s.db.jobs, s.db.reviews - {key}, s.db.posted - {key}))
  {
  }

  /** The budget decides: spent comes before reviewed, and only a head that is neither is fetched. */
  lemma AfterTheBudget(cfg: Cfg, s: Sys, o: Outcome, r: Reply)
    requires s.pc.Reading?
    ensures var job, t := s.pc.job, Step(cfg, s, Io(o, r));
      var b := if job.Key() in s.db.reviews then s.db.reviews[job.Key()] else PRState(0, "", "", 0, false);
      && t.db == s.db
      && (o != Acked ==> t.pc == Finishing(job, false))
      && (o == Acked && b.cycle >= cfg.maxCycles && cfg.announce && !b.noticePosted ==> t.pc == Noticing(job, b))
      && (o == Acked && b.cycle >= cfg.maxCycles && (!cfg.announce || b.noticePosted) ==> t.pc == Finishing(job, true))
      && (o == Acked && b.cycle < cfg.maxCycles && b.lastReviewed == job.delivery.head ==> t.pc == Finishing(job, true))
      && (o == Acked && b.cycle < cfg.maxCycles && b.lastReviewed != job.delivery.head ==> t.pc == Fetching(job, b))
  {
  }

  /** An empty diff ends the review, and the diff's scope stays with the pass. */
  lemma AfterTheDiff(cfg: Cfg, s: Sys, o: Outcome, r: Reply)
    requires s.pc.Fetching? && (o == Acked ==> r.DiffText?)
    requires o == Acked ==> ScopeFits(s.pc.st, r.scope)
    ensures var job, st, t := s.pc.job, s.pc.st, Step(cfg, s, Io(o, r));
      && t.db == s.db
      && (o != Acked ==> t.pc == Finishing(job, false))
      && (o == Acked && r.blank ==> t.pc == Finishing(job, true))
      && (o == Acked && !r.blank ==> t.pc == Reviewing(job, st, r.scope))
  {
  }

  /** The engine's findings are the ones to select from. */
  lemma AfterTheEngine(cfg: Cfg, s: Sys, o: Outcome, r: Reply)
    requires s.pc.Reviewing? && (o == Acked ==> r.Findings?)
    ensures var job, st, t := s.pc.job, s.pc.st, Step(cfg, s, Io(o, r));
      && t.db == s.db
      && t.pc == if o == Acked then Selecting(job, st, s.pc.scope, r.findings) else Finishing(job, false)
  {
  }

  /** An accepted comment is recorded before anything else; after a rejected one, or a record, comes
      the next comment, and after the last one the summary. */
  lemma AfterAComment(cfg: Cfg, s: Sys, o: Outcome, r: Reply)
    requires s.pc.Posting? && s.pc.todo != []
    ensures var job, st, scope, todo, t := s.pc.job, s.pc.st, s.pc.scope, s.pc.todo, Step(cfg, s, Io(o, r));
      && t.db == s.db
      && (o == Acked ==> t.pc == Recording(job, st, scope, todo[0], todo[1..]))
      && (o != Acked ==>
            t.pc == if |todo| == 1 then Summarizing(job, st, scope) else Posting(job, st, scope, todo[1..]))
  {
  }

  lemma AfterARecord(cfg: Cfg, s: Sys, o: Outcome, r: Reply)
    requires s.pc.Recording?
    ensures var job, st, scope, todo, t := s.pc.job, s.pc.st, s.pc.scope, s.pc.todo, Step(cfg, s, Io(o, r));
      var key := job.Key();
      var known := if key in s.db.posted then s.db.posted[key] else {};
      && t.db == (if o == Refused then s.db else s.db.(posted := s.db.posted[key := known + {s.pc.fp}]))
      && (o != Acked ==> t.pc == Finishing(job, false))
      && (o == Acked ==> t.pc == if |todo| == 0 then Summarizing(job, st, scope) else Posting(job, st, scope, todo))
  {
  }

  /** A summary is edited under its id when one of this cycle is stored, and else a new one's id is
      taken; then the id is stored with the cycle that it is for. */
  lemma AfterTheSummary(cfg: Cfg, s: Sys, r: Reply)
    requires s.pc.Summarizing? && r.CommentId? && r.id != ""
    ensures var job, st, t := s.pc.job, s.pc.st, Step(cfg, s, Io(Acked, r));
      var kept := st.summaryId != "" && st.summaryCycle == st.cycle + 1;
      && t.db == s.db
      && t.pc == SavingSummary(
           job, st.(summaryId := if kept then st.summaryId else r.id, summaryCycle := st.cycle + 1), s.pc.scope)
  {
  }

  /** Cycle and head are stored together, after the summary's id. */
  lemma AfterTheSaves(cfg: Cfg, s: Sys, o: Outcome, r: Reply)
    requires s.pc.SavingSummary? || s.pc.SavingCycle?
    ensures var job, st, t := s.pc.job, s.pc.st, Step(cfg, s, Io(o, r));
      var saved := if s.pc.SavingSummary? then st else st.(cycle := st.cycle + 1, lastReviewed := job.delivery.head);
      && t.db == (if o == Refused then s.db else s.db.(reviews := s.db.reviews[job.Key() := saved]))
      && t.pc == if o != Acked then Finishing(job, false)
                 else if s.pc.SavingSummary? then SavingCycle(job, st, s.pc.scope) else Finishing(job, true)
  {
  }

  /** The notice is posted, then its flag is stored. */
  lemma AfterTheNotice(cfg: Cfg, s: Sys, o: Outcome, r: Reply)
    requires s.pc.Noticing? || s.pc.SavingNotice?
    ensures var job, st, t := s.pc.job, s.pc.st, Step(cfg, s, Io(o, r));
      && t.db == (if s.pc.Noticing? || o == Refused then s.db else s.db.(reviews := s.db.reviews[job.Key() := st]))
      && t.pc == if o != Acked then Finishing(job, false)
                 else if s.pc.Noticing? then SavingNotice(job, st.(noticePosted := true)) else Finishing(job, true)
  {
  }

  // ----- when a review ends, and how -----

  /** The step after which success is to be recorded: a saved pass, an empty diff, a head already
      reviewed within the budget, or a spent budget that is or has been announced or never is. */
  predicate Succeeds(cfg: Cfg, s: Sys, a: Action) {
    && a.Io? && a.outcome == Acked
    && match s.pc
       case SavingCycle(_, _, _) => true
       case SavingNotice(_, _) => true
       case Fetching(_, _) => a.reply.DiffText? && a.reply.blank
       case Reading(job) =>
         var b := Budget(s.db, job.Key());
         if b.cycle >= cfg.maxCycles then !cfg.announce || b.noticePosted
         else b.lastReviewed == job.delivery.head
       case _ => false
  }

  /** Some finding is at least as severe as the minimum. */
  predicate AnyEligible(cfg: Cfg, fs: seq<Finding>) {
    exists i | 0 <= i < |fs| :: AtLeast(fs[i].severity, cfg.minSeverity)
  }

  lemma {:induction false} EligibleAreCollected(cfg: Cfg, fs: seq<Finding>)
    ensures Collect(cfg.digest, cfg.minSeverity, fs).fps == [] <==> !AnyEligible(cfg, fs)
  {
    if fs != [] {
      var front := fs[..|fs| - 1];
      EligibleAreCollected(cfg, front);
      if AnyEligible(cfg, fs) {
        var i :| 0 <= i < |fs| && AtLeast(fs[i].severity, cfg.minSeverity);
        CollectFirst(cfg.digest, cfg.minSeverity, fs, i);
        assert Fingerprint(cfg.digest, fs[i]) in Collect(cfg.digest, cfg.minSeverity, fs).fps;
      } else {
        forall i | 0 <= i < |front| ensures !AtLeast(front[i].severity, cfg.minSeverity) {
          assert front[i] == fs[i];
        }
      }
    }
  }

  /** The step after which a failure is to be recorded: a delivery without a provider, or an error of
      any operation of the review except a rejected comment and a lookup that is not needed. */
  predicate Fails(cfg: Cfg, s: Sys, a: Action) {
    match a
    case Claim(acked) => acked && Head(s.db.jobs).Some?
                         && s.db.jobs[Head(s.db.jobs).value].delivery.provider !in cfg.providers
    case Io(o, _) =>
      && o != Acked
      && (s.pc.Resetting? || s.pc.Reading? || s.pc.Noticing? || s.pc.SavingNotice? || s.pc.Fetching? || s.pc.Reviewing?
          || s.pc.Recording? || s.pc.Summarizing? || s.pc.SavingSummary? || s.pc.SavingCycle?
          || (s.pc.Selecting? && AnyEligible(cfg, s.pc.findings)))
    case _ => false
  }

  lemma IoEndsAcked(cfg: Cfg, s: Sys, r: Reply)
    requires Enabled(cfg, s, Io(Acked, r))
    ensures var pc := Step(cfg, s, Io(Acked, r)).pc;
      && (pc.Finishing? <==> Succeeds(cfg, s, Io(Acked, r)))
      && (pc.Finishing? ==> pc == Finishing(s.pc.job, true))
  {
  }

  lemma IoEndsInError(cfg: Cfg, s: Sys, o: Outcome, r: Reply)
    requires Enabled(cfg, s, Io(o, r)) && o != Acked
    ensures var pc := Step(cfg, s, Io(o, r)).pc;
      && (pc.Finishing? <==> Fails(cfg, s, Io(o, r)))
      && (pc.Finishing? ==> pc == Finishing(s.pc.job, false))
  {
    if s.pc.Selecting? {
      EligibleAreCollected(cfg, s.pc.findings);
    }
  }

  lemma IoEnds(cfg: Cfg, s: Sys, o: Outcome, r: Reply)
    requires Enabled(cfg, s, Io(o, r))
    ensures var pc := Step(cfg, s, Io(o, r)).pc;
      && (pc.Finishing? && pc.ok <==> Succeeds(cfg, s, Io(o, r)))
      && (pc.Finishing? && !pc.ok <==> Fails(cfg, s, Io(o, r)))
      && (pc.Finishing? ==> pc.job == s.pc.job)
  {
    if o == Acked {
      IoEndsAcked(cfg, s, r);
    } else {
      IoEndsInError(cfg, s, o, r);
    }
  }

  /** A review ends with success exactly after a step that succeeds, and with failure exactly after
      one that fails. */
  lemma EndsExactly(cfg: Cfg, s: Sys, a: Action)
    requires Enabled(cfg, s, a) && !a.Arrive?
    ensures var pc := Step(cfg, s, a).pc;
      && (pc.Finishing? && pc.ok <==> Succeeds(cfg, s, a))
      && (pc.Finishing? && !pc.ok <==> Fails(cfg, s, a))
  {
    if a.Io? {
      IoEnds(cfg, s, a.outcome, a.reply);
    }
  }

  // ----- why a row is done or dead -----

  /** The step decides row `i`. */
  predicate Decides(cfg: Cfg, s: Sys, a: Action, i: nat, ok: bool) {
    if ok then Succeeds(cfg, s, a) && s.pc.job.id == i
    else Fails(cfg, s, a) && if a.Claim? then Head(s.db.jobs) == Some(i) else s.pc.job.id == i
  }

  predicate DecidedAt(cfg: Cfg, run: seq<Action>, k: nat, i: nat, ok: bool) {
    k < |run| && Exec(cfg, run[..k]).Some? && Decides(cfg, Exec(cfg, run[..k]).value, run[k], i, ok)
  }

  ghost predicate HasReason(cfg: Cfg, run: seq<Action>, i: nat, ok: bool) {
    exists k: nat :: DecidedAt(cfg, run, k, i, ok)
  }

  lemma ReasonStays(cfg: Cfg, run: seq<Action>, a: Action, i: nat, ok: bool)
    requires HasReason(cfg, run, i, ok)
    ensures HasReason(cfg, run + [a], i, ok)
  {
    var k: nat :| DecidedAt(cfg, run, k, i, ok);
    DecidedLater(cfg, run, a, k, i, ok);
  }

  lemma DecidedLater(cfg: Cfg, run: seq<Action>, a: Action, k: nat, i: nat, ok: bool)
    requires DecidedAt(cfg, run, k, i, ok)
    ensures DecidedAt(cfg, run + [a], k, i, ok)
  {
    assert (run + [a])[..k] == run[..k] && (run + [a])[k] == run[k];
  }

  lemma ReasonGiven(cfg: Cfg, run: seq<Action>, s: Sys, a: Action, i: nat, ok: bool)
    requires Reaches(cfg, run, s) && Decides(cfg, s, a, i, ok)
    ensures HasReason(cfg, run + [a], i, ok)
  {
    assert (run + [a])[..|run|] == run;
    assert DecidedAt(cfg, run + [a], |run|, i, ok);
  }

  /** The worker is about to record this verdict for row `i`. */
  predicate Judging(s: Sys, i: nat, ok: bool) {
    s.pc.Finishing? && s.pc.job.id == i && s.pc.ok == ok
  }

  lemma JudgingNext(cfg: Cfg, s: Sys, a: Action, i: nat, ok: bool)
    requires Enabled(cfg, s, a) && Judging(Step(cfg, s, a), i, ok)
    ensures (a.Arrive? && Judging(s, i, ok)) || Decides(cfg, s, a, i, ok)
  {
    match a
    case Arrive(_) =>
    case Claim(_) => EndsExactly(cfg, s, a);
    case Crash =>
    case Io(o, r) =>
      IoEnds(cfg, s, o, r);
      IoJobs(cfg, s, o, r);
  }

  /** What a finished row shows: a success behind Done; a failure on an attempt that was not
      below the limit behind Dead; a failure below it behind Failed. */
  ghost predicate Justified(cfg: Cfg, run: seq<Action>, s: Sys, i: nat)
    requires i < |s.db.jobs|
  {
    var row := s.db.jobs[i];
    && (row.state == Done ==> HasReason(cfg, run, i, true) && row.delivery.provider in cfg.providers)
    && (row.state == Dead ==> HasReason(cfg, run, i, false) && row.attempts >= cfg.maxAttempts)
    && (row.state == Failed ==> HasReason(cfg, run, i, false) && row.attempts < cfg.maxAttempts)
    && (Judging(s, i, true) ==> HasReason(cfg, run, i, true) && row.delivery.provider in cfg.providers)
    && (Judging(s, i, false) ==> HasReason(cfg, run, i, false))
    && (!s.pc.Ready? && !s.pc.Finishing? && s.pc.job.id == i ==> row.delivery.provider in cfg.providers)
  }

  /** One write decides a row's state, by the verdict and the attempts. */
  lemma AfterTheVerdict(cfg: Cfg, s: Sys, o: Outcome, r: Reply)
    requires QueueOk(s) && s.pc.Finishing?
    ensures var job, t := s.pc.job, Step(cfg, s, Io(o, r));
      var state := if s.pc.ok then Done else if job.attempts < cfg.maxAttempts then JobState.Failed else Dead;
      && t.db == (if o == Refused then s.db
                  else s.db.(jobs := s.db.jobs[job.id := Row(job.delivery, state, job.attempts)]))
      && t.pc == (if state == Dead && job.delivery.provider in cfg.providers then Reporting(job) else Ready)
  {
  }

  lemma JustifiedVerdict(cfg: Cfg, run: seq<Action>, s: Sys, o: Outcome, r: Reply, i: nat)
    requires Reaches(cfg, run, s) && QueueOk(s) && s.pc.Finishing? && i < |s.db.jobs| && Justified(cfg, run, s, i)
    ensures i < |Step(cfg, s, Io(o, r)).db.jobs| && Justified(cfg, run + [Io(o, r)], Step(cfg, s, Io(o, r)), i)
  {
    AfterTheVerdict(cfg, s, o, r);
    forall ok | HasReason(cfg, run, i, ok) ensures HasReason(cfg, run + [Io(o, r)], i, ok) {
      ReasonStays(cfg, run, Io(o, r), i, ok);
    }
  }

  lemma ProviderKept(cfg: Cfg, s: Sys, a: Action, i: nat)
    requires QueueOk(s) && Enabled(cfg, s, a) && !(a.Io? && s.pc.Finishing?)
    requires !s.pc.Ready? && !s.pc.Finishing? && s.pc.job.id == i ==> s.pc.job.delivery.provider in cfg.providers
    requires Judging(s, i, true) ==> s.pc.job.delivery.provider in cfg.providers
    ensures var pc := Step(cfg, s, a).pc;
      !pc.Ready? && pc.job.id == i && !(pc.Finishing? && !pc.ok) ==> pc.job.delivery.provider in cfg.providers
  {
    if a.Io? {
      IoJobs(cfg, s, a.outcome, a.reply);
    }
  }

  lemma JustifiedOther(cfg: Cfg, run: seq<Action>, s: Sys, a: Action, i: nat)
    requires Reaches(cfg, run, s) && QueueOk(s) && Enabled(cfg, s, a) && i < |s.db.jobs| && Justified(cfg, run, s, i)
    requires !(a.Io? && s.pc.Finishing?) && QueueOk(Step(cfg, s, a))
    ensures i < |Step(cfg, s, a).db.jobs| && Justified(cfg, run + [a], Step(cfg, s, a), i)
  {
    var t := Step(cfg, s, a);
    ProviderKept(cfg, s, a, i);
    OtherStepsKeepRow(cfg, s, a, i);
    forall ok: bool ensures HasReason(cfg, run, i, ok) || Judging(t, i, ok) ==> HasReason(cfg, run + [a], i, ok) {
      if HasReason(cfg, run, i, ok) {
        ReasonStays(cfg, run, a, i, ok);
      } else if Judging(t, i, ok) {
        JudgingNext(cfg, s, a, i, ok);
        if Decides(cfg, s, a, i, ok) {
          ReasonGiven(cfg, run, s, a, i, ok);
        }
      }
    }
  }

  lemma OtherStepsKeepRow(cfg: Cfg, s: Sys, a: Action, i: nat)
    requires Enabled(cfg, s, a) && i < |s.db.jobs| && !(a.Io? && s.pc.Finishing?)
    ensures var jobs := Step(cfg, s, a).db.jobs;
      && i < |jobs| && jobs[i].delivery == s.db.jobs[i].delivery
      && (jobs[i] == s.db.jobs[i] || (a.Claim? && jobs[i].state == Running))
  {
    if a.Io? {
      IoJobs(cfg, s, a.outcome, a.reply);
    }
  }

  lemma JustifiedStep(cfg: Cfg, run: seq<Action>, s: Sys, a: Action, i: nat)
    requires Reaches(cfg, run, s) && QueueOk(s) && Enabled(cfg, s, a) && i < |s.db.jobs| && Justified(cfg, run, s, i)
    requires QueueOk(Step(cfg, s, a))
    ensures i < |Step(cfg, s, a).db.jobs| && Justified(cfg, run + [a], Step(cfg, s, a), i)
  {
    if a.Io? && s.pc.Finishing? {
      JustifiedVerdict(cfg, run, s, a.outcome, a.reply, i);
    } else {
      JustifiedOther(cfg, run, s, a, i);
    }
  }

  lemma JustifiedNew(cfg: Cfg, run: seq<Action>, s: Sys, a: Action, i: nat)
    requires QueueOk(s) && Enabled(cfg, s, a) && |s.db.jobs| <= i < |Step(cfg, s, a).db.jobs|
    ensures Justified(cfg, run + [a], Step(cfg, s, a), i)
  {
    if a.Io? {
      IoJobs(cfg, s, a.outcome, a.reply);
    }
  }

  lemma {:induction false} AlwaysJustified(cfg: Cfg, run: seq<Action>, s: Sys, i: nat)
    requires Reaches(cfg, run, s) && i < |s.db.jobs|
    ensures Justified(cfg, run, s, i)
  {
    AlwaysSafe(cfg, run, s);
    var front, a := run[..|run| - 1], run[|run| - 1];
    var p := Exec(cfg, front).value;
    assert run == front + [a];
    AlwaysSafe(cfg, front, p);
    if i < |p.db.jobs| {
      AlwaysJustified(cfg, front, p, i);
      JustifiedStep(cfg, front, p, a, i);
    } else {
      JustifiedNew(cfg, front, p, a, i);
    }
  }

  /** Over every run: a row is Done only because of a saved pass, an empty diff, a head already
      reviewed or a spent budget on it, and never without a configured provider. */
  lemma DoneHasReason(cfg: Cfg, run: seq<Action>, s: Sys, i: nat)
    requires Reaches(cfg, run, s) && i < |s.db.jobs| && s.db.jobs[i].state == Done
    ensures s.db.jobs[i].delivery.provider in cfg.providers && HasReason(cfg, run, i, true)
  {
    AlwaysJustified(cfg, run, s, i);
  }

  /** Over every run: a row is Dead only after a failed review on an attempt that is not below the
      limit, and waits as Failed only below it. */
  lemma DeadAfterTries(cfg: Cfg, run: seq<Action>, s: Sys, i: nat)
    requires Reaches(cfg, run, s) && i < |s.db.jobs|
    ensures s.db.jobs[i].state == Dead ==> s.db.jobs[i].attempts >= cfg.maxAttempts && HasReason(cfg, run, i, false)
    ensures s.db.jobs[i].state == Failed ==> s.db.jobs[i].attempts < cfg.maxAttempts && HasReason(cfg, run, i, false)
  {
    AlwaysJustified(cfg, run, s, i);
  }

  // ----- a failed job is tried again -----

  lemma HeadAmongFinished(jobs: seq<Row>, i: nat)
    requires i < |jobs| && jobs[i].state in {Queued, Running, JobState.Failed}
    requires forall k | 0 <= k < i :: jobs[k].state in {Done, Dead}
    ensures Head(jobs) == Some(i)
  {
  }

  lemma {:induction false} ArrivedKeepsRows(cfg: Cfg, s: Sys, ds: seq<Delivery>)
    ensures s.db.jobs <= Arrived(cfg, s, ds).db.jobs
  {
    if ds != [] {
      ArrivedKeepsRows(cfg, s, ds[..|ds| - 1]);
    }
  }

  /** A review that failed below the limit leaves its row Failed, without any note; and whatever
      arrives meanwhile, it is the row that the next claim takes, with one more attempt. */
  lemma RetriedNext(cfg: Cfg, run: seq<Action>, s: Sys, o: Outcome, r: Reply, ds: seq<Delivery>)
    requires Reaches(cfg, run, s) && s.pc.Finishing? && !s.pc.ok && s.pc.job.attempts < cfg.maxAttempts && o != Refused
    ensures var job, t := s.pc.job, Step(cfg, s, Io(o, r));
      && t.pc == Ready && t.log == s.log
      && job.id < |t.db.jobs| && t.db.jobs[job.id] == Row(job.delivery, JobState.Failed, job.attempts)
      && var u := Arrived(cfg, t, ds);
         && Enabled(cfg, u, Claim(true))
         && job.id < |u.db.jobs|
         && Step(cfg, u, Claim(true)).db.jobs == u.db.jobs[job.id := Row(job.delivery, Running, job.attempts + 1)]
  {
    AlwaysSafe(cfg, run, s);
    AfterTheVerdict(cfg, s, o, r);
    var t := Step(cfg, s, Io(o, r));
    var u := Arrived(cfg, t, ds);
    ArrivedKeepsRows(cfg, t, ds);
    assert s.log + [] == s.log;
    FinishedBefore(s, s.pc.job.id);
    forall k | 0 <= k < s.pc.job.id ensures u.db.jobs[k].state in {Done, Dead} {
      assert u.db.jobs[k] == t.db.jobs[k] == s.db.jobs[k];
    }
    HeadAmongFinished(u.db.jobs, s.pc.job.id);
  }

  lemma FinishedBefore(s: Sys, i: nat)
    requires QueueOk(s) && i < |s.db.jobs| && s.db.jobs[i].attempts > 0
    ensures forall k | 0 <= k < i :: s.db.jobs[k].state in {Done, Dead}
  {
  }
}
