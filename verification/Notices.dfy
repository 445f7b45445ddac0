/** Who causes a budget notice. The documents promise that it answers the first push after the budget
    is spent; the program does so only without faults. */
module Notices {
  import opened Basics
  import opened Keys
  import opened Tables
  import opened Machine
  import opened History
  import opened Safety
  import opened ReviewBudget
  import opened Deliveries
  import opened Limits

  // ----- a delivery that runs again behind its saved pass -----

  lemma DoneStaysDone(cfg: Cfg, s: Sys, a: Action, i: nat)
    requires QueueOk(s) && Enabled(cfg, s, a) && i < |s.db.jobs| && s.db.jobs[i].state.Terminal()
    ensures i < |Step(cfg, s, a).db.jobs| && Step(cfg, s, a).db.jobs[i] == s.db.jobs[i]
  {
    if a.Io? {
      IoJobs(cfg, s, a.outcome, a.reply);
    }
  }

  predicate LastPassBy(ps: seq<Entry>, d: Delivery) {
    ps != [] && ps[|ps| - 1].PassDone? && ps[|ps| - 1].delivery == d.id
  }

  lemma OwnPassStep(cfg: Cfg, s: Sys, a: Action, i: nat)
    requires Safe(cfg, s) && Enabled(cfg, s, a) && i < |s.db.jobs| && OnceOk(s, i) && !s.db.jobs[i].state.Terminal()
    requires var d := s.db.jobs[i].delivery; SpentBy(s.log, d.id) >= 1 ==> LastPassBy(Passes(s.log, d.Key()), d)
    ensures var d, log := s.db.jobs[i].delivery, Step(cfg, s, a).log;
      SpentBy(log, d.id) >= 1 ==> LastPassBy(Passes(log, d.Key()), d)
  {
    SpentStep(cfg, s, a, i);
    PassesStep(cfg, s, a, s.db.jobs[i].delivery.Key());
    if s.db.jobs[i].attempts > 0 {
      Alone(s, i);
    }
  }

  /** An unfinished delivery that has spent its cycle made the last pass of its pull request. */
  lemma {:induction false} OwnPassIsLast(cfg: Cfg, run: seq<Action>, s: Sys, i: nat)
    requires Reaches(cfg, run, s) && i < |s.db.jobs| && !s.db.jobs[i].state.Terminal()
    ensures var d := s.db.jobs[i].delivery; SpentBy(s.log, d.id) >= 1 ==> LastPassBy(Passes(s.log, d.Key()), d)
  {
    DeliveriesOk(cfg, run, s, i);
    if run != [] && s.db.jobs[i].attempts > 0 {
      var front, a := run[..|run| - 1], run[|run| - 1];
      var p := Exec(cfg, front).value;
      AlwaysSafe(cfg, front, p);
      if a.Io? {
        IoJobs(cfg, p, a.outcome, a.reply);
      }
      assert i < |p.db.jobs|;
      RowKept(cfg, p, a, i);
      if p.db.jobs[i].state.Terminal() {
        DoneStaysDone(cfg, p, a, i);
      }
      OwnPassIsLast(cfg, front, p, i);
      DeliveriesOk(cfg, front, p, i);
      OwnPassStep(cfg, p, a, i);
    }
  }

  /** A delivery that has spent its cycle and runs again is never reviewed again: it posts the
      notice exactly when its own pass, the last one, was the last of the budget, and notices are
      on and none is stored. */
  lemma RerunAfterPass(cfg: Cfg, run: seq<Action>, s: Sys)
    requires Reaches(cfg, run, s) && s.pc.Reading? && SpentBy(s.log, s.pc.job.delivery.id) >= 1
    ensures var b, ps := Budget(s.db, s.pc.job.Key()), Passes(s.log, s.pc.job.Key());
      && LastPassBy(ps, s.pc.job.delivery)
      && AckedPc(cfg, s, Silent) ==
           if |ps| >= cfg.maxCycles && cfg.announce && !b.noticePosted then Noticing(s.pc.job, b)
           else Finishing(s.pc.job, true)
  {
    AlwaysSafe(cfg, run, s);
    DeliveriesOk(cfg, run, s, s.pc.job.id);
    OwnPassIsLast(cfg, run, s, s.pc.job.id);
    BudgetAgrees(cfg, run, s, s.pc.job.Key());
  }

  /** A notice answers a delivery that spent no cycle, a further push; or else a fault made the
      delivery behind the last pass run again. */
  lemma NoticeAnswersPush(cfg: Cfg, run: seq<Action>, s: Sys)
    requires Reaches(cfg, run, s) && s.pc.Noticing?
    ensures var d, ps := s.pc.job.delivery, Passes(s.log, s.pc.job.Key());
      || SpentBy(s.log, d.id) == 0
      || (&& Count(s.log, Orphaned(d.Key(), d.id)) + Count(s.log, PassUnacked(d.Key(), d.id)) >= 1
          && LastPassBy(ps, d) && s.pc.st.lastReviewed == d.head)
  {
    AlwaysSafe(cfg, run, s);
    DeliveriesOk(cfg, run, s, s.pc.job.id);
    OwnPassIsLast(cfg, run, s, s.pc.job.id);
  }

  // ----- a notice that no further push caused -----

  /** The pushes to one pull request: distinct commits under the webhook's own ids. */
  function Push(provider: string, k: nat): Delivery {
    Delivery(DeliveryId(provider, "o/r", 1, DecNat(k), false), provider, "o/r", 1, DecNat(k), "",
             if k == 0 then Opened else Synchronize)
  }

  lemma CommitId(k: nat)
    ensures IsHex(DecNat(k)) && DecNat(k) != "" && ReadDec(DecNat(k)) == Some(k)
  {
    DecNatDigits(k);
    ReadDecOfDec(k);
    assert Dec(k) == DecNat(k);
    forall c | c in DecNat(k) ensures IsDigit(c) {
      DigitsOnly(DecNat(k), c);
    }
  }

  lemma PushesDiffer(provider: string, j: nat, k: nat)
    requires ':' !in provider && j != k
    ensures Push(provider, j).id != Push(provider, k).id && Push(provider, j).head != Push(provider, k).head
  {
    CommitId(j);
    CommitId(k);
    DeliveryIdRoundTrip(DeliveryKey(provider, "o/r", 1, DecNat(j), false));
    DeliveryIdRoundTrip(DeliveryKey(provider, "o/r", 1, DecNat(k), false));
  }

  function BudgetAfter(provider: string, n: nat): PRState {
    if n == 0 then NEW_PR else PRState(n, Push(provider, n - 1).head, "7", n, false)
  }

  predicate PushesDone(jobs: seq<Row>, provider: string, n: nat) {
    |jobs| == n && forall k | 0 <= k < n :: jobs[k] == Row(Push(provider, k), Done, 1)
  }

  lemma NewPush(jobs: seq<Row>, provider: string, n: nat)
    requires PushesDone(jobs, provider, n) && ':' !in provider
    ensures var queued := jobs + [Row(Push(provider, n), Queued, 0)];
      Enqueue(jobs, Push(provider, n)) == queued && Head(queued) == Some(n)
  {
    forall k | 0 <= k < n ensures jobs[k].delivery.id != Push(provider, n).id {
      PushesDiffer(provider, k, n);
    }
    var queued := jobs + [Row(Push(provider, n), Queued, 0)];
    HeadOnly(queued, n);
  }

  lemma HeadOnly(jobs: seq<Row>, n: nat)
    requires |jobs| == n + 1 && !jobs[n].state.Terminal() && forall k | 0 <= k < n :: jobs[k].state.Terminal()
    ensures Head(jobs) == Some(n)
  {
  }

  lemma PushClaimed(cfg: Cfg, run0: seq<Action>, s0: Sys, provider: string, n: nat) returns (run: seq<Action>, s: Sys)
    requires Reaches(cfg, run0, s0) && s0.pc.Ready? && PushesDone(s0.db.jobs, provider, n)
    requires provider in cfg.providers && ':' !in provider
    ensures Reaches(cfg, run, s) && s.pc == Reading(Job(n, Push(provider, n), 1))
    ensures s.db == s0.db.(jobs := s0.db.jobs + [Row(Push(provider, n), Running, 1)])
  {
    CommitId(n);
    NewPush(s0.db.jobs, provider, n);
    run, s := Go(cfg, run0, s0, Arrive(Push(provider, n)));
    run, s := Go(cfg, run, s, Claim(true));
    assert s.db.jobs == s0.db.jobs + [Row(Push(provider, n), Running, 1)];
  }

  /** The rest of a pass without findings: summary, its id, and the spent cycle. */
  lemma PassSaved(cfg: Cfg, run0: seq<Action>, s0: Sys, job: Job, st: PRState) returns (run: seq<Action>, s: Sys)
    requires Reaches(cfg, run0, s0) && s0.pc == Summarizing(job, st, ScopeOf(st)) && !EditsSummary(st)
    ensures Reaches(cfg, run, s) && s.pc == Finishing(job, true) && s.db.jobs == s0.db.jobs
    ensures Budget(s.db, job.Key()) == PRState(st.cycle + 1, job.delivery.head, "7", st.cycle + 1, st.noticePosted)
  {
    run, s := Go(cfg, run0, s0, Io(Acked, CommentId("7")));
    run, s := Go(cfg, run, s, Io(Acked, Silent));
    run, s := Go(cfg, run, s, Io(Acked, Silent));
  }

  /** One more push, reviewed up to the last write of its pass. */
  lemma PushReviewed(cfg: Cfg, run0: seq<Action>, s0: Sys, provider: string, n: nat) returns (run: seq<Action>, s: Sys)
    requires Reaches(cfg, run0, s0) && s0.pc.Ready? && PushesDone(s0.db.jobs, provider, n) && n < cfg.maxCycles
    requires Budget(s0.db, Push(provider, n).Key()) == BudgetAfter(provider, n)
    requires provider in cfg.providers && ':' !in provider
    ensures Reaches(cfg, run, s) && s.pc == Finishing(Job(n, Push(provider, n), 1), true)
    ensures s.db.jobs == s0.db.jobs + [Row(Push(provider, n), Running, 1)]
    ensures Budget(s.db, Push(provider, n).Key()) == BudgetAfter(provider, n + 1)
  {
    var job, st := Job(n, Push(provider, n), 1), BudgetAfter(provider, n);
    CommitId(n);
    if n > 0 {
      PushesDiffer(provider, n - 1, n);
    }
    run, s := PushClaimed(cfg, run0, s0, provider, n);
    run, s := ToSummary(cfg, run, s, job, st);
    run, s := PassSaved(cfg, run, s, job, st);
  }

  lemma {:induction false} PushesReviewed(cfg: Cfg, provider: string, n: nat) returns (run: seq<Action>, s: Sys)
    requires n <= cfg.maxCycles && provider in cfg.providers && ':' !in provider
    ensures Reaches(cfg, run, s) && s.pc.Ready? && PushesDone(s.db.jobs, provider, n)
    ensures Budget(s.db, Push(provider, n).Key()) == BudgetAfter(provider, n)
  {
    if n == 0 {
      run, s := [], INIT;
    } else {
      run, s := PushesReviewed(cfg, provider, n - 1);
      var jobs := s.db.jobs;
      run, s := PushReviewed(cfg, run, s, provider, n - 1);
      run, s := Go(cfg, run, s, Io(Acked, Silent));
      assert s.db.jobs == jobs + [Row(Push(provider, n - 1), Done, 1)];
    }
  }

  /** With a crash it need not be a further push: for every budget there is a run with as many pushes
      as the budget has cycles, each reviewed, that ends in the notice. */
  lemma NoticeWithoutPush(cfg: Cfg, provider: string)
    requires provider in cfg.providers && ':' !in provider && cfg.maxCycles >= 1 && cfg.announce
    ensures exists run, s :: Reaches(cfg, run, s) && s.pc.Noticing? && |s.db.jobs| == cfg.maxCycles
  {
    var n: nat := cfg.maxCycles - 1;
    var run, s := PushesReviewed(cfg, provider, n);
    run, s := PushReviewed(cfg, run, s, provider, n);
    run, s := RerunNoticed(cfg, run, s, n, Push(provider, n));
  }

  lemma RerunNoticed(cfg: Cfg, run0: seq<Action>, s0: Sys, n: nat, d: Delivery) returns (run: seq<Action>, s: Sys)
    requires Reaches(cfg, run0, s0) && s0.pc == Finishing(Job(n, d, 1), true)
    requires |s0.db.jobs| == n + 1 && s0.db.jobs[n] == Row(d, Running, 1)
    requires forall k | 0 <= k < n :: s0.db.jobs[k].state.Terminal()
    requires d.provider in cfg.providers && d.event != Reopened && cfg.announce
    requires Budget(s0.db, d.Key()).cycle >= cfg.maxCycles && !Budget(s0.db, d.Key()).noticePosted
    ensures Reaches(cfg, run, s) && s.pc.Noticing? && |s.db.jobs| == n + 1
  {
    HeadOnly(s0.db.jobs, n);
    run, s := Go(cfg, run0, s0, Crash);
    run, s := Go(cfg, run, s, Claim(true));
    assert s.pc == Reading(Job(n, d, 2));
    run, s := Go(cfg, run, s, Io(Acked, Silent));
  }
}
