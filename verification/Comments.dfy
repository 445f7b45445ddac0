/** What the author of a pull request sees: how often the forge accepted a comment, a summary or
    a budget notice in one reset epoch, with an exact count of what faults can add. */
module Comments {
  import opened Basics
  import opened Tables
  import opened Machine
  import opened History
  import opened Safety
  import opened ReviewBudget

  // ----- inline comments -----

  predicate RecordingNow(s: Sys, key: string, fp: string) {
    s.pc.Recording? && s.pc.job.Key() == key && s.pc.fp == fp
  }

  /** A fingerprint is in the table exactly when its record committed in this epoch; the forge
      accepted it once for the record, once for every lost record, and once more while its
      record is being written. */
  predicate FpOk(s: Sys, key: string, fp: string) {
    && Since(s.log, Recorded(key, fp)) == One(fp in Posted(s.db, key))
    && Since(s.log, Accepted(key, fp))
       == One(fp in Posted(s.db, key)) + Since(s.log, Unrecorded(key, fp)) + One(RecordingNow(s, key, fp))
  }

  predicate PostingNow(s: Sys, key: string, fp: string) {
    s.pc.Posting? && s.pc.job.Key() == key && s.pc.todo != [] && s.pc.todo[0] == fp
  }

  lemma RecordedWhen(cfg: Cfg, s: Sys, a: Action, key: string, fp: string)
    requires Enabled(cfg, s, a)
    ensures Recorded(key, fp) in Added(cfg, s, a) <==>
            a.Io? && a.outcome.Applied() && RecordingNow(s, key, fp)
  {
  }

  lemma AcceptedWhen(cfg: Cfg, s: Sys, a: Action, key: string, fp: string)
    requires Enabled(cfg, s, a)
    ensures Accepted(key, fp) in Added(cfg, s, a) <==>
            a.Io? && a.outcome.Applied() && PostingNow(s, key, fp)
  {
  }

  lemma UnrecordedWhen(cfg: Cfg, s: Sys, a: Action, key: string, fp: string)
    requires Enabled(cfg, s, a)
    ensures Unrecorded(key, fp) in Added(cfg, s, a) <==>
            (a.Io? && a.outcome.Unacked? && PostingNow(s, key, fp))
            || ((a.Crash? || (a.Io? && a.outcome.Refused?)) && RecordingNow(s, key, fp))
  {
  }

  lemma RecordingNext(cfg: Cfg, s: Sys, a: Action, key: string, fp: string)
    requires Enabled(cfg, s, a)
    ensures RecordingNow(Step(cfg, s, a), key, fp) <==>
            (a.Arrive? && RecordingNow(s, key, fp)) || (a.Io? && a.outcome.Acked? && PostingNow(s, key, fp))
  {
  }

  lemma FpStep(cfg: Cfg, s: Sys, a: Action, key: string, fp: string)
    requires MemoryOk(cfg, s) && Enabled(cfg, s, a) && FpOk(s, key, fp)
    ensures FpOk(Step(cfg, s, a), key, fp)
  {
    RecordedWhen(cfg, s, a, key, fp);
    AcceptedWhen(cfg, s, a, key, fp);
    UnrecordedWhen(cfg, s, a, key, fp);
    SinceStep(cfg, s, a, Recorded(key, fp));
    SinceStep(cfg, s, a, Accepted(key, fp));
    SinceStep(cfg, s, a, Unrecorded(key, fp));
    RecordingNext(cfg, s, a, key, fp);
    PostedWrites(cfg, s, a, key);
  }

  lemma {:induction false} FpAlwaysOk(cfg: Cfg, run: seq<Action>, s: Sys, key: string, fp: string)
    requires Reaches(cfg, run, s)
    ensures FpOk(s, key, fp)
  {
    if run != [] {
      var p := Exec(cfg, run[..|run| - 1]).value;
      FpAlwaysOk(cfg, run[..|run| - 1], p, key, fp);
      AlwaysSafe(cfg, run[..|run| - 1], p);
      FpStep(cfg, p, run[|run| - 1], key, fp);
    }
  }

  lemma RecordingIsNew(cfg: Cfg, s: Sys, key: string, fp: string)
    requires MemoryOk(cfg, s) && RecordingNow(s, key, fp)
    ensures fp !in Posted(s.db, key)
  {
  }

  /** In one epoch the forge accepts a fingerprint at most once more often than its record was
      lost, and a recorded fingerprint really was accepted. */
  lemma CommentsBounded(cfg: Cfg, run: seq<Action>, s: Sys, key: string, fp: string)
    requires Reaches(cfg, run, s)
    ensures Since(s.log, Accepted(key, fp)) <= 1 + Since(s.log, Unrecorded(key, fp))
    ensures fp in Posted(s.db, key) ==> Since(s.log, Accepted(key, fp)) == 1 + Since(s.log, Unrecorded(key, fp))
  {
    FpAlwaysOk(cfg, run, s, key, fp);
    if RecordingNow(s, key, fp) {
      AlwaysSafe(cfg, run, s);
      RecordingIsNew(cfg, s, key, fp);
    }
  }

  lemma PostIsNew(cfg: Cfg, s: Sys, a: Action, x: Entry)
    requires MemoryOk(cfg, s) && Enabled(cfg, s, a) && x in Added(cfg, s, a) && x.Accepted?
    ensures x == Added(cfg, s, a)[0] && (|Added(cfg, s, a)| == 2 ==> Added(cfg, s, a)[1] != x)
    ensures x.fp !in Posted(s.db, x.key) && |Added(cfg, s, a)| <= 2
  {
    AcceptedWhen(cfg, s, a, x.key, x.fp);
    TodoTail(s.db, x.key, s.pc.todo);
  }

  /** At the moment the forge accepts a comment, its fingerprint has no record since the last
      reset: once recorded, never posted again. */
  lemma {:induction false} NeverAfterRecord(cfg: Cfg, run: seq<Action>, s: Sys, j: nat)
    requires Reaches(cfg, run, s) && j < |s.log| && s.log[j].Accepted?
    ensures Since(s.log[..j], Recorded(s.log[j].key, s.log[j].fp)) == 0
  {
    var front, a := run[..|run| - 1], run[|run| - 1];
    var p := Exec(cfg, front).value;
    var xs := Added(cfg, p, a);
    assert s.log == p.log + xs;
    if j < |p.log| {
      NeverAfterRecord(cfg, front, p, j);
      assert p.log[..j] == s.log[..j];
    } else {
      var x := xs[j - |p.log|];
      AlwaysSafe(cfg, front, p);
      PostIsNew(cfg, p, a, x);
      FpAlwaysOk(cfg, front, p, x.key, x.fp);
      assert s.log[..j] == p.log;
    }
  }

  // ----- summaries -----

  predicate SavingNow(s: Sys, key: string, cycle: int) {
    && s.pc.SavingSummary? && s.pc.job.Key() == key && s.pc.st.cycle + 1 == cycle
    && Budget(s.db, key).summaryCycle < cycle
  }

  /** The forge accepted one new summary for a cycle whose summary id was saved, one for every
      lost id, and one more while the id is being saved. */
  predicate SummaryOk(s: Sys, key: string, cycle: int) {
    Since(s.log, SummaryPosted(key, cycle))
    == One(cycle <= Budget(s.db, key).summaryCycle) + Since(s.log, SummaryUnsaved(key, cycle))
       + One(SavingNow(s, key, cycle))
  }

  predicate SummarizingNow(s: Sys, key: string, cycle: int) {
    s.pc.Summarizing? && s.pc.job.Key() == key && s.pc.st.cycle + 1 == cycle && !EditsSummary(s.pc.st)
  }

  lemma SummaryPostedWhen(cfg: Cfg, s: Sys, a: Action, key: string, cycle: int)
    requires Enabled(cfg, s, a)
    ensures SummaryPosted(key, cycle) in Added(cfg, s, a) <==>
            a.Io? && a.outcome.Applied() && SummarizingNow(s, key, cycle)
  {
  }

  lemma LostSummaryWhen(db: Db, key: string, st: PRState, other: string, cycle: int)
    ensures SummaryUnsaved(other, cycle) in LostSummary(db, key, st) <==>
            other == key && cycle == st.cycle + 1 && Budget(db, key).summaryCycle < cycle
  {
  }

  lemma SummaryUnsavedIo(cfg: Cfg, s: Sys, o: Outcome, key: string, cycle: int)
    requires !s.pc.Ready?
    ensures SummaryUnsaved(key, cycle) in IoLog(cfg, s, o) <==>
            (o.Unacked? && SummarizingNow(s, key, cycle)) || (o.Refused? && SavingNow(s, key, cycle))
  {
    if s.pc.SavingSummary? {
      LostSummaryWhen(s.db, s.pc.job.Key(), s.pc.st, key, cycle);
    }
  }

  lemma SummaryUnsavedCrash(s: Sys, key: string, cycle: int)
    ensures SummaryUnsaved(key, cycle) in CrashLog(s) <==> SavingNow(s, key, cycle)
  {
    if s.pc.SavingSummary? {
      LostSummaryWhen(s.db, s.pc.job.Key(), s.pc.st, key, cycle);
    }
  }

  lemma SummaryUnsavedWhen(cfg: Cfg, s: Sys, a: Action, key: string, cycle: int)
    requires Enabled(cfg, s, a)
    ensures SummaryUnsaved(key, cycle) in Added(cfg, s, a) <==>
            (a.Io? && a.outcome.Unacked? && SummarizingNow(s, key, cycle))
            || ((a.Crash? || (a.Io? && a.outcome.Refused?)) && SavingNow(s, key, cycle))
  {
    if a.Io? {
      SummaryUnsavedIo(cfg, s, a.outcome, key, cycle);
    } else if a.Crash? {
      SummaryUnsavedCrash(s, key, cycle);
    }
  }

  lemma SavingNext(cfg: Cfg, s: Sys, a: Action, key: string, cycle: int)
    requires MemoryOk(cfg, s) && BudgetOk(cfg, s, key) && Enabled(cfg, s, a)
    ensures SavingNow(Step(cfg, s, a), key, cycle) <==>
            (a.Arrive? && SavingNow(s, key, cycle))
            || (a.Io? && a.outcome.Acked? && SummarizingNow(s, key, cycle))
  {
    BudgetWrites(cfg, s, a, key);
  }

  lemma SummaryStep(cfg: Cfg, s: Sys, a: Action, key: string, cycle: int)
    requires MemoryOk(cfg, s) && Enabled(cfg, s, a) && SummaryOk(s, key, cycle) && cycle >= 1
    requires BudgetOk(cfg, s, key)
    ensures SummaryOk(Step(cfg, s, a), key, cycle)
  {
    SummaryPostedWhen(cfg, s, a, key, cycle);
    SummaryUnsavedWhen(cfg, s, a, key, cycle);
    SinceStep(cfg, s, a, SummaryPosted(key, cycle));
    SinceStep(cfg, s, a, SummaryUnsaved(key, cycle));
    SavingNext(cfg, s, a, key, cycle);
    BudgetWrites(cfg, s, a, key);
  }

  lemma {:induction false} SummaryAlwaysOk(cfg: Cfg, run: seq<Action>, s: Sys, key: string, cycle: int)
    requires Reaches(cfg, run, s) && cycle >= 1
    ensures SummaryOk(s, key, cycle)
  {
    if run != [] {
      var front := run[..|run| - 1];
      var p := Exec(cfg, front).value;
      SummaryAlwaysOk(cfg, front, p, key, cycle);
      AlwaysSafe(cfg, front, p);
      BudgetAgrees(cfg, front, p, key);
      SummaryStep(cfg, p, run[|run| - 1], key, cycle);
    }
  }

  /** One summary per pull request, epoch and cycle, whichever delivery posts it: a further one
      needs a fault between a post and its save. A saved id is edited from then on. */
  lemma SummariesBounded(cfg: Cfg, run: seq<Action>, s: Sys, key: string, cycle: int)
    requires Reaches(cfg, run, s) && cycle >= 1
    ensures Since(s.log, SummaryPosted(key, cycle)) <= 1 + Since(s.log, SummaryUnsaved(key, cycle))
    ensures s.pc.Summarizing? && s.pc.job.Key() == key && s.pc.st.cycle + 1 == cycle ==>
              (EditsSummary(s.pc.st) <==> cycle <= Budget(s.db, key).summaryCycle)
  {
    SummaryAlwaysOk(cfg, run, s, key, cycle);
    AlwaysSafe(cfg, run, s);
    BudgetAgrees(cfg, run, s, key);
    SavedIsEdited(cfg, s, key, cycle);
  }

  lemma SavedIsEdited(cfg: Cfg, s: Sys, key: string, cycle: int)
    requires MemoryOk(cfg, s) && BudgetOk(cfg, s, key)
    ensures s.pc.Summarizing? && s.pc.job.Key() == key && s.pc.st.cycle + 1 == cycle ==>
              (EditsSummary(s.pc.st) <==> cycle <= Budget(s.db, key).summaryCycle)
    ensures SavingNow(s, key, cycle) ==> cycle > Budget(s.db, key).summaryCycle
  {
  }

  // ----- budget notices -----

  predicate NotingNow(s: Sys, key: string) {
    s.pc.SavingNotice? && s.pc.job.Key() == key
  }

  predicate NoticeOk(s: Sys, key: string) {
    Since(s.log, NoticePosted(key))
    == One(Budget(s.db, key).noticePosted) + Since(s.log, NoticeUnsaved(key)) + One(NotingNow(s, key))
  }

  predicate NoticingNow(s: Sys, key: string) {
    s.pc.Noticing? && s.pc.job.Key() == key
  }

  lemma NoticePostedWhen(cfg: Cfg, s: Sys, a: Action, key: string)
    requires Enabled(cfg, s, a)
    ensures NoticePosted(key) in Added(cfg, s, a) <==>
            a.Io? && a.outcome.Applied() && NoticingNow(s, key)
  {
  }

  lemma NoticeUnsavedWhen(cfg: Cfg, s: Sys, a: Action, key: string)
    requires Enabled(cfg, s, a)
    ensures NoticeUnsaved(key) in Added(cfg, s, a) <==>
            (a.Io? && a.outcome.Unacked? && NoticingNow(s, key))
            || ((a.Crash? || (a.Io? && a.outcome.Refused?)) && NotingNow(s, key))
  {
  }

  lemma NotingNext(cfg: Cfg, s: Sys, a: Action, key: string)
    requires Enabled(cfg, s, a)
    ensures NotingNow(Step(cfg, s, a), key) <==>
            (a.Arrive? && NotingNow(s, key)) || (a.Io? && a.outcome.Acked? && NoticingNow(s, key))
  {
  }

  lemma NoticeStep(cfg: Cfg, s: Sys, a: Action, key: string)
    requires MemoryOk(cfg, s) && Enabled(cfg, s, a) && NoticeOk(s, key)
    ensures NoticeOk(Step(cfg, s, a), key)
  {
    NoticePostedWhen(cfg, s, a, key);
    NoticeUnsavedWhen(cfg, s, a, key);
    SinceStep(cfg, s, a, NoticePosted(key));
    SinceStep(cfg, s, a, NoticeUnsaved(key));
    NotingNext(cfg, s, a, key);
    BudgetWrites(cfg, s, a, key);
  }

  lemma {:induction false} NoticeAlwaysOk(cfg: Cfg, run: seq<Action>, s: Sys, key: string)
    requires Reaches(cfg, run, s)
    ensures NoticeOk(s, key)
  {
    if run != [] {
      var p := Exec(cfg, run[..|run| - 1]).value;
      NoticeAlwaysOk(cfg, run[..|run| - 1], p, key);
      AlwaysSafe(cfg, run[..|run| - 1], p);
      NoticeStep(cfg, p, run[|run| - 1], key);
    }
  }

  /** One budget notice per epoch, up to the faults between a post and its flag, and none before
      the budget is spent. */
  lemma NoticesBounded(cfg: Cfg, run: seq<Action>, s: Sys, key: string)
    requires Reaches(cfg, run, s)
    ensures Since(s.log, NoticePosted(key)) <= 1 + Since(s.log, NoticeUnsaved(key))
    ensures s.pc.Noticing? ==> |Passes(s.log, s.pc.job.Key())| >= cfg.maxCycles
  {
    NoticeAlwaysOk(cfg, run, s, key);
    AlwaysSafe(cfg, run, s);
    if s.pc.Noticing? {
      BudgetAgrees(cfg, run, s, s.pc.job.Key());
    }
  }
}
