/** The note that tells an author that a review will not come. The documents promise one for every
    dead job, so that none is dropped silently; here is the exact account, and what faults do. */
module FailureNotes {
  import opened Basics
  import opened Tables
  import opened Machine
  import opened History
  import opened Safety
  import opened Deliveries
  import opened Notices
  import opened Limits

  function Notes(s: Sys, d: Delivery): nat {
    Count(s.log, FailureNote(d.Key(), d.id))
  }

  function NotesLost(s: Sys, d: Delivery): nat {
    Count(s.log, NoteLost(d.Key(), d.id))
  }

  /** How often the row should have been marked dead, was not, and a note was due all the same. */
  function DeathsUnsaved(s: Sys, d: Delivery): nat {
    Count(s.log, DeathUnsaved(d.Key(), d.id))
  }

  predicate ReportingNow(s: Sys, i: nat) {
    s.pc.Reporting? && s.pc.job.id == i
  }

  /** A row that was marked dead is owed one note, and each unsaved death one more: every note owed
      was accepted, was lost, or is being posted. Without a provider none is owed. */
  predicate NotesOk(cfg: Cfg, s: Sys, i: nat)
    requires i < |s.db.jobs|
  {
    var row, d := s.db.jobs[i], s.db.jobs[i].delivery;
    && Notes(s, d) + NotesLost(s, d) + One(ReportingNow(s, i))
       == One(row.state.Dead? && d.provider in cfg.providers) + DeathsUnsaved(s, d)
    && DeathsUnsaved(s, d) <= Count(s.log, Orphaned(d.Key(), d.id))
    && (d.provider !in cfg.providers ==> DeathsUnsaved(s, d) == 0)
  }

  predicate DiesUnsaved(cfg: Cfg, s: Sys, a: Action) {
    && a.Io? && a.outcome.Refused? && s.pc.Finishing?
    && Verdict(cfg, s.pc.job, s.pc.ok) == Dead && s.pc.job.delivery.provider in cfg.providers
  }

  lemma OwnNotes(cfg: Cfg, s: Sys, a: Action, i: nat)
    requires QueueOk(s) && Enabled(cfg, s, a) && i < |s.db.jobs| && !a.Claim? && !s.pc.Ready? && s.pc.job.id == i
    ensures var xs := Added(cfg, s, a); var d := s.db.jobs[i].delivery;
      && (FailureNote(d.Key(), d.id) in xs <==> a.Io? && a.outcome.Applied() && s.pc.Reporting?)
      && (NoteLost(d.Key(), d.id) in xs <==> (a.Crash? || (a.Io? && a.outcome.Refused?)) && s.pc.Reporting?)
      && (DeathUnsaved(d.Key(), d.id) in xs <==> DiesUnsaved(cfg, s, a))
  {
  }

  lemma ClaimNotes(cfg: Cfg, s: Sys, a: Action, e: Entry)
    requires Enabled(cfg, s, a) && a.Claim? && (e.FailureNote? || e.NoteLost? || e.DeathUnsaved?)
    ensures e !in Added(cfg, s, a)
  {
  }

  lemma OthersNotes(cfg: Cfg, s: Sys, a: Action, i: nat, e: Entry)
    requires QueueOk(s) && Enabled(cfg, s, a) && i < |s.db.jobs| && (a.Claim? || s.pc.Ready? || s.pc.job.id != i)
    requires (e.FailureNote? || e.NoteLost? || e.DeathUnsaved?) && e.delivery == s.db.jobs[i].delivery.id
    ensures e !in Added(cfg, s, a)
  {
    if a.Claim? {
      ClaimNotes(cfg, s, a, e);
    } else if e in Added(cfg, s, a) {
      OwnEntry(cfg, s, a, i, e);
    }
  }

  /** Only this row's own steps change its notes. */
  lemma NotesStep(cfg: Cfg, s: Sys, a: Action, i: nat)
    requires QueueOk(s) && Enabled(cfg, s, a) && i < |s.db.jobs|
    ensures var d, t := s.db.jobs[i].delivery, Step(cfg, s, a);
      && Notes(t, d) == Notes(s, d) + One(a.Io? && a.outcome.Applied() && ReportingNow(s, i))
      && NotesLost(t, d) == NotesLost(s, d) + One((a.Crash? || (a.Io? && a.outcome.Refused?)) && ReportingNow(s, i))
      && DeathsUnsaved(t, d) == DeathsUnsaved(s, d) + One(DiesUnsaved(cfg, s, a) && s.pc.job.id == i)
  {
    var d := s.db.jobs[i].delivery;
    var note, lost, unsaved := FailureNote(d.Key(), d.id), NoteLost(d.Key(), d.id), DeathUnsaved(d.Key(), d.id);
    CountStep(cfg, s, a, note);
    CountStep(cfg, s, a, lost);
    CountStep(cfg, s, a, unsaved);
    if !a.Claim? && !s.pc.Ready? && s.pc.job.id == i {
      OwnNotes(cfg, s, a, i);
    } else {
      OthersNotes(cfg, s, a, i, note);
      OthersNotes(cfg, s, a, i, lost);
      OthersNotes(cfg, s, a, i, unsaved);
    }
  }

  /** When a row's note is due. */
  lemma ReportingNext(cfg: Cfg, s: Sys, a: Action, i: nat)
    requires QueueOk(s) && Enabled(cfg, s, a) && i < |s.db.jobs|
    ensures var d, t := s.db.jobs[i].delivery, Step(cfg, s, a);
      ReportingNow(t, i) <==>
        || (a.Arrive? && ReportingNow(s, i))
        || (a.Io? && s.pc.Finishing? && s.pc.job.id == i && Verdict(cfg, s.pc.job, s.pc.ok) == Dead
            && d.provider in cfg.providers)
  {
  }

  lemma NotesOkStep(cfg: Cfg, s: Sys, a: Action, i: nat)
    requires QueueOk(s) && Enabled(cfg, s, a) && i < |s.db.jobs| && NotesOk(cfg, s, i)
    ensures i < |Step(cfg, s, a).db.jobs| && NotesOk(cfg, Step(cfg, s, a), i)
  {
    NotesStep(cfg, s, a, i);
    NamedStep(cfg, s, a, i);
    ReportingNext(cfg, s, a, i);
    RowKept(cfg, s, a, i);
    if a.Io? {
      IoJobs(cfg, s, a.outcome, a.reply);
    }
  }

  lemma NewRowNotes(cfg: Cfg, s: Sys, i: nat)
    requires QueueOk(s) && HistoryOk(s) && i < |s.db.jobs| && s.db.jobs[i].attempts == 0
    ensures NotesOk(cfg, s, i)
  {
    var d := s.db.jobs[i].delivery;
    NewRow(s, i, FailureNote(d.Key(), d.id));
    NewRow(s, i, NoteLost(d.Key(), d.id));
    NewRow(s, i, DeathUnsaved(d.Key(), d.id));
  }

  lemma {:induction false} NotesAlwaysOk(cfg: Cfg, run: seq<Action>, s: Sys, i: nat)
    requires Reaches(cfg, run, s) && i < |s.db.jobs|
    ensures NotesOk(cfg, s, i)
  {
    AlwaysSafe(cfg, run, s);
    HistoryAlwaysOk(cfg, run, s);
    if s.db.jobs[i].attempts == 0 {
      NewRowNotes(cfg, s, i);
    } else {
      var front, a := run[..|run| - 1], run[|run| - 1];
      var p := Exec(cfg, front).value;
      AlwaysSafe(cfg, front, p);
      if a.Io? {
        IoJobs(cfg, p, a.outcome, a.reply);
      }
      assert i < |p.db.jobs|;
      NotesAlwaysOk(cfg, front, p, i);
      NotesOkStep(cfg, p, a, i);
    }
  }

  /** A delivery gets at most one note more often than its row was left running, and none without
      a provider. A dead one with a provider has its note exactly unless notes were lost, or one is
      still being posted, more often than a death was not saved: in a life without unsaved deaths,
      unless the posting crashed or was refused. */
  lemma NotesBounded(cfg: Cfg, run: seq<Action>, s: Sys, i: nat)
    requires Reaches(cfg, run, s) && i < |s.db.jobs|
    ensures var d := s.db.jobs[i].delivery;
      && Notes(s, d) <= 1 + Count(s.log, Orphaned(d.Key(), d.id))
      && (s.db.jobs[i].state.Dead? ==>
            (Notes(s, d) >= 1 <==>
               d.provider in cfg.providers && NotesLost(s, d) + One(ReportingNow(s, i)) <= DeathsUnsaved(s, d)))
      && (d.provider !in cfg.providers ==> Notes(s, d) == 0)
  {
    NotesAlwaysOk(cfg, run, s, i);
  }

  /** The note says that the delivery will not be retried. One whose row is not dead has a note exactly
      if deaths were not saved more often than notes were lost or are being posted; so without an
      unsaved death every note is final. */
  lemma NoteWithoutDeath(cfg: Cfg, run: seq<Action>, s: Sys, i: nat)
    requires Reaches(cfg, run, s) && i < |s.db.jobs| && !s.db.jobs[i].state.Dead?
    ensures var d := s.db.jobs[i].delivery;
      Notes(s, d) >= 1 <==> DeathsUnsaved(s, d) > NotesLost(s, d) + One(ReportingNow(s, i))
  {
    NotesAlwaysOk(cfg, run, s, i);
  }

  // ----- runs against the promise -----

  ghost predicate OnlyOrphans(log: seq<Entry>) {
    forall x | x in log :: x.Orphaned?
  }

  /** Crashes bring a delivery to any number of attempts. */
  lemma {:induction false} ClaimedTimes(cfg: Cfg, d: Delivery, n: nat) returns (run: seq<Action>, s: Sys)
    requires d.provider in cfg.providers && d.head != "" && d.event != Reopened && n >= 1
    ensures Reaches(cfg, run, s) && s.pc == Reading(Job(0, d, n)) && s.db.jobs == [Row(d, Running, n)]
    ensures OnlyOrphans(s.log)
  {
    if n == 1 {
      run, s := FirstClaim(cfg, d);
    } else {
      run, s := ClaimedTimes(cfg, d, n - 1);
      run, s := CrashAndClaim(cfg, run, s, d, n - 1);
    }
  }

  lemma CrashAndClaim(cfg: Cfg, run0: seq<Action>, s0: Sys, d: Delivery, n: nat) returns (run: seq<Action>, s: Sys)
    requires Reaches(cfg, run0, s0) && s0.pc == Reading(Job(0, d, n)) && s0.db.jobs == [Row(d, Running, n)]
    requires OnlyOrphans(s0.log) && d.provider in cfg.providers && d.event != Reopened
    ensures Reaches(cfg, run, s) && s.pc == Reading(Job(0, d, n + 1)) && s.db.jobs == [Row(d, Running, n + 1)]
    ensures OnlyOrphans(s.log)
  {
    run, s := Go(cfg, run0, s0, Crash);
    assert s.log == s0.log + [Orphaned(d.Key(), d.id)];
    HeadOnly(s.db.jobs, 0);
    run, s := Go(cfg, run, s, Claim(true));
    assert s.db.jobs == [Row(d, Running, n + 1)];
  }

  /** The last attempt fails and `o` becomes of the write that marks it dead. */
  lemma LastTryFails(cfg: Cfg, d: Delivery, o: Outcome) returns (run: seq<Action>, s: Sys)
    requires d.provider in cfg.providers && d.head != "" && d.event != Reopened
    ensures Reaches(cfg, run, s) && s.pc == Reporting(Job(0, d, Attempts(cfg)))
    ensures s.db.jobs == [Row(d, if o.Applied() then Dead else Running, Attempts(cfg))]
    ensures FailureNote(d.Key(), d.id) !in s.log
  {
    run, s := ClaimedTimes(cfg, d, Attempts(cfg));
    run, s := Go(cfg, run, s, Io(Refused, Silent));
    assert s.pc == Finishing(Job(0, d, Attempts(cfg)), false) && FailureNote(d.Key(), d.id) !in s.log;
    run, s := Go(cfg, run, s, Io(o, Silent));
  }

  /** The write that marks it dead is refused, the note is accepted, and the delivery is being
      reviewed once more. */
  lemma NoteThenRetry(cfg: Cfg, provider: string)
    requires provider in cfg.providers
    ensures exists run, s :: Reaches(cfg, run, s) && s.pc.Reading? && s.pc.job.delivery == APush(provider)
                             && FailureNote(APush(provider).Key(), APush(provider).id) in s.log
  {
    var d := APush(provider);
    var run, s := LastTryFails(cfg, d, Refused);
    run, s := Go(cfg, run, s, Io(Acked, Silent));
    assert s.log[|s.log| - 1] == FailureNote(d.Key(), d.id);
    HeadOnly(s.db.jobs, 0);
    run, s := Go(cfg, run, s, Claim(true));
    assert s.pc == Reading(Job(0, d, Attempts(cfg) + 1));
  }

  /** A crash in front of the note drops the delivery silently. */
  lemma SilentDrop(cfg: Cfg, provider: string)
    requires provider in cfg.providers
    ensures exists run, s :: Reaches(cfg, run, s) && s.pc.Ready?
                             && s.db.jobs == [Row(APush(provider), Dead, Attempts(cfg))]
                             && FailureNote(APush(provider).Key(), APush(provider).id) !in s.log
  {
    var run, s := LastTryFails(cfg, APush(provider), Acked);
    run, s := Go(cfg, run, s, Crash);
  }
}
