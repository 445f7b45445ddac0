/** The review worker as a state machine: one step per durable write and per call to the forge
    or the engine, with a crash possible between any two. */
module Machine {
  import opened Basics
  import opened Tables
  import opened Selection

  /** `digest` stands for the fingerprint hash. */
  datatype Cfg = Cfg(
    maxCycles: int, maxAttempts: int, maxComments: int, minSeverity: string, announce: bool,
    providers: set<string>, digest: string -> string)

  /** Which diff a pass reviews. */
  datatype Scope = Full | Delta(base: string) | Fallback(base: string)

  /** The forge's and the review tables' history. It is never read by the program. An entry
      names the pull request and, where it matters, the delivery. */
  datatype Entry =
    | ResetDone(key: string, delivery: string)
    | Accepted(key: string, fp: string)            // the forge accepted an inline comment
    | Recorded(key: string, fp: string)
    | Unrecorded(key: string, fp: string)          // an accepted comment lost its record
    | SummaryPosted(key: string, cycle: int)       // the forge accepted a new summary
    | SummaryUnsaved(key: string, cycle: int)      // a posted summary lost its id
    | NoticePosted(key: string)
    | NoticeUnsaved(key: string)                   // a posted budget notice lost its flag
    | PassDone(key: string, delivery: string, head: string, scope: Scope)
    | PassUnacked(key: string, delivery: string)   // a saved pass was reported as an error
    | Orphaned(key: string, delivery: string)      // a row stays `running` with nobody on it
    | FailureNote(key: string, delivery: string)
    | NoteLost(key: string, delivery: string)      // a dead delivery's note was refused or crashed
    | DeathUnsaved(key: string, delivery: string)  // a note is due for a row that was not marked dead

  /** Where the worker is, with what it holds in memory. */
  datatype Pc =
    | Ready
    | Resetting(job: Job)
    | Reading(job: Job)
    | Noticing(job: Job, st: PRState)
    | SavingNotice(job: Job, st: PRState)
    | Fetching(job: Job, st: PRState)
    | Reviewing(job: Job, st: PRState, scope: Scope)
    | Selecting(job: Job, st: PRState, scope: Scope, findings: seq<Finding>)
    | Posting(job: Job, st: PRState, scope: Scope, todo: seq<string>)
    | Recording(job: Job, st: PRState, scope: Scope, fp: string, todo: seq<string>)
    | Summarizing(job: Job, st: PRState, scope: Scope)
    | SavingSummary(job: Job, st: PRState, scope: Scope)
    | SavingCycle(job: Job, st: PRState, scope: Scope)
    | Finishing(job: Job, ok: bool)
    | Reporting(job: Job)
  {
    /** The worker holds a job whose outcome is not recorded yet. */
    predicate Owns() {
      !Ready? && !Reporting?
    }
  }

  datatype Sys = Sys(db: Db, pc: Pc, log: seq<Entry>)

  const INIT: Sys := Sys(EMPTY_DB, Ready, [])

  datatype Reply =
    | Silent
    | DiffText(scope: Scope, blank: bool)
    | Findings(findings: seq<Finding>)
    | CommentId(id: string)

  datatype Action =
    | Arrive(delivery: Delivery)       // a webhook handler enqueues
    | Claim(acked: bool)               // ClaimNext commits; without an ack the worker waits
    | Io(outcome: Outcome, reply: Reply)
    | Crash                            // or a cancelled context: memory is lost

  // ----- decisions of the worker that need no I/O -----

  function AfterClaim(cfg: Cfg, job: Job): Pc {
    if job.delivery.provider !in cfg.providers then Finishing(job, false)
    else if job.delivery.event == Reopened && job.attempts == 1 then Resetting(job)
    else Reading(job)
  }

  function AfterRead(cfg: Cfg, job: Job, st: PRState): Pc {
    if st.cycle >= cfg.maxCycles then
      if !cfg.announce || st.noticePosted then Finishing(job, true) else Noticing(job, st)
    else if st.lastReviewed == job.delivery.head then Finishing(job, true)
    else Fetching(job, st)
  }

  predicate ScopeFits(st: PRState, scope: Scope) {
    if st.cycle + 1 == 1 || st.lastReviewed == "" then scope == Full
    else scope == Delta(st.lastReviewed) || scope == Fallback(st.lastReviewed)
  }

  function AfterPosts(job: Job, st: PRState, scope: Scope, todo: seq<string>): Pc {
    if todo == [] then Summarizing(job, st, scope) else Posting(job, st, scope, todo)
  }

  /** Where the worker goes with the findings, given the recorded fingerprints. */
  function AfterSelect(cfg: Cfg, job: Job, st: PRState, scope: Scope, fs: seq<Finding>, seen: set<string>): Pc {
    AfterPosts(job, st, scope, Attempted(cfg.digest, cfg.minSeverity, cfg.maxComments, fs, seen))
  }

  /** A retry of the same cycle edits its summary instead of posting another. */
  predicate EditsSummary(st: PRState) {
    st.summaryId != "" && st.summaryCycle == st.cycle + 1
  }

  function Verdict(cfg: Cfg, job: Job, ok: bool): JobState {
    if ok then Done else if job.attempts < cfg.maxAttempts then Failed else Dead
  }

  function AfterFinish(cfg: Cfg, job: Job, ok: bool): Pc {
    if Verdict(cfg, job, ok) == Dead && job.delivery.provider in cfg.providers then Reporting(job) else Ready
  }

  // ----- steps -----

  predicate ReplyFits(pc: Pc, o: Outcome, r: Reply) {
    match pc
    case Fetching(_, st) => o.Acked? ==> r.DiffText? && ScopeFits(st, r.scope)
    case Reviewing(_, _, _) => o.Acked? ==> r.Findings?
    case Summarizing(_, st, _) => o.Applied() && !EditsSummary(st) ==> r.CommentId? && r.id != ""
    case _ => true
  }

  /** Only deliveries with a head get past the webhook. */
  predicate Enabled(cfg: Cfg, s: Sys, a: Action) {
    match a
    case Arrive(d) => d.head != ""
    case Claim(_) => s.pc.Ready? && Head(s.db.jobs).Some?
    case Io(o, r) => !s.pc.Ready? && ReplyFits(s.pc, o, r)
    case Crash => true
  }

  /** What an I/O step writes to the database, if it takes effect. */
  function IoDb(cfg: Cfg, s: Sys): Db
    requires !s.pc.Ready?
  {
    var key := s.pc.job.Key();
    match s.pc
    case Resetting(_) => ResetPR(s.db, key)
    case SavingNotice(_, st) => SaveBudget(s.db, key, st)
    case Recording(_, _, _, fp, _) => RecordPosted(s.db, key, fp)
    case SavingSummary(_, st, _) => SaveBudget(s.db, key, st)
    case SavingCycle(job, st, _) =>
      SaveBudget(s.db, key, st.(cycle := st.cycle + 1, lastReviewed := job.delivery.head))
    case Finishing(job, ok) => s.db.(jobs := SetState(s.db.jobs, job.id, Verdict(cfg, job, ok)))
    case _ => s.db
  }

  /** Where the worker goes when an I/O step reports success. */
  function AckedPc(cfg: Cfg, s: Sys, r: Reply): Pc
    requires !s.pc.Ready? && ReplyFits(s.pc, Acked, r)
  {
    match s.pc
    case Resetting(job) => Reading(job)
    case Reading(job) => AfterRead(cfg, job, Budget(s.db, job.Key()))
    case Noticing(job, st) => SavingNotice(job, st.(noticePosted := true))
    case SavingNotice(job, _) => Finishing(job, true)
    case Fetching(job, st) => if r.blank then Finishing(job, true) else Reviewing(job, st, r.scope)
    case Reviewing(job, st, scope) => Selecting(job, st, scope, r.findings)
    case Selecting(job, st, scope, fs) => AfterSelect(cfg, job, st, scope, fs, Posted(s.db, job.Key()))
    case Posting(job, st, scope, todo) =>
      if todo == [] then Summarizing(job, st, scope) else Recording(job, st, scope, todo[0], todo[1..])
    case Recording(job, st, scope, _, todo) => AfterPosts(job, st, scope, todo)
    case Summarizing(job, st, scope) =>
      if EditsSummary(st) then SavingSummary(job, st, scope)
      else SavingSummary(job, st.(summaryId := r.id, summaryCycle := st.cycle + 1), scope)
    case SavingSummary(job, st, scope) => SavingCycle(job, st, scope)
    case SavingCycle(job, _, _) => Finishing(job, true)
    case Finishing(job, ok) => AfterFinish(cfg, job, ok)
    case Reporting(_) => Ready
  }

  /** Where the worker goes when an I/O step reports an error: a rejected comment is skipped, a
      failed Finish or report is only logged, and without eligible findings no query is made that
      could fail; anything else fails the job. */
  function ErrorPc(cfg: Cfg, pc: Pc): Pc
    requires !pc.Ready?
  {
    var fail := Finishing(pc.job, false);
    match pc
    case Selecting(job, st, scope, fs) =>
      if Collect(cfg.digest, cfg.minSeverity, fs).fps == [] then Summarizing(job, st, scope) else fail
    case Posting(job, st, scope, todo) => AfterPosts(job, st, scope, if todo == [] then [] else todo[1..])
    case Finishing(job, ok) => AfterFinish(cfg, job, ok)
    case Reporting(_) => Ready
    case _ => fail
  }

  /** The history of an I/O step: what took effect, then what was lost with the acknowledgement. */
  function IoLog(cfg: Cfg, s: Sys, o: Outcome): seq<Entry>
    requires !s.pc.Ready?
  {
    var key, id := s.pc.job.Key(), s.pc.job.delivery.id;
    match s.pc
    case Resetting(_) => if o.Applied() then [ResetDone(key, id)] else []
    case Noticing(_, _) => Call(o, NoticePosted(key), NoticeUnsaved(key))
    case SavingNotice(_, _) => if o.Applied() then [] else [NoticeUnsaved(key)]
    case Posting(_, _, _, todo) =>
      if todo == [] then [] else Call(o, Accepted(key, todo[0]), Unrecorded(key, todo[0]))
    case Recording(_, _, _, fp, _) => if o.Applied() then [Recorded(key, fp)] else [Unrecorded(key, fp)]
    case Summarizing(_, st, _) =>
      if EditsSummary(st) then []
      else Call(o, SummaryPosted(key, st.cycle + 1), SummaryUnsaved(key, st.cycle + 1))
    case SavingSummary(_, st, _) => if o.Applied() then [] else LostSummary(s.db, key, st)
    case SavingCycle(job, _, scope) =>
      Call(o, PassDone(key, id, job.delivery.head, scope), PassUnacked(key, id))
    case Finishing(job, ok) =>
      if o.Applied() then []
      else [Orphaned(key, id)] + if AfterFinish(cfg, job, ok).Reporting? then [DeathUnsaved(key, id)] else []
    case Reporting(_) => if o.Applied() then [FailureNote(key, id)] else [NoteLost(key, id)]
    case _ => []
  }

  function Call(o: Outcome, effect: Entry, lost: Entry): seq<Entry> {
    match o
    case Acked => [effect]
    case Unacked => [effect, lost]
    case Refused => []
  }

  function LostSummary(db: Db, key: string, st: PRState): seq<Entry> {
    if Budget(db, key).summaryCycle < st.cycle + 1 then [SummaryUnsaved(key, st.cycle + 1)] else []
  }

  /** What a loss of memory at this point means for the history. */
  function CrashLog(s: Sys): seq<Entry> {
    if s.pc.Ready? then []
    else if s.pc.Reporting? then [NoteLost(s.pc.job.Key(), s.pc.job.delivery.id)]
    else
      var key := s.pc.job.Key();
      [Orphaned(key, s.pc.job.delivery.id)] +
      match s.pc
      case Recording(_, _, _, fp, _) => [Unrecorded(key, fp)]
      case SavingNotice(_, _) => [NoticeUnsaved(key)]
      case SavingSummary(_, st, _) => LostSummary(s.db, key, st)
      case _ => []
  }

  function ClaimedJob(jobs: seq<Row>, i: nat): Job
    requires i < |jobs|
  {
    Job(i, jobs[i].delivery, jobs[i].attempts + 1)
  }

  function NextDb(cfg: Cfg, s: Sys, a: Action): Db
    requires Enabled(cfg, s, a)
  {
    match a
    case Arrive(d) => s.db.(jobs := Enqueue(s.db.jobs, d))
    case Claim(_) => s.db.(jobs := ClaimRow(s.db.jobs, Head(s.db.jobs).value))
    case Io(o, _) => if o.Applied() then IoDb(cfg, s) else s.db
    case Crash => s.db
  }

  function NextPc(cfg: Cfg, s: Sys, a: Action): Pc
    requires Enabled(cfg, s, a)
  {
    match a
    case Arrive(_) => s.pc
    case Claim(acked) =>
      if acked then AfterClaim(cfg, ClaimedJob(s.db.jobs, Head(s.db.jobs).value)) else Ready
    case Io(o, r) => if o.Acked? then AckedPc(cfg, s, r) else ErrorPc(cfg, s.pc)
    case Crash => Ready
  }

  function Added(cfg: Cfg, s: Sys, a: Action): seq<Entry>
    requires Enabled(cfg, s, a)
  {
    match a
    case Arrive(_) => []
    case Claim(acked) =>
      var d := s.db.jobs[Head(s.db.jobs).value].delivery;
      if acked then [] else [Orphaned(d.Key(), d.id)]
    case Io(o, _) => IoLog(cfg, s, o)
    case Crash => CrashLog(s)
  }

  function Step(cfg: Cfg, s: Sys, a: Action): Sys
    requires Enabled(cfg, s, a)
  {
    Sys(NextDb(cfg, s, a), NextPc(cfg, s, a), s.log + Added(cfg, s, a))
  }

  /** The step ends a reset epoch of `key`. */
  predicate ResetsKey(s: Sys, a: Action, key: string) {
    a.Io? && a.outcome.Applied() && s.pc.Resetting? && s.pc.job.Key() == key
  }

  /** The state after a run from the empty database, if every step was possible. */
  function Exec(cfg: Cfg, run: seq<Action>): Option<Sys> {
    if run == [] then Some(INIT)
    else
      match Exec(cfg, run[..|run| - 1])
      case None => None
      case Some(s) =>
        if Enabled(cfg, s, run[|run| - 1]) then Some(Step(cfg, s, run[|run| - 1])) else None
  }

  ghost predicate Reaches(cfg: Cfg, run: seq<Action>, s: Sys) {
    Exec(cfg, run) == Some(s)
  }

  lemma ExecAppend(cfg: Cfg, run: seq<Action>, a: Action)
    requires Exec(cfg, run).Some? && Enabled(cfg, Exec(cfg, run).value, a)
    ensures Exec(cfg, run + [a]) == Some(Step(cfg, Exec(cfg, run).value, a))
  {
    assert (run + [a])[..|run|] == run;
  }
}
