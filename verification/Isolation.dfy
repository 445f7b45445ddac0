/** Pull requests do not disturb each other: what a whole interleaved run leaves behind for one
    of them is what a run of its own deliveries alone leaves behind. */
module Isolation {
  import opened Basics
  import opened Tables
  import opened Selection
  import opened Machine
  import opened History
  import opened Safety

  // ----- one pull request's part of a state -----

  /** The elements that satisfy `p`, in order. */
  function Select<T>(xs: seq<T>, p: T -> bool): seq<T> {
    if xs == [] then []
    else Select(xs[..|xs| - 1], p) + if p(xs[|xs| - 1]) then [xs[|xs| - 1]] else []
  }

  function RowOf(key: string): Row -> bool {
    (row: Row) => row.delivery.Key() == key
  }

  function EntryOf(key: string): Entry -> bool {
    (x: Entry) => x.key == key
  }

  /** The rows of one pull request, in queue order. */
  function Sub(jobs: seq<Row>, key: string): seq<Row> {
    Select(jobs, RowOf(key))
  }

  /** The position that row `i` has among them. */
  function Place(jobs: seq<Row>, key: string, i: nat): nat
    requires i <= |jobs|
  {
    |Sub(jobs[..i], key)|
  }

  function Filter(log: seq<Entry>, key: string): seq<Entry> {
    Select(log, EntryOf(key))
  }

  function Only<T>(m: map<string, T>, key: string): map<string, T> {
    if key in m then map[key := m[key]] else map[]
  }

  function Move(pc: Pc, id: nat): Pc {
    if pc.Ready? then Ready else pc.(job := pc.job.(id := id))
  }

  function ViewPc(s: Sys, key: string): Pc {
    if !s.pc.Ready? && s.pc.job.Key() == key && s.pc.job.id <= |s.db.jobs|
    then Move(s.pc, Place(s.db.jobs, key, s.pc.job.id)) else Ready
  }

  /** What the state holds about one pull request. */
  function View(s: Sys, key: string): Sys {
    Sys(Db(Sub(s.db.jobs, key), Only(s.db.reviews, key), Only(s.db.posted, key)),
        ViewPc(s, key), Filter(s.log, key))
  }

  // ----- its part of a run -----

  predicate Concerns(s: Sys, a: Action, key: string) {
    match a
    case Arrive(d) => d.Key() == key && !Known(s.db.jobs, d.id)
    case Claim(_) => Head(s.db.jobs).Some? && s.db.jobs[Head(s.db.jobs).value].delivery.Key() == key
    case _ => !s.pc.Ready? && s.pc.job.Key() == key
  }

  function Project(cfg: Cfg, run: seq<Action>, key: string): seq<Action> {
    if run == [] then []
    else
      var front, a := run[..|run| - 1], run[|run| - 1];
      match Exec(cfg, front)
      case None => Project(cfg, front, key)
      case Some(s) => Project(cfg, front, key) + if Concerns(s, a, key) then [a] else []
  }

  // ----- the rows -----

  lemma {:induction false} SelectPrefix<T>(xs: seq<T>, p: T -> bool, i: nat)
    requires i < |xs|
    ensures Select(xs[..i], p) <= Select(xs, p)
    ensures p(xs[i]) ==> |Select(xs[..i], p)| < |Select(xs, p)| && Select(xs, p)[|Select(xs[..i], p)|] == xs[i]
  {
    var front := xs[..|xs| - 1];
    if i < |front| {
      SelectPrefix(front, p, i);
      assert front[..i] == xs[..i];
    }
  }

  lemma {:induction false} SelectMember<T>(xs: seq<T>, p: T -> bool, x: T)
    requires x in Select(xs, p)
    ensures x in xs
  {
    if x in Select(xs[..|xs| - 1], p) {
      SelectMember(xs[..|xs| - 1], p, x);
    }
  }

  lemma SelectAppend<T>(xs: seq<T>, p: T -> bool, x: T)
    ensures Select(xs + [x], p) == Select(xs, p) + if p(x) then [x] else []
  {
    assert (xs + [x])[..|xs|] == xs;
  }

  lemma FrontOfUpdate<T>(xs: seq<T>, i: nat, x: T)
    requires i < |xs|
    ensures xs[i := x] == if i < |xs| - 1 then xs[..|xs| - 1][i := x] + [xs[|xs| - 1]] else xs[..|xs| - 1] + [x]
    ensures xs == xs[..|xs| - 1] + [xs[|xs| - 1]]
    ensures i < |xs| - 1 ==> xs[..|xs| - 1][..i] == xs[..i]
  {
  }

  /** An element changes in the selection exactly where it changes in the sequence. */
  lemma {:induction false} SelectUpdate<T>(xs: seq<T>, p: T -> bool, i: nat, x: T)
    requires i < |xs| && p(x) == p(xs[i])
    ensures !p(x) ==> Select(xs[i := x], p) == Select(xs, p)
    ensures p(x) ==> |Select(xs[..i], p)| < |Select(xs, p)|
                     && Select(xs[i := x], p) == Select(xs, p)[|Select(xs[..i], p)| := x]
  {
    var front, last := xs[..|xs| - 1], xs[|xs| - 1];
    FrontOfUpdate(xs, i, x);
    SelectAppend(front, p, last);
    if i < |front| {
      SelectUpdate(front, p, i, x);
      SelectAppend(front[i := x], p, last);
    } else {
      SelectAppend(front, p, x);
    }
  }

  lemma SubPrefix(jobs: seq<Row>, key: string, i: nat)
    requires i < |jobs| && jobs[i].delivery.Key() == key
    ensures Sub(jobs[..i], key) <= Sub(jobs, key)
    ensures Place(jobs, key, i) < |Sub(jobs, key)| && Sub(jobs, key)[Place(jobs, key, i)] == jobs[i]
  {
    SelectPrefix(jobs, RowOf(key), i);
  }

  lemma SubOther(jobs: seq<Row>, key: string, i: nat, row: Row)
    requires i < |jobs| && row.delivery == jobs[i].delivery && row.delivery.Key() != key
    ensures Sub(jobs[i := row], key) == Sub(jobs, key)
  {
    SelectUpdate(jobs, RowOf(key), i, row);
  }

  lemma SubOwn(jobs: seq<Row>, key: string, i: nat, row: Row)
    requires i < |jobs| && row.delivery == jobs[i].delivery && row.delivery.Key() == key
    ensures Place(jobs, key, i) < |Sub(jobs, key)|
    ensures Sub(jobs[i := row], key) == Sub(jobs, key)[Place(jobs, key, i) := row]
  {
    SelectUpdate(jobs, RowOf(key), i, row);
  }

  lemma HeadAt(jobs: seq<Row>, h: nat)
    requires h < |jobs| && !jobs[h].state.Terminal()
    requires forall i | 0 <= i < h :: jobs[i].state.Terminal()
    ensures Head(jobs) == Some(h)
  {
  }

  /** The oldest runnable row of the queue is the oldest one of its pull request. */
  lemma SubHead(jobs: seq<Row>, key: string, h: nat)
    requires Head(jobs) == Some(h) && jobs[h].delivery.Key() == key
    ensures Head(Sub(jobs, key)) == Some(Place(jobs, key, h))
    ensures Sub(jobs, key)[Place(jobs, key, h)] == jobs[h]
  {
    SubPrefix(jobs, key, h);
    var p := Place(jobs, key, h);
    forall i | 0 <= i < p ensures Sub(jobs, key)[i].state.Terminal() {
      var row := Sub(jobs[..h], key)[i];
      assert row in Sub(jobs[..h], key);
      SelectMember(jobs[..h], RowOf(key), row);
    }
    HeadAt(Sub(jobs, key), p);
  }

  lemma SubAppend(jobs: seq<Row>, row: Row, key: string)
    ensures Sub(jobs + [row], key) == Sub(jobs, key) + if row.delivery.Key() == key then [row] else []
  {
    SelectAppend(jobs, RowOf(key), row);
  }

  // ----- the history -----

  lemma {:induction false} SelectJoin<T>(xs: seq<T>, ys: seq<T>, p: T -> bool)
    ensures (forall y | y in ys :: p(y)) ==> Select(xs + ys, p) == Select(xs, p) + ys
    ensures (forall y | y in ys :: !p(y)) ==> Select(xs + ys, p) == Select(xs, p)
  {
    if ys == [] {
      assert xs + ys == xs;
    } else {
      var front, last := ys[..|ys| - 1], ys[|ys| - 1];
      SelectJoin(xs, front, p);
      SelectAppend(xs + front, p, last);
      assert xs + ys == (xs + front) + [last] && ys == front + [last];
    }
  }

  lemma IoLogKey(cfg: Cfg, s: Sys, o: Outcome)
    requires !s.pc.Ready?
    ensures forall k | 0 <= k < |IoLog(cfg, s, o)| :: IoLog(cfg, s, o)[k].key == s.pc.job.Key()
  {
  }

  lemma CrashLogKey(s: Sys)
    ensures CrashLog(s) != [] ==> !s.pc.Ready?
    ensures forall k | 0 <= k < |CrashLog(s)| :: CrashLog(s)[k].key == s.pc.job.Key()
  {
  }

  lemma AddedKey(cfg: Cfg, s: Sys, a: Action, x: Entry)
    requires Enabled(cfg, s, a) && x in Added(cfg, s, a)
    ensures x.key == if a.Claim? then s.db.jobs[Head(s.db.jobs).value].delivery.Key() else s.pc.job.Key()
    ensures !a.Arrive? && (!a.Claim? ==> !s.pc.Ready?)
  {
    var k :| 0 <= k < |Added(cfg, s, a)| && Added(cfg, s, a)[k] == x;
    if a.Io? {
      IoLogKey(cfg, s, a.outcome);
    } else if a.Crash? {
      CrashLogKey(s);
    }
  }

  lemma LogView(cfg: Cfg, s: Sys, a: Action, key: string)
    requires Enabled(cfg, s, a)
    ensures Filter(Step(cfg, s, a).log, key)
         == Filter(s.log, key) + if Concerns(s, a, key) then Added(cfg, s, a) else []
  {
    var xs := Added(cfg, s, a);
    StepShape(cfg, s, a, key);
    forall x | x in xs ensures EntryOf(key)(x) <==> Concerns(s, a, key) {
      AddedKey(cfg, s, a, x);
    }
    SelectJoin(s.log, xs, EntryOf(key));
    assert Filter(s.log, key) + [] == Filter(s.log, key);
  }

  // ----- steps of other pull requests -----

  lemma OtherArrival(cfg: Cfg, s: Sys, d: Delivery, key: string)
    requires Safe(cfg, s) && d.head != "" && !Concerns(s, Arrive(d), key)
    ensures View(Step(cfg, s, Arrive(d)), key) == View(s, key)
  {
    var jobs, t := s.db.jobs, Step(cfg, s, Arrive(d));
    LogView(cfg, s, Arrive(d), key);
    if !Known(jobs, d.id) {
      SubAppend(jobs, Row(d, Queued, 0), key);
      assert Sub(t.db.jobs, key) == Sub(jobs, key);
    }
    assert !s.pc.Ready? ==> t.db.jobs[..s.pc.job.id] == jobs[..s.pc.job.id];
    assert ViewPc(t, key) == ViewPc(s, key);
  }

  lemma OtherIo(cfg: Cfg, s: Sys, o: Outcome, r: Reply, key: string)
    requires Safe(cfg, s) && Enabled(cfg, s, Io(o, r)) && s.pc.job.Key() != key
    ensures View(Step(cfg, s, Io(o, r)), key) == View(s, key)
  {
    LogView(cfg, s, Io(o, r), key);
    IoJobs(cfg, s, o, r);
    IoTables(cfg, s);
    if s.pc.Finishing? {
      var id := s.pc.job.id;
      SubOther(s.db.jobs, key, id, s.db.jobs[id].(state := Verdict(cfg, s.pc.job, s.pc.ok)));
    }
  }

  lemma IoTables(cfg: Cfg, s: Sys)
    requires !s.pc.Ready?
    ensures forall k | k != s.pc.job.Key() ::
              && Only(IoDb(cfg, s).reviews, k) == Only(s.db.reviews, k)
              && Only(IoDb(cfg, s).posted, k) == Only(s.db.posted, k)
  {
  }

  lemma OtherClaim(cfg: Cfg, s: Sys, acked: bool, key: string)
    requires Safe(cfg, s) && Enabled(cfg, s, Claim(acked)) && !Concerns(s, Claim(acked), key)
    ensures View(Step(cfg, s, Claim(acked)), key) == View(s, key)
  {
    LogView(cfg, s, Claim(acked), key);
    var h := Head(s.db.jobs).value;
    SubOther(s.db.jobs, key, h, ClaimRow(s.db.jobs, h)[h]);
  }

  /** A step that does not concern a pull request changes nothing that is stored about it. */
  lemma OtherStep(cfg: Cfg, s: Sys, a: Action, key: string)
    requires Safe(cfg, s) && Enabled(cfg, s, a) && !Concerns(s, a, key)
    ensures View(Step(cfg, s, a), key) == View(s, key)
  {
    match a
    case Arrive(d) => OtherArrival(cfg, s, d, key);
    case Claim(acked) => OtherClaim(cfg, s, acked, key);
    case Io(o, r) => OtherIo(cfg, s, o, r, key);
    case Crash => LogView(cfg, s, a, key);
  }

  // ----- its own steps -----

  lemma OwnArrival(cfg: Cfg, s: Sys, d: Delivery, key: string)
    requires Safe(cfg, s) && d.head != "" && Concerns(s, Arrive(d), key)
    ensures View(Step(cfg, s, Arrive(d)), key) == Step(cfg, View(s, key), Arrive(d))
  {
    LogView(cfg, s, Arrive(d), key);
    SubAppend(s.db.jobs, Row(d, Queued, 0), key);
    forall i | 0 <= i < |Sub(s.db.jobs, key)| ensures Sub(s.db.jobs, key)[i].delivery.id != d.id {
      SelectMember(s.db.jobs, RowOf(key), Sub(s.db.jobs, key)[i]);
    }
    var t := Step(cfg, s, Arrive(d));
    if !s.pc.Ready? {
      assert t.db.jobs[..s.pc.job.id] == s.db.jobs[..s.pc.job.id];
    }
    var v := View(s, key);
    assert v.log + [] == v.log;
  }

  lemma MovedClaim(cfg: Cfg, job: Job, id: nat)
    ensures AfterClaim(cfg, job.(id := id)) == Move(AfterClaim(cfg, job), id)
    ensures AfterClaim(cfg, job).job == job
  {
  }

  lemma OwnClaimRows(s: Sys, key: string, h: nat)
    requires Head(s.db.jobs) == Some(h) && s.db.jobs[h].delivery.Key() == key
    ensures var v, p := View(s, key), Place(s.db.jobs, key, h);
      && Head(v.db.jobs) == Some(p) && v.db.jobs[p] == s.db.jobs[h]
      && Sub(ClaimRow(s.db.jobs, h), key) == ClaimRow(v.db.jobs, p)
      && Place(ClaimRow(s.db.jobs, h), key, h) == p
  {
    SubHead(s.db.jobs, key, h);
    SubOwn(s.db.jobs, key, h, ClaimRow(s.db.jobs, h)[h]);
    assert ClaimRow(s.db.jobs, h)[..h] == s.db.jobs[..h];
  }

  lemma OwnClaimPc(cfg: Cfg, jobs: seq<Row>, h: nat, subs: seq<Row>, p: nat)
    requires h < |jobs| && p < |subs| && subs[p] == jobs[h]
    ensures AfterClaim(cfg, ClaimedJob(subs, p)) == Move(AfterClaim(cfg, ClaimedJob(jobs, h)), p)
    ensures AfterClaim(cfg, ClaimedJob(jobs, h)).job == ClaimedJob(jobs, h)
    ensures !AfterClaim(cfg, ClaimedJob(jobs, h)).Ready?
  {
    MovedClaim(cfg, ClaimedJob(jobs, h), p);
  }

  lemma OwnClaimDb(cfg: Cfg, s: Sys, acked: bool, key: string, h: nat)
    requires Head(s.db.jobs) == Some(h) && s.db.jobs[h].delivery.Key() == key && s.pc.Ready?
    ensures Enabled(cfg, View(s, key), Claim(acked))
    ensures View(Step(cfg, s, Claim(acked)), key).db == NextDb(cfg, View(s, key), Claim(acked))
  {
    OwnClaimRows(s, key, h);
  }

  lemma OwnClaimViewPc(cfg: Cfg, s: Sys, acked: bool, key: string, h: nat)
    requires Head(s.db.jobs) == Some(h) && s.db.jobs[h].delivery.Key() == key && s.pc.Ready?
    requires Enabled(cfg, View(s, key), Claim(acked))
    ensures ViewPc(Step(cfg, s, Claim(acked)), key) == NextPc(cfg, View(s, key), Claim(acked))
  {
    OwnClaimRows(s, key, h);
    OwnClaimPc(cfg, s.db.jobs, h, Sub(s.db.jobs, key), Place(s.db.jobs, key, h));
  }

  lemma OwnClaimLog(cfg: Cfg, s: Sys, acked: bool, key: string, h: nat)
    requires Head(s.db.jobs) == Some(h) && s.db.jobs[h].delivery.Key() == key && s.pc.Ready?
    requires Enabled(cfg, View(s, key), Claim(acked))
    ensures Added(cfg, View(s, key), Claim(acked)) == Added(cfg, s, Claim(acked))
  {
    OwnClaimRows(s, key, h);
  }

  lemma OwnClaim(cfg: Cfg, s: Sys, acked: bool, key: string)
    requires Safe(cfg, s) && Enabled(cfg, s, Claim(acked)) && Concerns(s, Claim(acked), key)
    ensures Enabled(cfg, View(s, key), Claim(acked))
    ensures View(Step(cfg, s, Claim(acked)), key) == Step(cfg, View(s, key), Claim(acked))
  {
    var h := Head(s.db.jobs).value;
    LogView(cfg, s, Claim(acked), key);
    OwnClaimDb(cfg, s, acked, key, h);
    OwnClaimViewPc(cfg, s, acked, key, h);
    OwnClaimLog(cfg, s, acked, key, h);
  }

  predicate BeforePosts(pc: Pc) {
    pc.Resetting? || pc.Reading? || pc.Noticing? || pc.SavingNotice? || pc.Fetching? || pc.Reviewing? || pc.Selecting?
  }

  predicate Commenting(pc: Pc) {
    pc.Posting? || pc.Recording? || pc.Summarizing?
  }

  lemma MovedAfterPosts(job: Job, st: PRState, scope: Scope, todo: seq<string>, id: nat)
    ensures AfterPosts(job.(id := id), st, scope, todo) == Move(AfterPosts(job, st, scope, todo), id)
  {
  }

  lemma MovedSelect(cfg: Cfg, job: Job, id: nat, st: PRState, scope: Scope, fs: seq<Finding>, seen: set<string>)
    ensures AfterSelect(cfg, job.(id := id), st, scope, fs, seen)
         == Move(AfterSelect(cfg, job, st, scope, fs, seen), id)
  {
    MovedAfterPosts(job, st, scope, Attempted(cfg.digest, cfg.minSeverity, cfg.maxComments, fs, seen), id);
  }

  lemma MovedSelection(cfg: Cfg, s: Sys, v: Sys, id: nat, r: Reply)
    requires s.pc.Selecting? && v.pc == Selecting(s.pc.job.(id := id), s.pc.st, s.pc.scope, s.pc.findings)
    requires Posted(v.db, v.pc.job.Key()) == Posted(s.db, s.pc.job.Key())
    ensures AckedPc(cfg, v, r) == Move(AckedPc(cfg, s, r), id)
  {
    MovedSelect(cfg, s.pc.job, id, s.pc.st, s.pc.scope, s.pc.findings, Posted(s.db, s.pc.job.Key()));
  }

  lemma MovedEarly(cfg: Cfg, s: Sys, v: Sys, id: nat, r: Reply)
    requires BeforePosts(s.pc) && !s.pc.Selecting? && v.pc == Move(s.pc, id) && ReplyFits(s.pc, Acked, r)
    requires Budget(v.db, v.pc.job.Key()) == Budget(s.db, s.pc.job.Key())
    ensures ReplyFits(v.pc, Acked, r) && AckedPc(cfg, v, r) == Move(AckedPc(cfg, s, r), id)
  {
  }

  lemma MovedComments(cfg: Cfg, s: Sys, v: Sys, id: nat, r: Reply)
    requires Commenting(s.pc) && v.pc == Move(s.pc, id) && ReplyFits(s.pc, Acked, r)
    ensures ReplyFits(v.pc, Acked, r) && AckedPc(cfg, v, r) == Move(AckedPc(cfg, s, r), id)
  {
  }

  lemma MovedLate(cfg: Cfg, s: Sys, v: Sys, id: nat, r: Reply)
    requires !s.pc.Ready? && !BeforePosts(s.pc) && !Commenting(s.pc)
    requires v.pc == Move(s.pc, id) && ReplyFits(s.pc, Acked, r)
    ensures ReplyFits(v.pc, Acked, r) && AckedPc(cfg, v, r) == Move(AckedPc(cfg, s, r), id)
  {
  }

  /** The worker decides alike on the view: decisions read only its own budget and comments. */
  lemma MovedPc(cfg: Cfg, s: Sys, v: Sys, id: nat, r: Reply)
    requires !s.pc.Ready? && v.pc == Move(s.pc, id) && ReplyFits(s.pc, Acked, r)
    requires Budget(v.db, s.pc.job.Key()) == Budget(s.db, s.pc.job.Key())
    requires Posted(v.db, s.pc.job.Key()) == Posted(s.db, s.pc.job.Key())
    ensures ReplyFits(v.pc, Acked, r) && AckedPc(cfg, v, r) == Move(AckedPc(cfg, s, r), id)
  {
    assert v.pc.job.Key() == s.pc.job.Key();
    if s.pc.Selecting? {
      MovedSelection(cfg, s, v, id, r);
    } else if BeforePosts(s.pc) {
      MovedEarly(cfg, s, v, id, r);
    } else if Commenting(s.pc) {
      MovedComments(cfg, s, v, id, r);
    } else {
      MovedLate(cfg, s, v, id, r);
    }
  }

  lemma MovedError(cfg: Cfg, pc: Pc, id: nat, o: Outcome, r: Reply)
    requires !pc.Ready?
    ensures ReplyFits(pc, o, r) <==> ReplyFits(Move(pc, id), o, r)
    ensures ErrorPc(cfg, Move(pc, id)) == Move(ErrorPc(cfg, pc), id)
  {
  }

  lemma MovedFinishLog(cfg: Cfg, s: Sys, v: Sys, id: nat, o: Outcome)
    requires (s.pc.Finishing? || s.pc.SavingSummary?) && v.pc == Move(s.pc, id)
    requires Budget(v.db, s.pc.job.Key()) == Budget(s.db, s.pc.job.Key())
    ensures IoLog(cfg, v, o) == IoLog(cfg, s, o)
  {
  }

  lemma MovedLog(cfg: Cfg, s: Sys, v: Sys, id: nat, o: Outcome)
    requires !s.pc.Ready? && v.pc == Move(s.pc, id)
    requires Budget(v.db, s.pc.job.Key()) == Budget(s.db, s.pc.job.Key())
    ensures IoLog(cfg, v, o) == IoLog(cfg, s, o)
  {
    if s.pc.Finishing? || s.pc.SavingSummary? {
      MovedFinishLog(cfg, s, v, id, o);
    }
  }

  lemma MovedCrashLog(s: Sys, v: Sys, id: nat)
    requires !s.pc.Ready? && v.pc == Move(s.pc, id)
    requires Budget(v.db, s.pc.job.Key()) == Budget(s.db, s.pc.job.Key())
    ensures CrashLog(v) == CrashLog(s)
  {
  }

  /** What a write leaves of one key's entry in a table. */
  lemma OnlyWrites<T>(m: map<string, T>, key: string, x: T)
    ensures Only(m[key := x], key) == map[key := x] == Only(m, key)[key := x]
    ensures Only(m - {key}, key) == map[] == Only(m, key) - {key}
  {
  }

  lemma RowsWritten(cfg: Cfg, s: Sys)
    requires !s.pc.Ready?
    ensures IoDb(cfg, s).jobs ==
            if s.pc.Finishing? then SetState(s.db.jobs, s.pc.job.id, Verdict(cfg, s.pc.job, s.pc.ok)) else s.db.jobs
  {
  }

  lemma OwnRows(cfg: Cfg, s: Sys, v: Sys, key: string)
    requires QueueOk(s) && !s.pc.Ready? && s.pc.job.Key() == key
    requires v.pc == Move(s.pc, Place(s.db.jobs, key, s.pc.job.id)) && v.db.jobs == Sub(s.db.jobs, key)
    ensures Sub(IoDb(cfg, s).jobs, key) == IoDb(cfg, v).jobs
  {
    RowsWritten(cfg, s);
    RowsWritten(cfg, v);
    if s.pc.Finishing? {
      var id, jobs := s.pc.job.id, s.db.jobs;
      SubPrefix(jobs, key, id);
      SubOwn(jobs, key, id, jobs[id].(state := Verdict(cfg, s.pc.job, s.pc.ok)));
    }
  }

  lemma OwnTables(cfg: Cfg, s: Sys, v: Sys, id: nat, key: string)
    requires !s.pc.Ready? && s.pc.job.Key() == key && v.pc == Move(s.pc, id)
    requires v.db.reviews == Only(s.db.reviews, key) && v.db.posted == Only(s.db.posted, key)
    ensures Only(IoDb(cfg, s).reviews, key) == IoDb(cfg, v).reviews
    ensures Only(IoDb(cfg, s).posted, key) == IoDb(cfg, v).posted
  {
    var job := s.pc.job.(id := id);
    assert job.Key() == key && v.pc.job == job;
    match s.pc
    case Resetting(_) =>
      assert v.pc == Resetting(job);
      OnlyWrites(s.db.reviews, key, NEW_PR);
      OnlyWrites(s.db.posted, key, {});
    case SavingNotice(_, st) =>
      assert v.pc == SavingNotice(job, st);
      OnlyWrites(s.db.reviews, key, st);
    case SavingSummary(_, st, scope) =>
      assert v.pc == SavingSummary(job, st, scope);
      OnlyWrites(s.db.reviews, key, st);
    case SavingCycle(_, st, scope) =>
      assert v.pc == SavingCycle(job, st, scope);
      OnlyWrites(s.db.reviews, key, st.(cycle := st.cycle + 1, lastReviewed := job.delivery.head));
    case Recording(_, st, scope, fp, todo) =>
      assert v.pc == Recording(job, st, scope, fp, todo);
      OnlyWrites(s.db.posted, key, Posted(s.db, key) + {fp});
    case _ =>
  }

  lemma OwnIoPc(cfg: Cfg, s: Sys, o: Outcome, r: Reply, key: string)
    requires Safe(cfg, s) && Enabled(cfg, s, Io(o, r)) && s.pc.job.Key() == key
    ensures Enabled(cfg, View(s, key), Io(o, r))
    ensures ViewPc(Step(cfg, s, Io(o, r)), key) == NextPc(cfg, View(s, key), Io(o, r))
  {
    var v, t, id := View(s, key), Step(cfg, s, Io(o, r)), Place(s.db.jobs, key, s.pc.job.id);
    IoJobs(cfg, s, o, r);
    assert t.db.jobs[..s.pc.job.id] == s.db.jobs[..s.pc.job.id];
    MovedError(cfg, s.pc, id, o, r);
    if o.Acked? {
      MovedPc(cfg, s, v, id, r);
    }
  }

  lemma OwnIoDb(cfg: Cfg, s: Sys, o: Outcome, r: Reply, key: string)
    requires Safe(cfg, s) && Enabled(cfg, s, Io(o, r)) && s.pc.job.Key() == key
    requires Enabled(cfg, View(s, key), Io(o, r))
    ensures View(Step(cfg, s, Io(o, r)), key).db == NextDb(cfg, View(s, key), Io(o, r))
  {
    var v := View(s, key);
    OwnRows(cfg, s, v, key);
    OwnTables(cfg, s, v, Place(s.db.jobs, key, s.pc.job.id), key);
  }

  lemma OwnIo(cfg: Cfg, s: Sys, o: Outcome, r: Reply, key: string)
    requires Safe(cfg, s) && Enabled(cfg, s, Io(o, r)) && s.pc.job.Key() == key
    ensures Enabled(cfg, View(s, key), Io(o, r))
    ensures View(Step(cfg, s, Io(o, r)), key) == Step(cfg, View(s, key), Io(o, r))
  {
    OwnIoPc(cfg, s, o, r, key);
    OwnIoDb(cfg, s, o, r, key);
    LogView(cfg, s, Io(o, r), key);
    MovedLog(cfg, s, View(s, key), Place(s.db.jobs, key, s.pc.job.id), o);
  }

  /** A step that concerns a pull request is the same step on the view. */
  lemma OwnStep(cfg: Cfg, s: Sys, a: Action, key: string)
    requires Safe(cfg, s) && Enabled(cfg, s, a) && Concerns(s, a, key)
    ensures Enabled(cfg, View(s, key), a) && View(Step(cfg, s, a), key) == Step(cfg, View(s, key), a)
  {
    match a
    case Arrive(d) => OwnArrival(cfg, s, d, key);
    case Claim(acked) => OwnClaim(cfg, s, acked, key);
    case Io(o, r) => OwnIo(cfg, s, o, r, key);
    case Crash =>
      LogView(cfg, s, a, key);
      MovedCrashLog(s, View(s, key), Place(s.db.jobs, key, s.pc.job.id));
  }

  lemma SameTables(s: Sys, key: string)
    ensures Budget(View(s, key).db, key) == Budget(s.db, key)
    ensures Posted(View(s, key).db, key) == Posted(s.db, key)
  {
  }

  /** Every interleaved run, seen from one pull request, is a run of that pull request alone, and
      its stored budget and comments are those of that run. */
  lemma {:induction false} RunsAlone(cfg: Cfg, run: seq<Action>, s: Sys, key: string)
    requires Reaches(cfg, run, s)
    ensures Reaches(cfg, Project(cfg, run, key), View(s, key))
    ensures Budget(View(s, key).db, key) == Budget(s.db, key)
    ensures Posted(View(s, key).db, key) == Posted(s.db, key)
  {
    SameTables(s, key);
    if run != [] {
      var front, a := run[..|run| - 1], run[|run| - 1];
      var p := Exec(cfg, front).value;
      RunsAlone(cfg, front, p, key);
      AlwaysSafe(cfg, front, p);
      if Concerns(p, a, key) {
        OwnStep(cfg, p, a, key);
        ExecAppend(cfg, Project(cfg, front, key), a);
      } else {
        OtherStep(cfg, p, a, key);
        assert Project(cfg, front, key) + [] == Project(cfg, front, key);
      }
    }
  }
}
