/** Webhook intake: which deliveries become jobs, under which idempotency key, and what the queue
    holds after any sequence of them. */
module Webhook {
  import opened Basics
  import opened Keys
  import opened Tables
  import opened DurableStore

  // ----- deliveries, already verified and decoded -----

  datatype GitHubHook = GitHubHook(
    event: string, action: string, number: int, prNumber: int, head: string, base: string, repo: string)

  datatype GitLabHook = GitLabHook(
    event: string, action: string, oldRev: string, iid: int, diffHead: string, diffBase: string,
    lastCommit: string, project: string)

  datatype Intake = Accept(delivery: Delivery) | Ignore | Malformed

  function GitHubEvent(action: string): Option<Event> {
    if action == "reopened" then Some(Reopened)
    else if action == "opened" || action == "ready_for_review" then Some(Opened)
    else if action == "synchronize" then Some(Synchronize)
    else None
  }

  function GitHubJob(h: GitHubHook): (r: Intake)
    ensures r.Accept? ==> r.delivery.head != "" && Keyed(r.delivery)
    ensures r.Accept? <==>
              && h.event == "pull_request" && h.head != ""
              && (h.action == "opened" || h.action == "ready_for_review"
                  || h.action == "reopened" || h.action == "synchronize")
    ensures r.Ignore? <==>
              || h.event != "pull_request"
              || h.action !in {"opened", "ready_for_review", "reopened", "synchronize"}
    ensures r.Malformed? ==> h.head == ""
    ensures r.Accept? ==>
              var d := r.delivery;
              && d.provider == "github" && d.repo == h.repo && d.head == h.head && d.base == h.base
              && (h.prNumber != 0 ==> d.number == h.prNumber) && (h.prNumber == 0 ==> d.number == h.number)
              && (d.event.Reopened? <==> h.action == "reopened")
              && (d.event.Synchronize? <==> h.action == "synchronize")
  {
    if h.event != "pull_request" then Ignore
    else
      match GitHubEvent(h.action)
      case None => Ignore
      case Some(event) =>
        var number := if h.prNumber == 0 then h.number else h.prNumber;
        if h.head == "" then Malformed
        else
          var id := DeliveryId("github", h.repo, number, h.head, event == Reopened);
          Accept(Delivery(id, "github", h.repo, number, h.head, h.base, event))
  }

  /** An update counts only when it carries the old revision: it pushed commits. */
  function GitLabEvent(action: string, oldRev: string): Option<Event> {
    if action == "reopen" then Some(Reopened)
    else if action == "open" then Some(Opened)
    else if action == "update" && oldRev != "" then Some(Synchronize)
    else None
  }

  function GitLabJob(h: GitLabHook): (r: Intake)
    ensures r.Accept? ==> r.delivery.head != "" && Keyed(r.delivery)
    ensures r.Accept? <==>
              && h.event == "Merge Request Hook" && (h.diffHead != "" || h.lastCommit != "")
              && (h.action == "open" || h.action == "reopen" || (h.action == "update" && h.oldRev != ""))
    ensures r.Ignore? <==>
              || h.event != "Merge Request Hook"
              || !(h.action == "open" || h.action == "reopen" || (h.action == "update" && h.oldRev != ""))
    ensures r.Malformed? ==> h.diffHead == "" && h.lastCommit == ""
    ensures r.Accept? ==>
              var d := r.delivery;
              && d.provider == "gitlab" && d.repo == h.project && d.number == h.iid && d.base == h.diffBase
              && (h.diffHead != "" ==> d.head == h.diffHead) && (h.diffHead == "" ==> d.head == h.lastCommit)
              && (d.event.Reopened? <==> h.action == "reopen") && (d.event.Synchronize? <==> h.action == "update")
  {
    if h.event != "Merge Request Hook" then Ignore
    else
      match GitLabEvent(h.action, h.oldRev)
      case None => Ignore
      case Some(event) =>
        var head := if h.diffHead == "" then h.lastCommit else h.diffHead;
        if head == "" then Malformed
        else
          var id := DeliveryId("gitlab", h.project, h.iid, head, event == Reopened);
          Accept(Delivery(id, "gitlab", h.project, h.iid, head, h.diffBase, event))
  }

  // ----- what makes two deliveries the same -----

  /** The five facts that a delivery id is made of. */
  function Facts(d: Delivery): DeliveryKey {
    DeliveryKey(d.provider, d.repo, d.number, d.head, d.event == Reopened)
  }

  predicate Keyed(d: Delivery) {
    && ':' !in d.provider
    && d.id == DeliveryId(d.provider, d.repo, d.number, d.head, d.event == Reopened)
  }

  /** Two deliveries share an id exactly when they agree on provider, repository, number, head
      and on being a reopen: redeliveries collapse and nothing else does. */
  lemma SameIdSameFacts(d: Delivery, e: Delivery)
    requires Keyed(d) && Keyed(e) && IsHex(d.head) && IsHex(e.head)
    ensures d.id == e.id <==> Facts(d) == Facts(e)
  {
    DeliveryIdRoundTrip(Facts(d));
    DeliveryIdRoundTrip(Facts(e));
  }

  // ----- the queue after any sequence of deliveries -----

  function EnqueueAll(ds: seq<Delivery>): seq<Row> {
    if ds == [] then [] else Enqueue(EnqueueAll(ds[..|ds| - 1]), ds[|ds| - 1])
  }

  /** The first delivery of each kind, in order of arrival. */
  function Firsts(ds: seq<Delivery>): seq<Delivery> {
    if ds == [] then []
    else
      var r, d := Firsts(ds[..|ds| - 1]), ds[|ds| - 1];
      if exists i | 0 <= i < |r| :: Facts(r[i]) == Facts(d) then r else r + [d]
  }

  predicate FreshRows(jobs: seq<Row>, ds: seq<Delivery>) {
    |jobs| == |ds| && forall i | 0 <= i < |ds| :: jobs[i] == Row(ds[i], Queued, 0)
  }

  ghost predicate AllKeyed(ds: seq<Delivery>) {
    forall d | d in ds :: Keyed(d) && IsHex(d.head)
  }

  lemma {:induction false} FirstsFrom(ds: seq<Delivery>)
    ensures forall d | d in Firsts(ds) :: d in ds
  {
    if ds != [] {
      FirstsFrom(ds[..|ds| - 1]);
    }
  }

  lemma KnownByFacts(jobs: seq<Row>, r: seq<Delivery>, d: Delivery)
    requires FreshRows(jobs, r) && AllKeyed(r) && Keyed(d) && IsHex(d.head)
    ensures Known(jobs, d.id) <==> exists i | 0 <= i < |r| :: Facts(r[i]) == Facts(d)
  {
    forall i | 0 <= i < |r| ensures jobs[i].delivery.id == d.id <==> Facts(r[i]) == Facts(d) {
      assert r[i] in r;
      SameIdSameFacts(r[i], d);
    }
  }

  /** The queue holds one fresh row per distinct delivery, in order of first arrival: a
      redelivery is dropped, and no delivery is dropped because of another pull request. */
  lemma {:induction false} QueueOfDeliveries(ds: seq<Delivery>)
    requires AllKeyed(ds)
    ensures FreshRows(EnqueueAll(ds), Firsts(ds))
  {
    if ds != [] {
      var front := ds[..|ds| - 1];
      QueueOfDeliveries(front);
      FirstsFrom(front);
      KnownByFacts(EnqueueAll(front), Firsts(front), ds[|ds| - 1]);
    }
  }

  lemma {:induction false} FirstsExact(ds: seq<Delivery>, d: Delivery)
    requires d in ds
    ensures exists i | 0 <= i < |Firsts(ds)| :: Facts(Firsts(ds)[i]) == Facts(d)
    ensures forall i, j | 0 <= i < j < |Firsts(ds)| :: Facts(Firsts(ds)[i]) != Facts(Firsts(ds)[j])
  {
    var front, last := ds[..|ds| - 1], ds[|ds| - 1];
    var r, r' := Firsts(front), Firsts(ds);
    if front != [] {
      FirstsExact(front, front[0]);
    }
    if d != last {
      assert d in front;
      FirstsExact(front, d);
      var i :| 0 <= i < |r| && Facts(r[i]) == Facts(d);
      assert Facts(r'[i]) == Facts(d);
    } else if r' == r + [d] {
      assert Facts(r'[|r|]) == Facts(d);
    }
  }

  // ----- the handler -----

  /** The wake-up channel, buffered by one. */
  class Signal {
    var full: bool

    /** A send that never blocks: afterwards the buffer is full either way. */
    method TrySend()
      modifies this
      ensures full
    {
      if !full {
        full := true;
      }
    }
  }

  class Handler {
    const store: Store
    const notify: Signal

    constructor (s: Store, n: Signal)
      ensures store == s && notify == n
    {
      store, notify := s, n;
    }

    /** The intake after verification and parsing. A new job always leaves a wake-up behind; a
        job is lost only together with an error status. */
    method Serve(intake: Intake, o: Outcome) returns (status: int)
      modifies store`jobs, notify
      ensures status in {202, 200, 204, 400, 500}
      ensures status == 204 <==> intake.Ignore?
      ensures status == 400 <==> intake.Malformed?
      ensures status == 500 <==> intake.Accept? && !o.Acked?
      ensures status == 200 <==> intake.Accept? && o.Acked? && Known(old(store.jobs), intake.delivery.id)
      ensures store.jobs == if intake.Accept? && o.Applied() then Enqueue(old(store.jobs), intake.delivery)
                            else old(store.jobs)
      ensures notify.full == (old(notify.full) || status == 202)
    {
      match intake
      case Ignore =>
        status := 204;
      case Malformed =>
        status := 400;
      case Accept(d) =>
        var inserted, ok := store.Enqueue(d, o);
        if !ok {
          status := 500;
        } else if !inserted {
          status := 200;
        } else {
          notify.TrySend();
          status := 202;
        }
    }
  }
}

/** What a whole run does with the deliveries that arrive during it. */
module Arrivals {
  import opened Tables
  import opened Machine
  import opened Safety
  import opened Webhook
  import opened Isolation
  import opened Keys

  function Deliveries(run: seq<Action>): seq<Delivery> {
    if run == [] then []
    else
      var last := run[|run| - 1];
      Deliveries(run[..|run| - 1]) + if last.Arrive? then [last.delivery] else []
  }

  predicate SameDeliveries(jobs: seq<Row>, jobs': seq<Row>) {
    |jobs| == |jobs'| && forall i | 0 <= i < |jobs| :: jobs[i].delivery == jobs'[i].delivery
  }

  lemma SameKnown(jobs: seq<Row>, jobs': seq<Row>, id: string)
    requires SameDeliveries(jobs, jobs')
    ensures Known(jobs, id) <==> Known(jobs', id)
  {
  }

  lemma WorkerKeepsDeliveries(cfg: Cfg, s: Sys, a: Action)
    requires Enabled(cfg, s, a) && !a.Arrive?
    ensures SameDeliveries(Step(cfg, s, a).db.jobs, s.db.jobs)
  {
    if a.Io? {
      IoJobs(cfg, s, a.outcome, a.reply);
    }
  }

  lemma SameAfterArrival(jobs: seq<Row>, jobs': seq<Row>, d: Delivery)
    requires SameDeliveries(jobs, jobs')
    ensures SameDeliveries(Enqueue(jobs, d), Enqueue(jobs', d))
  {
    SameKnown(jobs, jobs', d.id);
  }

  lemma ArrivalStep(cfg: Cfg, s: Sys, a: Action, ds: seq<Delivery>)
    requires Enabled(cfg, s, a) && SameDeliveries(s.db.jobs, EnqueueAll(ds))
    ensures SameDeliveries(Step(cfg, s, a).db.jobs, EnqueueAll(ds + if a.Arrive? then [a.delivery] else []))
  {
    if a.Arrive? {
      SameAfterArrival(s.db.jobs, EnqueueAll(ds), a.delivery);
      assert (ds + [a.delivery])[..|ds|] == ds;
    } else {
      WorkerKeepsDeliveries(cfg, s, a);
      assert ds + [] == ds;
    }
  }

  /** Nothing that the worker does, and no crash, adds, drops or reorders a row: the queue always
      lists exactly the distinct deliveries so far. */
  lemma {:induction false} NoDeliveryLost(cfg: Cfg, run: seq<Action>, s: Sys)
    requires Reaches(cfg, run, s)
    ensures SameDeliveries(s.db.jobs, EnqueueAll(Deliveries(run)))
  {
    if run != [] {
      var front := run[..|run| - 1];
      var p := Exec(cfg, front).value;
      NoDeliveryLost(cfg, front, p);
      ArrivalStep(cfg, p, run[|run| - 1], Deliveries(front));
    }
  }

  lemma KnownRow(cfg: Cfg, run: seq<Action>, s: Sys, i: nat)
    requires Reaches(cfg, run, s) && AllKeyed(Deliveries(run)) && i < |s.db.jobs|
    ensures Keyed(s.db.jobs[i].delivery) && IsHex(s.db.jobs[i].delivery.head)
  {
    var ds := Deliveries(run);
    NoDeliveryLost(cfg, run, s);
    QueueOfDeliveries(ds);
    FirstsFrom(ds);
    assert s.db.jobs[i].delivery == Firsts(ds)[i] && Firsts(ds)[i] in Firsts(ds);
  }

  /** No delivery is taken for a known one because of another pull request's row: with commit ids as
      heads a pull request's own rows tell whether an arrival is new, so the projection of a run
      onto a pull request keeps every arrival of its own that makes a row. */
  lemma ArrivalsAreOwn(cfg: Cfg, run: seq<Action>, s: Sys, d: Delivery)
    requires Reaches(cfg, run, s) && AllKeyed(Deliveries(run)) && Keyed(d) && IsHex(d.head)
    ensures Known(s.db.jobs, d.id) <==> Known(View(s, d.Key()).db.jobs, d.id)
    ensures Concerns(s, Arrive(d), d.Key()) <==> !Known(View(s, d.Key()).db.jobs, d.id)
  {
    var jobs, sub := s.db.jobs, Sub(s.db.jobs, d.Key());
    if Known(jobs, d.id) {
      var i :| 0 <= i < |jobs| && jobs[i].delivery.id == d.id;
      KnownRow(cfg, run, s, i);
      SameIdSameFacts(jobs[i].delivery, d);
      SubPrefix(jobs, d.Key(), i);
      assert sub[Place(jobs, d.Key(), i)].delivery.id == d.id;
    }
    if Known(sub, d.id) {
      var i :| 0 <= i < |sub| && sub[i].delivery.id == d.id;
      SelectMember(jobs, RowOf(d.Key()), sub[i]);
      var j :| 0 <= j < |jobs| && jobs[j] == sub[i];
      assert jobs[j].delivery.id == d.id;
    }
  }
}
