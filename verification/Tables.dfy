/** The three tables of the database as values, and each Store operation as one atomic
    function on them. A row's id is its position: ids only have to grow with insertion. */
module Tables {
  import opened Basics
  import opened Keys

  datatype Event = Opened | Reopened | Synchronize

  /** A review request as it arrives. `id` is the delivery id, the idempotency key. */
  datatype Delivery = Delivery(
    id: string, provider: string, repo: string, number: int, head: string, base: string, event: Event)
  {
    function Key(): string {
      PRKey(provider, repo, number)
    }
  }

  datatype JobState = Queued | Running | Done | Failed | Dead
  {
    predicate Terminal() {
      Done? || Dead?
    }
  }

  datatype Row = Row(delivery: Delivery, state: JobState, attempts: nat)

  /** What ClaimNext hands to the worker. */
  datatype Job = Job(id: nat, delivery: Delivery, attempts: nat)
  {
    function Key(): string {
      delivery.Key()
    }
  }

  /** The review budget of one pull request. */
  datatype PRState = PRState(
    cycle: int, lastReviewed: string, summaryId: string, summaryCycle: int, noticePosted: bool)

  const NEW_PR: PRState := PRState(0, "", "", 0, false)

  datatype Db = Db(jobs: seq<Row>, reviews: map<string, PRState>, posted: map<string, set<string>>)

  const EMPTY_DB: Db := Db([], map[], map[])

  predicate Known(jobs: seq<Row>, id: string) {
    exists i | 0 <= i < |jobs| :: jobs[i].delivery.id == id
  }

  function Enqueue(jobs: seq<Row>, d: Delivery): seq<Row> {
    if Known(jobs, d.id) then jobs else jobs + [Row(d, Queued, 0)]
  }

  /** The oldest runnable row. */
  function Head(jobs: seq<Row>): (h: Option<nat>)
    ensures h.Some? ==> h.value < |jobs| && !jobs[h.value].state.Terminal()
    ensures h.Some? ==> forall i | 0 <= i < h.value :: jobs[i].state.Terminal()
    ensures h.None? ==> forall i | 0 <= i < |jobs| :: jobs[i].state.Terminal()
  {
    if jobs == [] then None
    else
      match Head(jobs[..|jobs| - 1])
      case Some(i) => Some(i)
      case None => if jobs[|jobs| - 1].state.Terminal() then None else Some(|jobs| - 1)
  }

  /** A row waits for the worker unless it is done or dead: a failed one and one left running do. */
  lemma HeadIsOldest(jobs: seq<Row>, i: nat)
    ensures Head(jobs) == Some(i) <==>
            && i < |jobs| && (jobs[i].state == Queued || jobs[i].state == Running || jobs[i].state == JobState.Failed)
            && forall k | 0 <= k < i :: jobs[k].state == Done || jobs[k].state == Dead
    ensures Head(jobs) == None <==> forall k | 0 <= k < |jobs| :: jobs[k].state == Done || jobs[k].state == Dead
  {
  }

  function ClaimRow(jobs: seq<Row>, i: nat): seq<Row>
    requires i < |jobs|
  {
    jobs[i := Row(jobs[i].delivery, Running, jobs[i].attempts + 1)]
  }

  function SetState(jobs: seq<Row>, i: nat, state: JobState): seq<Row> {
    if i < |jobs| then jobs[i := jobs[i].(state := state)] else jobs
  }

  function Budget(db: Db, key: string): PRState {
    if key in db.reviews then db.reviews[key] else NEW_PR
  }

  function Posted(db: Db, key: string): set<string> {
    if key in db.posted then db.posted[key] else {}
  }

  function SaveBudget(db: Db, key: string, st: PRState): Db {
    db.(reviews := db.reviews[key := st])
  }

  function ResetPR(db: Db, key: string): Db {
    db.(reviews := db.reviews - {key}, posted := db.posted - {key})
  }

  function RecordPosted(db: Db, key: string, fp: string): Db {
    db.(posted := db.posted[key := Posted(db, key) + {fp}])
  }

  /** A budget row and a fingerprint set belong to one pull request: no write reaches another's. */
  lemma WritesAreLocal(db: Db, key: string, other: string, st: PRState, fp: string)
    requires key != other
    ensures forall d | d in [SaveBudget(db, key, st), ResetPR(db, key), RecordPosted(db, key, fp)] ::
              Budget(d, other) == Budget(db, other) && Posted(d, other) == Posted(db, other)
  {
  }
}
