/** The Store object: each method is one atomic operation on the tables. The outcome parameter is
    what the database does: succeed, fail, or commit and still report an error. */
module DurableStore {
  import opened Basics
  import opened Tables
  import opened Selection

  datatype ClaimResult = NoJob | Claimed(job: Job) | ClaimError

  class Store {
    var jobs: seq<Row>
    var reviews: map<string, PRState>
    var posted: map<string, set<string>>

    function Contents(): Db
      reads this
    {
      Db(jobs, reviews, posted)
    }

    constructor ()
      ensures Contents() == EMPTY_DB
    {
      jobs, reviews, posted := [], map[], map[];
    }

    method Enqueue(d: Delivery, o: Outcome) returns (inserted: bool, ok: bool)
      modifies this`jobs
      ensures jobs == if o.Applied() then Tables.Enqueue(old(jobs), d) else old(jobs)
      ensures ok == o.Acked? && (ok ==> inserted == !Known(old(jobs), d.id))
      ensures o != Refused && (forall i | 0 <= i < |old(jobs)| :: old(jobs)[i].delivery.id != d.id) ==>
                jobs == old(jobs) + [Row(d, Queued, 0)]
      ensures o == Refused || (exists i | 0 <= i < |old(jobs)| :: old(jobs)[i].delivery.id == d.id) ==>
                jobs == old(jobs)
    {
      inserted, ok := false, o.Acked?;
      if o.Applied() {
        inserted := |Tables.Enqueue(jobs, d)| > |jobs|;
        jobs := Tables.Enqueue(jobs, d);
      }
    }

    /** Claims the oldest runnable row: everything before it is finished, and it becomes running
        with one more attempt. */
    method ClaimNext(o: Outcome) returns (r: ClaimResult)
      modifies this`jobs
      ensures Head(old(jobs)).None? || o.Refused? ==> jobs == old(jobs)
      ensures Head(old(jobs)).Some? && o.Applied() ==> jobs == ClaimRow(old(jobs), Head(old(jobs)).value)
      ensures r.NoJob? <==> o.Acked? && forall i | 0 <= i < |old(jobs)| :: old(jobs)[i].state in {Done, Dead}
      ensures r.NoJob? ==> Head(old(jobs)).None?
      ensures r.Claimed? <==> Head(old(jobs)).Some? && o.Acked?
      ensures r.Claimed? ==>
                var job := r.job;
                && Head(old(jobs)) == Some(job.id)
                && job.id < |jobs| && jobs[job.id] == Row(job.delivery, Running, job.attempts)
                && job.delivery == old(jobs)[job.id].delivery && job.attempts == old(jobs)[job.id].attempts + 1
                && old(jobs)[job.id].state in {Queued, Running, JobState.Failed}
                && (forall i | 0 <= i < job.id :: jobs[i].state in {Done, Dead})
                && (forall i | 0 <= i < |jobs| && i != job.id :: jobs[i] == old(jobs)[i])
    {
      HeadIsOldest(jobs, if Head(jobs).Some? then Head(jobs).value else 0);
      match Head(jobs)
      case None =>
        r := if o.Acked? then NoJob else ClaimError;
      case Some(i) =>
        var job := Job(i, jobs[i].delivery, jobs[i].attempts + 1);
        if o.Applied() {
          jobs := jobs[i := Row(job.delivery, Running, job.attempts)];
        }
        r := if o.Acked? then Claimed(job) else ClaimError;
    }

    method Finish(id: nat, state: JobState, o: Outcome) returns (ok: bool)
      modifies this`jobs
      ensures jobs == if o.Applied() then SetState(old(jobs), id, state) else old(jobs)
      ensures |jobs| == |old(jobs)| && (forall i | 0 <= i < |jobs| && i != id :: jobs[i] == old(jobs)[i])
      ensures o != Refused && id < |jobs| ==> jobs[id] == Row(old(jobs)[id].delivery, state, old(jobs)[id].attempts)
      ensures ok == o.Acked?
    {
      if o.Applied() && id < |jobs| {
        jobs := jobs[id := jobs[id].(state := state)];
      }
      ok := o.Acked?;
    }

    method PRState(key: string, o: Outcome) returns (st: PRState, ok: bool)
      ensures ok == o.Acked? && (ok ==> st == Budget(Contents(), key))
      ensures ok ==> st == if key in reviews then reviews[key] else Tables.PRState.PRState(0, "", "", 0, false)
    {
      st, ok := NEW_PR, o.Acked?;
      if key in reviews {
        st := reviews[key];
      }
    }

    method SavePRState(key: string, st: PRState, o: Outcome) returns (ok: bool)
      modifies this`reviews
      ensures Contents() == if o.Applied() then SaveBudget(old(Contents()), key, st) else old(Contents())
      ensures reviews == if o == Refused then old(reviews) else old(reviews)[key := st]
      ensures ok == o.Acked?
    {
      if o.Applied() {
        reviews := reviews[key := st];
      }
      ok := o.Acked?;
    }

    method ResetPRState(key: string, o: Outcome) returns (ok: bool)
      modifies this`reviews, this`posted
      ensures Contents() == if o.Applied() then ResetPR(old(Contents()), key) else old(Contents())
      ensures o != Refused ==> reviews == old(reviews) - {key} && posted == old(posted) - {key}
      ensures ok == o.Acked?
    {
      if o.Applied() {
        reviews := reviews - {key};
        posted := posted - {key};
      }
      ok := o.Acked?;
    }

    /** The fingerprints without a record, in the order given; none are looked up for none. */
    method UnseenFingerprints(key: string, fps: seq<string>, o: Outcome) returns (unseen: seq<string>, ok: bool)
      ensures ok == (|fps| == 0 || o.Acked?)
      ensures ok ==> unseen == Unseen(fps, Posted(Contents(), key))
      ensures ok ==> forall x, y :: Before(unseen, x, y) <==>
                                    Before(fps, x, y) && x !in Posted(Contents(), key) && y !in Posted(Contents(), key)
    {
      if |fps| == 0 {
        return [], true;
      }
      unseen, ok := [], o.Acked?;
      var seen := if key in posted then posted[key] else {};
      for i := 0 to |fps|
        invariant unseen == Unseen(fps[..i], seen)
      {
        assert fps[..i + 1][..i] == fps[..i];
        if fps[i] !in seen {
          unseen := unseen + [fps[i]];
        }
      }
      assert fps[..|fps|] == fps;
      forall x, y { UnseenOrder(fps, seen, x, y); }
    }

    method RecordFingerprint(key: string, fp: string, o: Outcome) returns (ok: bool)
      modifies this`posted
      ensures Contents() == if o.Applied() then RecordPosted(old(Contents()), key, fp) else old(Contents())
      ensures o != Refused ==> key in posted && posted - {key} == old(posted) - {key}
                               && posted[key] == (if key in old(posted) then old(posted)[key] else {}) + {fp}
      ensures ok == o.Acked?
    {
      if o.Applied() {
        var known := if key in posted then posted[key] else {};
        posted := posted[key := known + {fp}];
      }
      ok := o.Acked?;
    }
  }
}
