/** The wake-up protocol between any number of webhook handlers and the worker: a channel that
    buffers one token, sent without blocking after a successful enqueue. */
module Wakeup {
  import opened Basics
  import opened Tables

  /** `idle` says that the wait follows an empty queue rather than a failed claim. */
  datatype Place = Claiming | Waiting(idle: bool) | Working(row: nat)

  /** `senders` are the handlers between their successful enqueue and their send; `silent` notes
      that since the queue was last seen empty a row was inserted by an enqueue that reported an
      error. */
  datatype W = W(jobs: seq<Row>, full: bool, place: Place, senders: set<nat>, silent: bool)

  const START: W := W([], false, Claiming, {}, false)

  datatype Move =
    | Deliver(handler: nat, delivery: Delivery, outcome: Outcome)
    | Send(handler: nat)
    | Claim(outcome: Outcome)
    | Finish(state: JobState, outcome: Outcome)
    | TakeToken
    | PollTimer
    | Crash // and a new process on the same queue, with an empty channel

  predicate CanMove(w: W, m: Move) {
    match m
    case Deliver(h, _, _) => h !in w.senders
    case Send(h) => h in w.senders
    case Claim(_) => w.place.Claiming?
    case Finish(_, _) => w.place.Working?
    case TakeToken => w.place.Waiting? && w.full
    case PollTimer => w.place.Waiting?
    case Crash => true
  }

  function DoMove(w: W, m: Move): W
    requires CanMove(w, m)
  {
    match m
    case Deliver(h, d, o) =>
      var inserts := !Known(w.jobs, d.id);
      if o.Refused? || !inserts then w
      else
        var w' := w.(jobs := Enqueue(w.jobs, d));
        if o.Acked? then w'.(senders := w.senders + {h}) else w'.(silent := true)
    case Send(h) => w.(full := true, senders := w.senders - {h})
    case Claim(o) =>
      (match Head(w.jobs)
       case None => if o.Acked? then w.(place := Waiting(true), silent := false) else w.(place := Waiting(false))
       case Some(i) =>
         var jobs := if o.Applied() then ClaimRow(w.jobs, i) else w.jobs;
         if o.Acked? then w.(jobs := jobs, place := Working(i)) else w.(jobs := jobs, place := Waiting(false)))
    case Finish(state, o) =>
      w.(jobs := if o.Applied() then SetState(w.jobs, w.place.row, state) else w.jobs, place := Claiming)
    case TakeToken => w.(full := false, place := Claiming)
    case PollTimer => w.(place := Claiming)
    case Crash => w.(full := false, place := Claiming, senders := {})
  }

  function Play(moves: seq<Move>): Option<W> {
    if moves == [] then Some(START)
    else
      match Play(moves[..|moves| - 1])
      case None => None
      case Some(w) =>
        if CanMove(w, moves[|moves| - 1]) then Some(DoMove(w, moves[|moves| - 1])) else None
  }

  /** The worker will be woken without the poll timer. */
  predicate WakeComes(w: W) {
    w.full || w.senders != {}
  }

  lemma MoveKeepsWake(w: W, m: Move)
    requires CanMove(w, m)
    requires w.place == Waiting(true) && Head(w.jobs).Some? && !w.silent ==> WakeComes(w)
    ensures var v := DoMove(w, m); v.place == Waiting(true) && Head(v.jobs).Some? && !v.silent ==> WakeComes(v)
  {
    if m.Deliver? && m.outcome == Acked && !Known(w.jobs, m.delivery.id) {
      assert m.handler in DoMove(w, m).senders;
    }
  }

  /** No wake-up is lost: whenever the worker waits on what was an empty queue and a runnable row
      exists, a token is buffered or a handler is about to send one. The poll timer is needed
      only after a failed claim, or for a row whose enqueue reported an error. */
  lemma {:induction false} NoLostWakeup(moves: seq<Move>, w: W)
    requires Play(moves) == Some(w)
    ensures w.place == Waiting(true) && Head(w.jobs).Some? ==> WakeComes(w) || w.silent
  {
    if moves != [] {
      var v := Play(moves[..|moves| - 1]).value;
      NoLostWakeup(moves[..|moves| - 1], v);
      MoveKeepsWake(v, moves[|moves| - 1]);
    }
  }

  // ----- the two cases that the poll timer is for -----

  const SOME_JOB: Delivery := Delivery("id", "github", "o/r", 1, "ab", "", Opened)

  lemma PlayMore(moves: seq<Move>, m: Move)
    requires Play(moves).Some? && CanMove(Play(moves).value, m)
    ensures Play(moves + [m]) == Some(DoMove(Play(moves).value, m))
  {
    assert (moves + [m])[..|moves|] == moves;
  }

  /** An enqueue that commits but reports an error leaves its row waiting for the timer. */
  lemma SilentEnqueueNeedsTimer()
    ensures exists moves, w :: Play(moves) == Some(w) && w.place == Waiting(true) && Head(w.jobs).Some? && !WakeComes(w)
  {
    var ms := [Claim(Acked), Deliver(0, SOME_JOB, Unacked)];
    PlayMore([], ms[0]);
    PlayMore([ms[0]], ms[1]);
    assert [ms[0]] + [ms[1]] == ms && [] + [ms[0]] == [ms[0]];
    var w := Play(ms).value;
    assert w.jobs == [Row(SOME_JOB, Queued, 0)];
    assert w.place == Waiting(true) && Head(w.jobs).Some? && !WakeComes(w);
  }

  /** So does a claim that fails after the token was taken. */
  lemma FailedClaimNeedsTimer()
    ensures exists moves, w ::
              Play(moves) == Some(w) && w.place == Waiting(false) && Head(w.jobs).Some? && !WakeComes(w)
  {
    var ms := [Deliver(0, SOME_JOB, Acked), Send(0), Claim(Refused), TakeToken, Claim(Refused)];
    var w0 := W([Row(SOME_JOB, Queued, 0)], false, Claiming, {0}, false);
    var w1 := W(w0.jobs, true, Claiming, {}, false);
    var w3 := W(w0.jobs, false, Claiming, {}, false);
    assert Head(w0.jobs) == Some(0);
    PlayMore([], ms[0]);
    assert [] + [ms[0]] == ms[..1];
    assert [] + [Row(SOME_JOB, Queued, 0)] == w0.jobs && {} + {0} == w0.senders;
    assert Enqueue([], SOME_JOB) == w0.jobs;
    assert DoMove(START, ms[0]) == w0;
    assert Play(ms[..1]) == Some(w0);
    PlayMore(ms[..1], ms[1]);
    assert ms[..1] + [ms[1]] == ms[..2];
    assert Play(ms[..2]) == Some(w1);
    PlayMore(ms[..2], ms[2]);
    assert ms[..2] + [ms[2]] == ms[..3];
    PlayMore(ms[..3], ms[3]);
    assert ms[..3] + [ms[3]] == ms[..4];
    assert Play(ms[..4]) == Some(w3);
    PlayMore(ms[..4], ms[4]);
    assert ms[..4] + [ms[4]] == ms;
    assert Play(ms) == Some(w3.(place := Waiting(false)));
    assert !WakeComes(w3.(place := Waiting(false)));
  }
}
