/** The review worker as the program runs it: one goroutine over a shared store. Every method goes
    through exactly the states that the machine prescribes for the world's answers, so whatever
    holds of every reachable state holds between any two of its I/O operations, where a crash may
    come. */
module ReviewWorker {
  import opened Basics
  import opened Tables
  import opened Selection
  import opened Machine
  import opened DurableStore
  import opened World
  import opened Operations

  /** Zero settings are replaced by the defaults. */
  function Defaults(cfg: Cfg): (r: Cfg)
    ensures cfg.maxCycles == 0 ==> r.maxCycles == 2
    ensures cfg.maxAttempts == 0 ==> r.maxAttempts == 3
    ensures cfg.maxComments == 0 ==> r.maxComments == 20
    ensures cfg.minSeverity == "" ==> r.minSeverity == "minor"
    ensures cfg.maxCycles != 0 ==> r.maxCycles == cfg.maxCycles
    ensures cfg.maxAttempts != 0 ==> r.maxAttempts == cfg.maxAttempts
    ensures cfg.maxComments != 0 ==> r.maxComments == cfg.maxComments
    ensures cfg.minSeverity != "" ==> r.minSeverity == cfg.minSeverity
    ensures r.announce == cfg.announce && r.providers == cfg.providers && r.digest == cfg.digest
  {
    cfg.(maxCycles := if cfg.maxCycles == 0 then 2 else cfg.maxCycles,
         maxAttempts := if cfg.maxAttempts == 0 then 3 else cfg.maxAttempts,
         maxComments := if cfg.maxComments == 0 then 20 else cfg.maxComments,
         minSeverity := if cfg.minSeverity == "" then MINOR else cfg.minSeverity)
  }

  /** The findings behind fingerprints. */
  function Look(table: map<string, Finding>, fps: seq<string>): seq<Finding>
    requires forall fp | fp in fps :: fp in table
  {
    if fps == [] then [] else Look(table, fps[..|fps| - 1]) + [table[fps[|fps| - 1]]]
  }

  /** `zs` is `xs` and `ys` shuffled together, each in its order. */
  predicate Shuffles(xs: seq<Finding>, ys: seq<Finding>, zs: seq<Finding>) {
    if zs == [] then xs == [] && ys == []
    else
      var z := zs[|zs| - 1];
      || (xs != [] && xs[|xs| - 1] == z && Shuffles(xs[..|xs| - 1], ys, zs[..|zs| - 1]))
      || (ys != [] && ys[|ys| - 1] == z && Shuffles(xs, ys[..|ys| - 1], zs[..|zs| - 1]))
  }

  lemma ShufflesAppend(xs: seq<Finding>, ys: seq<Finding>, zs: seq<Finding>, z: Finding)
    requires Shuffles(xs, ys, zs)
    ensures Shuffles(xs + [z], ys, zs + [z]) && Shuffles(xs, ys + [z], zs + [z])
  {
    assert (xs + [z])[..|xs|] == xs && (ys + [z])[..|ys|] == ys && (zs + [z])[..|zs|] == zs;
  }

  /** A shuffle loses and repeats nothing. */
  lemma {:induction false} ShufflesKeepsAll(xs: seq<Finding>, ys: seq<Finding>, zs: seq<Finding>)
    requires Shuffles(xs, ys, zs)
    ensures multiset(xs) + multiset(ys) == multiset(zs)
  {
    if zs != [] {
      var z, front := zs[|zs| - 1], zs[..|zs| - 1];
      assert zs == front + [z];
      if xs != [] && xs[|xs| - 1] == z && Shuffles(xs[..|xs| - 1], ys, front) {
        ShufflesKeepsAll(xs[..|xs| - 1], ys, front);
        assert xs == xs[..|xs| - 1] + [z];
      } else {
        ShufflesKeepsAll(xs, ys[..|ys| - 1], front);
        assert ys == ys[..|ys| - 1] + [z];
      }
    }
  }

  lemma {:induction false} LookAt(table: map<string, Finding>, fps: seq<string>)
    requires forall fp | fp in fps :: fp in table
    ensures |Look(table, fps)| == |fps|
    ensures forall k | 0 <= k < |fps| :: fps[k] in table && Look(table, fps)[k] == table[fps[k]]
  {
    if fps != [] {
      LookAt(table, fps[..|fps| - 1]);
    }
  }

  lemma LookAppend(table: map<string, Finding>, fps: seq<string>, fp: string)
    requires fp in table && forall x | x in fps :: x in table
    ensures Look(table, fps + [fp]) == Look(table, fps) + [table[fp]]
  {
    assert (fps + [fp])[..|fps|] == fps;
  }

  /** What the summary gets: every selected finding, posted or not. */
  ghost predicate NothingDropped(
    cfg: Cfg, fs: seq<Finding>, seen: set<string>, posted: seq<Finding>, unposted: seq<Finding>)
  {
    var table := Collect(cfg.digest, cfg.minSeverity, fs).table;
    var tried := Attempted(cfg.digest, cfg.minSeverity, cfg.maxComments, fs, seen);
    var rest := OverCap(cfg.digest, cfg.minSeverity, cfg.maxComments, fs, seen);
    && (forall fp | fp in tried || fp in rest :: fp in table)
    && exists rejected :: Shuffles(posted, rejected, Look(table, tried)) && unposted == rejected + Look(table, rest)
  }

  /** Of the findings themselves: every first eligible occurrence without a record is posted or left
      for the summary. */
  lemma EveryFindingShown(
    cfg: Cfg, fs: seq<Finding>, seen: set<string>, posted: seq<Finding>, unposted: seq<Finding>, i: nat)
    requires NothingDropped(cfg, fs, seen, posted, unposted) && i < |fs|
    requires FirstAt(cfg.digest, cfg.minSeverity, fs, i) && Fingerprint(cfg.digest, fs[i]) !in seen
    ensures fs[i] in posted || fs[i] in unposted
  {
    var table := Collect(cfg.digest, cfg.minSeverity, fs).table;
    var tried := Attempted(cfg.digest, cfg.minSeverity, cfg.maxComments, fs, seen);
    var rest := OverCap(cfg.digest, cfg.minSeverity, cfg.maxComments, fs, seen);
    var fp := Fingerprint(cfg.digest, fs[i]);
    TopK(cfg.digest, cfg.minSeverity, cfg.maxComments, fs, seen);
    CollectFirst(cfg.digest, cfg.minSeverity, fs, i);
    var rejected :| Shuffles(posted, rejected, Look(table, tried)) && unposted == rejected + Look(table, rest);
    ShufflesKeepsAll(posted, rejected, Look(table, tried));
    assert fp in tried + rest;
    if fp in tried {
      LookFinds(table, tried, fp);
      assert fs[i] in multiset(posted) + multiset(rejected);
    } else {
      LookFinds(table, rest, fp);
    }
  }

  lemma LookFinds(table: map<string, Finding>, fps: seq<string>, fp: string)
    requires fp in fps && forall x | x in fps :: x in table
    ensures table[fp] in Look(table, fps) && table[fp] in multiset(Look(table, fps))
  {
    LookAt(table, fps);
    var k :| 0 <= k < |fps| && fps[k] == fp;
    assert Look(table, fps)[k] == table[fp];
  }

  class Worker {
    const cfg: Cfg
    const store: Store
    const world: nat -> Answer
    /** The machine's operation. */
    ghost const step: (Sys, nat) -> Sys
    /** The operations so far. */
    var clock: nat
    /** The state of the machine that the worker is in. */
    ghost var now: Sys

    ghost predicate Valid()
      reads this, store
    {
      now.db == store.Contents() && Follows(step, cfg, world)
    }

    /** Since operation `from`, in state `s`, the worker did what the machine does on the answers. */
    ghost predicate Performed(s: Sys, from: nat)
      reads this, store
    {
      Valid() && from <= clock && now == Fold(step, s, from, clock)
    }

    constructor (settings: Cfg, db: Store, answers: nat -> Answer)
      requires db.Contents() == EMPTY_DB
      ensures store == db && cfg == Defaults(settings) && world == answers && clock == 0 && Valid()
      ensures now == INIT && Reachable(cfg, now)
    {
      cfg, store, world, clock := Defaults(settings), db, answers, 0;
      step := (s: Sys, n: nat) => Op(Defaults(settings), s, answers(n));
      now := INIT;
      assert Reaches(Defaults(settings), [], INIT);
    }

    /** A new process on the tables that a crashed one left behind, wherever that happened. */
    constructor Restart(settings: Cfg, db: Store, answers: nat -> Answer, ghost crashed: Sys)
      requires Reachable(Defaults(settings), crashed) && db.Contents() == crashed.db
      ensures store == db && cfg == Defaults(settings) && world == answers && clock == 0 && Valid()
      ensures now == Step(cfg, crashed, Crash) && now.pc.Ready? && Reachable(cfg, now)
    {
      cfg, store, world, clock := Defaults(settings), db, answers, 0;
      step := (s: Sys, n: nat) => Op(Defaults(settings), s, answers(n));
      now := Step(Defaults(settings), crashed, Crash);
      StepReachable(Defaults(settings), crashed, Crash);
    }

    /** What the worker performs is what the machine does, and from a reachable state it ends in a
        reachable one: the results about every run hold of the worker at every operation. */
    lemma StaysReachable(s: Sys, from: nat)
      requires Reachable(cfg, s) && Performed(s, from)
      ensures now == Ops(cfg, world, s, from, clock) && Reachable(cfg, now)
    {
      FoldIsOps(step, cfg, world, s, from, clock);
      OpsReachable(cfg, world, s, from, clock);
    }

    /** Two stretches of operations make one. */
    lemma Joined(s: Sys, from: nat, mid: Sys, at: nat)
      requires from <= at && mid == Fold(step, s, from, at) && Performed(mid, at)
      ensures Performed(s, from)
    {
      FoldJoin(step, s, from, at, clock);
    }

    /** Starts an operation: the world answers, after letting deliveries arrive. */
    method Await() returns (ans: Answer)
      requires Valid()
      modifies this, store`jobs
      ensures Valid() && clock == old(clock) + 1 && ans == world(old(clock))
      ensures now == Arrived(cfg, old(now), ans.arrivals)
      ensures store.reviews == old(store.reviews) && store.posted == old(store.posted)
    {
      ghost var start := now;
      ans := world(clock);
      clock := clock + 1;
      for i := 0 to |ans.arrivals|
        invariant clock == old(clock) + 1 && now == Arrived(cfg, start, ans.arrivals[..i])
        invariant now.db == store.Contents()
        invariant store.reviews == old(store.reviews) && store.posted == old(store.posted)
      {
        assert ans.arrivals[..i + 1][..i] == ans.arrivals[..i];
        Receive(ans.arrivals[i]);
      }
      assert ans.arrivals[..|ans.arrivals|] == ans.arrivals;
    }

    /** A webhook handler enqueues a delivery. */
    method Receive(d: Delivery)
      requires now.db == store.Contents()
      modifies this`now, store`jobs
      ensures now == World.Receive(cfg, old(now), d) && now.db == store.Contents()
    {
      if d.head != "" {
        var _, _ := store.Enqueue(d, Acked);
        now := now.(db := NextDb(cfg, now, Arrive(d)));
      }
    }

    /** The operation under way. */
    ghost function Current(start: Sys): Operation
      reads this
      requires clock > 0
    {
      Operation(cfg, world, step, clock - 1, start, now)
    }

    /** Ends an operation: the store holds what the machine's step left. */
    ghost method Advance(start: Sys, done: Sys)
      requires Follows(step, cfg, world)
      requires clock > 0 && Current(start).Ended(done, store.Contents())
      modifies this`now
      ensures now == done && Performed(start, clock - 1)
    {
      now := done;
    }

    // ----- Run -----

    /** `turns` turns of the endless loop, or fewer if the context is cancelled. */
    method Run(turns: nat)
      requires Valid() && now.pc.Ready?
      modifies this, store
      ensures Performed(old(now), old(clock)) && now.pc.Ready?
      ensures clock < old(clock) + turns ==> clock > old(clock) && world(clock - 1).stop
    {
      ghost var start, from := now, clock;
      for i := 0 to turns
        invariant Performed(start, from) && now.pc.Ready? && clock >= from + i
      {
        ghost var mid, at := now, clock;
        Turn();
        Joined(start, from, mid, at);
        if world(clock - 1).stop {
          return;
        }
      }
    }

    /** Claims a job and runs it; without a job the turn is a wait for a wake-up. */
    method Turn()
      requires Valid() && now.pc.Ready?
      modifies this, store
      ensures Performed(old(now), old(clock)) && now.pc.Ready? && clock > old(clock)
    {
      ghost var start, from := now, clock;
      var job := Claim();
      if job.Some? {
        ghost var mid, at := now, clock;
        RunJob(job.value);
        Joined(start, from, mid, at);
      }
    }

    /** The claim at the head of a turn. */
    method Claim() returns (job: Option<Job>)
      requires Valid() && now.pc.Ready?
      modifies this, store`jobs
      ensures Performed(old(now), old(clock)) && clock == old(clock) + 1
      ensures now.pc == match job case None => Ready case Some(j) => AfterClaim(cfg, j)
    {
      ghost var start := now;
      var ans := Await();
      var r := store.ClaimNext(ans.outcome);
      ghost var done := ClaimEnd(Current(start), r, store.Contents());
      Advance(start, done);
      job := if r.Claimed? then Some(r.job) else None;
    }

    /** One job: its review, then the verdict on its row, then a note if it is dead. */
    method RunJob(job: Job)
      requires Valid() && now.pc == AfterClaim(cfg, job)
      modifies this, store
      ensures Performed(old(now), old(clock)) && now.pc.Ready? && clock > old(clock)
    {
      ghost var start, from := now, clock;
      var ok := Review(job);
      ghost var mid, at := now, clock;
      var verdict := if ok then Done else if job.attempts < cfg.maxAttempts then JobState.Failed else Dead;
      FinishJob(job, verdict, ok);
      Joined(start, from, mid, at);
      if verdict == Dead {
        mid, at := now, clock;
        ReportFailure(job);
        Joined(start, from, mid, at);
      }
    }

    method FinishJob(job: Job, verdict: JobState, ghost ok: bool)
      requires Valid() && now.pc == Finishing(job, ok) && verdict == Verdict(cfg, job, ok)
      modifies this, store`jobs
      ensures Performed(old(now), old(clock)) && clock == old(clock) + 1
      ensures now.pc == AfterFinish(cfg, job, ok)
    {
      ghost var start := now;
      var ans := Await();
      ghost var done := FinishStep(Current(start), job, ok);
      var _ := store.Finish(job.id, verdict, ans.outcome);
      Advance(start, done);
    }

    method ReportFailure(job: Job)
      requires Valid() && now.pc == if job.delivery.provider in cfg.providers then Reporting(job) else Ready
      modifies this, store`jobs
      ensures Performed(old(now), old(clock)) && now.pc.Ready?
      ensures clock == old(clock) + if job.delivery.provider in cfg.providers then 1 else 0
    {
      if job.delivery.provider !in cfg.providers {
        return;
      }
      ghost var start := now;
      var ans := Await();
      ghost var done := ReportStep(Current(start), job);
      Advance(start, done);
    }

    // ----- review -----

    /** One review pass. It ends at the verdict that it reports. */
    method Review(job: Job) returns (ok: bool)
      requires Valid() && now.pc == AfterClaim(cfg, job)
      modifies this, store
      ensures Performed(old(now), old(clock)) && now.pc == Finishing(job, ok)
      ensures job.delivery.provider !in cfg.providers ==> !ok && clock == old(clock)
      ensures job.delivery.provider in cfg.providers ==> clock > old(clock)
    {
      ghost var start, from := now, clock;
      if job.delivery.provider !in cfg.providers {
        return false;
      }
      if job.delivery.event == Reopened && job.attempts == 1 {
        ok := ResetBudget(job);
        if !ok {
          return;
        }
      }
      ghost var mid, at := now, clock;
      ok := ReviewBudgeted(job);
      Joined(start, from, mid, at);
    }

    method ResetBudget(job: Job) returns (ok: bool)
      requires Valid() && now.pc == Resetting(job)
      modifies this, store
      ensures Performed(old(now), old(clock))
      ensures now.pc == if ok then Reading(job) else Finishing(job, false)
    {
      ghost var start := now;
      var ans := Await();
      ghost var done := ResetStep(Current(start), job);
      ok := store.ResetPRState(job.Key(), ans.outcome);
      Advance(start, done);
    }

    /** The guards on the stored budget: spent first, then the head already reviewed. */
    method ReviewBudgeted(job: Job) returns (ok: bool)
      requires Valid() && now.pc == Reading(job)
      modifies this, store
      ensures Performed(old(now), old(clock)) && now.pc == Finishing(job, ok) && clock > old(clock)
    {
      ghost var start, from := now, clock;
      var st;
      st, ok := ReadBudget(job);
      if !ok {
        return;
      }
      ghost var mid, at := now, clock;
      if st.cycle >= cfg.maxCycles {
        ok := HandleExhausted(job, st);
      } else if st.lastReviewed == job.delivery.head {
        return true;
      } else {
        ok := ReviewHead(job, st);
      }
      Joined(start, from, mid, at);
    }

    method ReadBudget(job: Job) returns (st: PRState, ok: bool)
      requires Valid() && now.pc == Reading(job)
      modifies this, store`jobs
      ensures Performed(old(now), old(clock)) && clock == old(clock) + 1
      ensures now.pc == if ok then AfterRead(cfg, job, st) else Finishing(job, false)
    {
      ghost var start := now;
      var ans := Await();
      ghost var done := ReadStep(Current(start), job);
      st, ok := store.PRState(job.Key(), ans.outcome);
      Advance(start, done);
    }

    /** The pass itself: diff, engine, comments, summary, budget. */
    method ReviewHead(job: Job, st: PRState) returns (ok: bool)
      requires Valid() && now.pc == Fetching(job, st)
      modifies this, store
      ensures Performed(old(now), old(clock)) && now.pc == Finishing(job, ok)
    {
      ghost var start, from := now, clock;
      var scope, blank;
      ok, scope, blank := FetchDiff(job, st);
      if !ok || blank {
        return;
      }
      ghost var mid, at := now, clock;
      ok := ReviewDiff(job, st, scope);
      Joined(start, from, mid, at);
    }

    method ReviewDiff(job: Job, st: PRState, scope: Scope) returns (ok: bool)
      requires Valid() && now.pc == Reviewing(job, st, scope)
      modifies this, store
      ensures Performed(old(now), old(clock)) && now.pc == Finishing(job, ok)
    {
      ghost var start, from := now, clock;
      var findings;
      ok, findings := CallEngine(job, st, scope);
      if !ok {
        return;
      }
      ghost var mid, at := now, clock;
      var _, _, posted := PostFindings(job, st, scope, findings);
      ok := posted;
      Joined(start, from, mid, at);
      if ok {
        mid, at := now, clock;
        ok := Conclude(job, st, scope);
        Joined(start, from, mid, at);
      }
    }

    /** The pull request's metadata and the diff of this pass. */
    method FetchDiff(job: Job, st: PRState) returns (ok: bool, scope: Scope, blank: bool)
      requires Valid() && now.pc == Fetching(job, st)
      modifies this, store`jobs
      ensures Performed(old(now), old(clock))
      ensures now.pc == if !ok then Finishing(job, false)
                        else if blank then Finishing(job, true) else Reviewing(job, st, scope)
      ensures var ans, whole := world(old(clock)), st.cycle == 0 || st.lastReviewed == "";
        && blank == ans.blank
        && (ok <==> ans.outcome == Acked && (ans.diffed || (!whole && ans.compared)))
        && scope == if whole then Full
                    else if ans.compared then Delta(st.lastReviewed) else Fallback(st.lastReviewed)
    {
      ghost var start := now;
      var ans := Await();
      ghost var done := FetchStep(Current(start), job, st);
      ok, scope := ScopedDiff(st, st.cycle + 1, ans);
      blank := ans.blank;
      Advance(start, done);
      ok := ok && ans.outcome.Acked?; // the metadata call has to succeed too
    }

    /** Which diff a pass asks for: the whole one at first, then the comparison with the head
        reviewed last, and the whole one again when that comparison fails. */
    method ScopedDiff(st: PRState, cycle: int, ans: Answer) returns (ok: bool, scope: Scope)
      requires cycle == st.cycle + 1
      ensures scope == ScopeFor(st, ans.compared) && (ok <==> HasDiff(st, ans))
      ensures cycle == 1 || st.lastReviewed == "" ==> scope == Full && (ok <==> ans.diffed)
      ensures cycle != 1 && st.lastReviewed != "" && ans.compared ==> scope == Delta(st.lastReviewed) && ok
      ensures cycle != 1 && st.lastReviewed != "" && !ans.compared ==>
                scope == Fallback(st.lastReviewed) && (ok <==> ans.diffed)
    {
      if cycle == 1 || st.lastReviewed == "" {
        return ans.diffed, Full;
      }
      if ans.compared {
        return true, Delta(st.lastReviewed);
      }
      return ans.diffed, Fallback(st.lastReviewed);
    }

    method CallEngine(job: Job, st: PRState, scope: Scope) returns (ok: bool, findings: seq<Finding>)
      requires Valid() && now.pc == Reviewing(job, st, scope)
      modifies this, store`jobs
      ensures Performed(old(now), old(clock))
      ensures now.pc == if ok then Selecting(job, st, scope, findings) else Finishing(job, false)
      ensures var ans := world(old(clock)); findings == ans.findings && (ok <==> ans.outcome == Acked)
    {
      ghost var start := now;
      var ans := Await();
      ghost var done := EngineStep(Current(start), job, st, scope);
      ok, findings := ans.outcome.Acked?, ans.findings;
      Advance(start, done);
    }

    /** Collects the eligible findings by fingerprint. */
    method CollectFindings(findings: seq<Finding>) returns (table: map<string, Finding>, fps: seq<string>)
      ensures Collected(fps, table) == Collect(cfg.digest, cfg.minSeverity, findings)
    {
      table, fps := map[], [];
      for i := 0 to |findings|
        invariant Collected(fps, table) == Collect(cfg.digest, cfg.minSeverity, findings[..i])
      {
        assert findings[..i + 1][..i] == findings[..i];
        var f := findings[i];
        if !AtLeast(f.severity, cfg.minSeverity) {
          continue;
        }
        var fp := Fingerprint(cfg.digest, f);
        if fp in table {
          continue;
        }
        table := table[fp := f];
        fps := fps + [fp];
      }
      assert findings[..|findings|] == findings;
    }

    /** The fingerprints to try, most severe first, and those over the cap. */
    method SelectFindings(
      job: Job, st: PRState, scope: Scope, findings: seq<Finding>, table: map<string, Finding>, fps: seq<string>)
      returns (tried: seq<string>, overCap: seq<string>, ok: bool)
      requires Valid() && now.pc == Selecting(job, st, scope, findings)
      requires Collected(fps, table) == Collect(cfg.digest, cfg.minSeverity, findings)
      modifies this, store`jobs
      ensures Performed(old(now), old(clock))
      ensures now.pc == if ok then AfterPosts(job, st, scope, tried) else Finishing(job, false)
      ensures var seen := Posted(old(store.Contents()), job.Key());
        ok ==> tried == Attempted(cfg.digest, cfg.minSeverity, cfg.maxComments, findings, seen)
               && overCap == OverCap(cfg.digest, cfg.minSeverity, cfg.maxComments, findings, seen)
    {
      tried, overCap := [], [];
      var unseen;
      unseen, ok := ReadUnseen(job, st, scope, findings, fps);
      if ok {
        tried, overCap := RankAndCap(table, unseen);
      }
    }

    method ReadUnseen(job: Job, st: PRState, scope: Scope, ghost findings: seq<Finding>, fps: seq<string>)
      returns (unseen: seq<string>, ok: bool)
      requires Valid() && now.pc == Selecting(job, st, scope, findings)
      requires fps == Collect(cfg.digest, cfg.minSeverity, findings).fps
      modifies this, store`jobs
      ensures Performed(old(now), old(clock))
      ensures ok ==> unseen == Unseen(fps, Posted(old(store.Contents()), job.Key()))
      ensures var seen := Posted(old(store.Contents()), job.Key());
        now.pc == if ok then AfterPosts(job, st, scope, Chosen(cfg, findings, seen)) else Finishing(job, false)
    {
      ghost var start := now;
      unseen, ok := QueryUnseen(job.Key(), fps);
      ghost var done := UnseenStep(Current(start), job, st, scope, findings, fps, ok);
      Advance(start, done);
    }

    /** The query itself: the operation has begun, and the worker's step is still to come. */
    method QueryUnseen(key: string, fps: seq<string>) returns (unseen: seq<string>, ok: bool)
      requires Valid()
      modifies this, store`jobs
      ensures Valid() && clock == old(clock) + 1 && Current(old(now)).Begun()
      ensures ok == (|fps| == 0 || world(old(clock)).outcome.Acked?)
      ensures now.pc == old(now.pc) && Posted(now.db, key) == old(Posted(store.Contents(), key))
      ensures ok ==> unseen == Unseen(fps, Posted(now.db, key))
    {
      var ans := Await();
      unseen, ok := store.UnseenFingerprints(key, fps, ans.outcome);
    }

    method RankAndCap(table: map<string, Finding>, unseen: seq<string>)
      returns (tried: seq<string>, overCap: seq<string>)
      ensures var sorted := SortDesc(table, unseen); var n := Capped(sorted, cfg.maxComments);
        tried == sorted[..n] && overCap == sorted[n..]
      ensures forall x, y | x in tried && y in overCap && x in table && y in table ::
                NotBelow(table[x].severity, table[y].severity)
    {
      tried, overCap := SortDesc(table, unseen), [];
      if cfg.maxComments > 0 && |tried| > cfg.maxComments {
        tried, overCap := tried[..cfg.maxComments], tried[cfg.maxComments..];
      }
      forall x, y | x in tried && y in overCap && x in table && y in table
        ensures NotBelow(table[x].severity, table[y].severity)
      {
        HighestFirst(table, unseen, tried, overCap, x, y);
      }
    }

    /** Posts fingerprints one by one, recording each accepted one before the next. */
    method PostAll(job: Job, st: PRState, scope: Scope, table: map<string, Finding>, tried: seq<string>)
      returns (posted: seq<Finding>, rejected: seq<Finding>, ok: bool)
      requires Valid() && now.pc == AfterPosts(job, st, scope, tried)
      requires forall fp | fp in tried :: fp in table
      modifies this, store`jobs, store`posted
      ensures Performed(old(now), old(clock))
      ensures now.pc == if ok then Summarizing(job, st, scope) else Finishing(job, false)
      ensures ok ==> Shuffles(posted, rejected, Look(table, tried))
    {
      ghost var start, from := now, clock;
      posted, rejected, ok := [], [], true;
      assert tried[0..] == tried;
      for i := 0 to |tried|
        invariant ok && Performed(start, from)
        invariant now.pc == AfterPosts(job, st, scope, tried[i..])
        invariant Shuffles(posted, rejected, Look(table, tried[..i]))
      {
        var fp := tried[i];
        ghost var mid, at := now, clock;
        assert tried[i..][1..] == tried[i + 1..];
        NextFinding(table, tried, i, posted, rejected);
        var accepted;
        accepted, ok := PostAndRecord(job, st, scope, fp, tried[i..]);
        Joined(start, from, mid, at);
        if !ok {
          return;
        }
        if accepted {
          posted := posted + [table[fp]];
        } else {
          rejected := rejected + [table[fp]];
        }
      }
      assert tried[..|tried|] == tried && tried[|tried|..] == [];
    }

    /** One comment: a rejected one is skipped, an accepted one is recorded at once. */
    method PostAndRecord(job: Job, st: PRState, scope: Scope, fp: string, ghost todo: seq<string>)
      returns (accepted: bool, ok: bool)
      requires Valid() && now.pc == Posting(job, st, scope, todo) && todo != [] && todo[0] == fp
      modifies this, store`jobs, store`posted
      ensures Performed(old(now), old(clock))
      ensures now.pc == if ok then AfterPosts(job, st, scope, todo[1..]) else Finishing(job, false)
      ensures !ok ==> accepted
    {
      ghost var start, from := now, clock;
      ok := true;
      accepted := PostOne(job, st, scope, fp, todo);
      if accepted {
        ghost var mid, at := now, clock;
        ok := RecordOne(job, st, scope, fp, todo[1..]);
        Joined(start, from, mid, at);
      }
    }

    lemma NextFinding(table: map<string, Finding>, tried: seq<string>, i: nat, xs: seq<Finding>, ys: seq<Finding>)
      requires i < |tried| && (forall fp | fp in tried :: fp in table)
      requires Shuffles(xs, ys, Look(table, tried[..i]))
      ensures Shuffles(xs + [table[tried[i]]], ys, Look(table, tried[..i + 1]))
      ensures Shuffles(xs, ys + [table[tried[i]]], Look(table, tried[..i + 1]))
    {
      assert tried[..i + 1] == tried[..i] + [tried[i]];
      LookAppend(table, tried[..i], tried[i]);
      ShufflesAppend(xs, ys, Look(table, tried[..i]), table[tried[i]]);
    }

    method FindingsOf(table: map<string, Finding>, fps: seq<string>) returns (fs: seq<Finding>)
      requires forall fp | fp in fps :: fp in table
      ensures fs == Look(table, fps)
    {
      fs := [];
      for i := 0 to |fps|
        invariant fs == Look(table, fps[..i])
      {
        assert fps[..i + 1] == fps[..i] + [fps[i]];
        LookAppend(table, fps[..i], fps[i]);
        fs := fs + [table[fps[i]]];
      }
      assert fps[..|fps|] == fps;
    }

    /** The whole comment step. It returns the findings that were accepted, and those rejected or
        over the cap: no selected finding is lost. */
    method PostFindings(job: Job, st: PRState, scope: Scope, findings: seq<Finding>)
      returns (posted: seq<Finding>, unposted: seq<Finding>, ok: bool)
      requires Valid() && now.pc == Selecting(job, st, scope, findings)
      modifies this, store`jobs, store`posted
      ensures Performed(old(now), old(clock))
      ensures now.pc == if ok then Summarizing(job, st, scope) else Finishing(job, false)
      ensures ok ==> NothingDropped(cfg, findings, Posted(old(store.Contents()), job.Key()), posted, unposted)
    {
      posted, unposted := [], [];
      ghost var start, from, seen := now, clock, Posted(store.Contents(), job.Key());
      var table, fps := CollectFindings(findings);
      var tried, overCap;
      tried, overCap, ok := SelectFindings(job, st, scope, findings, table, fps);
      if !ok {
        return;
      }
      TopK(cfg.digest, cfg.minSeverity, cfg.maxComments, findings, seen);
      assert forall fp | fp in tried || fp in overCap :: fp in tried + overCap;
      ghost var mid, at := now, clock;
      var rejected;
      posted, rejected, ok := PostAll(job, st, scope, table, tried);
      Joined(start, from, mid, at);
      if ok {
        var left := FindingsOf(table, overCap);
        unposted := rejected + left;
      }
    }

    method PostOne(job: Job, st: PRState, scope: Scope, ghost fp: string, ghost todo: seq<string>)
      returns (accepted: bool)
      requires Valid() && now.pc == Posting(job, st, scope, todo) && todo != [] && todo[0] == fp
      modifies this, store`jobs
      ensures Performed(old(now), old(clock))
      ensures now.pc == if accepted then Recording(job, st, scope, fp, todo[1..])
                        else AfterPosts(job, st, scope, todo[1..])
    {
      ghost var start := now;
      var ans := Await();
      ghost var done := PostStep(Current(start), job, st, scope, todo);
      Advance(start, done);
      accepted := ans.outcome.Acked?;
    }

    method RecordOne(job: Job, st: PRState, scope: Scope, fp: string, ghost todo: seq<string>) returns (ok: bool)
      requires Valid() && now.pc == Recording(job, st, scope, fp, todo)
      modifies this, store`jobs, store`posted
      ensures Performed(old(now), old(clock))
      ensures now.pc == if ok then AfterPosts(job, st, scope, todo) else Finishing(job, false)
    {
      ghost var start := now;
      var ans := Await();
      ghost var done := RecordStep(Current(start), job, st, scope, fp, todo);
      ok := store.RecordFingerprint(job.Key(), fp, ans.outcome);
      Advance(start, done);
    }

    /** The summary, its id, and then the cycle together with the reviewed head. */
    method Conclude(job: Job, state: PRState, scope: Scope) returns (ok: bool)
      requires Valid() && now.pc == Summarizing(job, state, scope)
      modifies this, store`jobs, store`reviews
      ensures Performed(old(now), old(clock)) && now.pc == Finishing(job, ok)
    {
      ghost var start, from := now, clock;
      var st, id := state, "";
      id, ok := PostSummary(job, st, scope);
      if !ok {
        return;
      }
      st := st.(summaryId := id, summaryCycle := state.cycle + 1);
      ghost var mid, at := now, clock;
      ok := SaveSummary(job, st, scope);
      Joined(start, from, mid, at);
      if ok {
        mid, at := now, clock;
        var spent := st.(cycle := state.cycle + 1, lastReviewed := job.delivery.head);
        ok := SaveCycle(job, spent, st, scope);
        Joined(start, from, mid, at);
      }
    }

    method SaveSummary(job: Job, st: PRState, scope: Scope) returns (ok: bool)
      requires Valid() && now.pc == SavingSummary(job, st, scope)
      modifies this, store`jobs, store`reviews
      ensures Performed(old(now), old(clock))
      ensures now.pc == if ok then SavingCycle(job, st, scope) else Finishing(job, false)
    {
      ghost var start := now;
      var ans := Await();
      ghost var done := SummaryStep(Current(start), job, st, scope);
      ok := store.SavePRState(job.Key(), st, ans.outcome);
      Advance(start, done);
    }

    method SaveCycle(job: Job, st: PRState, ghost state: PRState, ghost scope: Scope) returns (ok: bool)
      requires Valid() && now.pc == SavingCycle(job, state, scope)
      requires st == state.(cycle := state.cycle + 1, lastReviewed := job.delivery.head)
      modifies this, store`jobs, store`reviews
      ensures Performed(old(now), old(clock)) && now.pc == Finishing(job, ok)
    {
      ghost var start := now;
      var ans := Await();
      ghost var done := CycleStep(Current(start), job, state, scope, st);
      ok := store.SavePRState(job.Key(), st, ans.outcome);
      Advance(start, done);
    }

    /** Edits the summary of the same cycle, or posts a new one. */
    method PostSummary(job: Job, st: PRState, scope: Scope) returns (id: string, ok: bool)
      requires Valid() && now.pc == Summarizing(job, st, scope)
      modifies this, store`jobs
      ensures Performed(old(now), old(clock))
      ensures id == SummaryIdOf(st, world(old(clock)).id) && (ok <==> world(old(clock)).outcome == Acked)
      ensures st.summaryId != "" && st.summaryCycle == st.cycle + 1 ==> id == st.summaryId
      ensures st.summaryId == "" || st.summaryCycle != st.cycle + 1 ==> id == world(old(clock)).id
      ensures now.pc == if ok then SavingSummary(job, st.(summaryId := id, summaryCycle := st.cycle + 1), scope)
                        else Finishing(job, false)
    {
      ghost var start := now;
      var ans := Await();
      if EditsSummary(st) {
        id := st.summaryId;
      } else {
        id := ans.id;
      }
      ok := ans.outcome.Acked?;
      ghost var done := CommentStep(Current(start), job, st, scope, id);
      Advance(start, done);
    }

    /** A push after the budget is spent: one notice, then silence. */
    method HandleExhausted(job: Job, state: PRState) returns (ok: bool)
      requires Valid() && state.cycle >= cfg.maxCycles && now.pc == AfterRead(cfg, job, state)
      modifies this, store`jobs, store`reviews
      ensures Performed(old(now), old(clock)) && now.pc == Finishing(job, ok)
      ensures !cfg.announce || state.noticePosted ==> ok && clock == old(clock)
    {
      if !cfg.announce || state.noticePosted {
        return true;
      }
      ghost var start, from := now, clock;
      ok := PostNotice(job, state);
      if ok {
        ghost var mid, at := now, clock;
        var st := state.(noticePosted := true);
        ok := SaveNotice(job, st);
        Joined(start, from, mid, at);
      }
    }

    method PostNotice(job: Job, st: PRState) returns (ok: bool)
      requires Valid() && now.pc == Noticing(job, st)
      modifies this, store`jobs
      ensures Performed(old(now), old(clock))
      ensures now.pc == if ok then SavingNotice(job, st.(noticePosted := true)) else Finishing(job, false)
    {
      ghost var start := now;
      var ans := Await();
      ghost var done := AnnounceStep(Current(start), job, st);
      ok := ans.outcome.Acked?;
      Advance(start, done);
    }

    method SaveNotice(job: Job, st: PRState) returns (ok: bool)
      requires Valid() && now.pc == SavingNotice(job, st)
      modifies this, store`jobs, store`reviews
      ensures Performed(old(now), old(clock)) && now.pc == Finishing(job, ok)
    {
      ghost var start := now;
      var ans := Await();
      ghost var done := NoticeStep(Current(start), job, st);
      ok := store.SavePRState(job.Key(), st, ans.outcome);
      Advance(start, done);
    }
  }
}
