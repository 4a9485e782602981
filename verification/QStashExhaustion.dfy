/** For which retry limits a message whose every POST fails can end up in the DLQ. */
module QStashExhaustion {
  import opened Backoff
  import opened QStashModel
  import opened QStashSafety
  import opened QStashSolo
  import opened QStashLiveness

  lemma {:induction false} SoloWithoutStarts(s: State, run: seq<Action>)
    requires Legal(s, run) && Solo(s) && forall a <- run :: !a.Start?
    ensures SoloRun(s, run) && Solo(Final(s, run))
    decreases |run|
  {
    if run != [] {
      assert run[0] in run;
      WorkersOnlyLeave(s, run[0]);
      SoloWithoutStarts(Apply(s, run[0]), run[1..]);
    }
  }

  /** A single idle worker and one message waiting. */
  ghost predicate Waiting(s: State, w: WorkerId, id: Id) {
    Inv(s) && s.workers == map[w := Idle] && s.queue.Keys == {id} && s.queue[id] >= 0 && id in s.hist
  }

  function DueClock(s: State, id: Id): int
    requires id in s.queue
  {
    if s.clock >= s.queue[id] * MILLISECOND then s.clock else s.queue[id] * MILLISECOND
  }

  /** The worker waits until the message is due ... */
  lemma WaitUntilDue(s: State, w: WorkerId, id: Id) returns (a: Action, t: State)
    requires Waiting(s, w, id)
    ensures Runs(s, [a], t) && Inv(t) && !a.Start? && t == s.(clock := DueClock(s, id))
  {
    var dt := DueClock(s, id) - s.clock;
    a, t := Advance(dt), s.(clock := DueClock(s, id));
    KeepAdvance(s, dt);
    RunOne(s, a, t);
  }

  /** ... and reads the clock. */
  lemma ReadClock(s: State, w: WorkerId) returns (t: State)
    requires Inv(s) && s.workers == map[w := Idle]
    ensures Runs(s, [Poll(w)], t) && Inv(t) && t == s.(workers := map[w := Polling(UnixMilli(s.clock))])
  {
    t := SetWorker(s, w, Polling(UnixMilli(s.clock)));
    KeepLoop(s, w, Polling(UnixMilli(s.clock)));
    assert t.workers == map[w := Polling(UnixMilli(s.clock))];
    RunOne(s, Poll(w), t);
  }

  lemma WaitAndPoll(s: State, w: WorkerId, id: Id) returns (run: seq<Action>, t: State)
    requires Waiting(s, w, id)
    ensures Runs(s, run, t) && Inv(t) && forall a <- run :: !a.Start?
    ensures t == s.(clock := DueClock(s, id), workers := map[w := Polling(UnixMilli(DueClock(s, id)))])
  {
    var a, u := WaitUntilDue(s, w, id);
    t := ReadClock(u, w);
    RunTwo(s, a, u, Poll(w), t);
    run := [a, Poll(w)];
  }

  lemma SnapshotOne(s: State, w: WorkerId, id: Id, now: int)
    requires s.workers == map[w := Polling(now)] && s.queue.Keys == {id} && 0 <= s.queue[id] <= now
    ensures Enabled(s, Snapshot(w, [id]))
  {
  }

  lemma OnlyWorkerSet(s: State, w: WorkerId, before: Worker, next: Worker)
    requires s.workers == map[w := before]
    ensures SetWorker(s, w, next) == s.(workers := map[w := next])
  {
    assert s.workers[w := next] == map[w := next];
  }

  /** Worker `w` alone has taken the one queued message. */
  ghost predicate Took(s: State, t: State, w: WorkerId, id: Id, now: int) {
    && t.clock == s.clock && t.records == s.records && t.queue == map[]
    && t.workers == map[w := Busy(now, [], id, Claimed)]
    && id in s.hist && id in t.hist
    && t.hist[id].born == s.hist[id].born && t.hist[id].claims == s.hist[id].claims + 1
  }

  lemma ClaimOne(s: State, w: WorkerId, id: Id, now: int)
    requires s.workers == map[w := Scanning(now, [id])] && s.queue.Keys == {id} && id in s.hist
    ensures Enabled(s, Claim(w, id)) && Took(s, DoClaim(s, w), w, id, now)
  {
    assert [id][1..] == [];
  }

  /** Its snapshot is that one message ... */
  lemma TakeSnapshotOne(s: State, w: WorkerId, id: Id, now: int) returns (t: State)
    requires s.workers == map[w := Polling(now)]
    requires s.queue.Keys == {id} && 0 <= s.queue[id] <= now
    requires Inv(s)
    ensures Runs(s, [Snapshot(w, [id])], t) && Inv(t)
    ensures t == s.(workers := map[w := Scanning(now, [id])])
  {
    SnapshotOne(s, w, id, now);
    t := SetWorker(s, w, Scanning(now, [id]));
    OnlyWorkerSet(s, w, Polling(now), Scanning(now, [id]));
    KeepLoop(s, w, Scanning(now, [id]));
    RunOne(s, Snapshot(w, [id]), t);
  }

  /** ... which it claims. */
  lemma TakeClaimOne(s: State, w: WorkerId, id: Id, now: int) returns (t: State)
    requires Inv(s) && s.workers == map[w := Scanning(now, [id])] && s.queue.Keys == {id} && id in s.hist
    ensures Runs(s, [Claim(w, id)], t) && Inv(t) && Took(s, t, w, id, now)
  {
    ClaimOne(s, w, id, now);
    t := DoClaim(s, w);
    KeepClaim(s, w);
    RunOne(s, Claim(w, id), t);
  }

  lemma TookSoon(s: State, u: State, t: State, w: WorkerId, id: Id, now: int)
    requires Took(u, t, w, id, now) && u.clock == s.clock && u.records == s.records && u.hist == s.hist
    ensures Took(s, t, w, id, now)
  {
  }

  lemma SnapshotAndClaim(s: State, w: WorkerId, id: Id, now: int) returns (run: seq<Action>, t: State)
    requires s.workers == map[w := Polling(now)] && id in s.hist
    requires s.queue.Keys == {id} && 0 <= s.queue[id] <= now
    requires Inv(s)
    ensures Runs(s, run, t) && Inv(t) && forall a <- run :: !a.Start?
    ensures Took(s, t, w, id, now)
  {
    var u := TakeSnapshotOne(s, w, id, now);
    t := TakeClaimOne(u, w, id, now);
    TookSoon(s, u, t, w, id, now);
    RunTwo(s, Snapshot(w, [id]), u, Claim(w, id), t);
    run := [Snapshot(w, [id]), Claim(w, id)];
  }

  /** What the claimed message's record says its delivery will come to when the POST fails. */
  lemma FailingFate(s: State, w: WorkerId, id: Id, now: int)
    requires Inv(s) && s.workers == map[w := Busy(now, [], id, Claimed)] && id in s.hist && s.hist[id].born.urlOk
    ensures At(s, w) && s.hist[id].claims >= 1
    ensures FateOf(Claimed, Lookup(s.records, id), s.clock, false)
            == if s.hist[id].claims > s.hist[id].born.maxRetries then GivesUp
               else Requeues(NextAttempt(s.clock, s.hist[id].claims))
  {
    HolderHolds(s, w, id);
  }

  lemma EndPass(s: State, w: WorkerId, now: int) returns (run: seq<Action>, t: State)
    requires Inv(s) && s.workers == map[w := Scanning(now, [])]
    ensures Runs(s, run, t) && Inv(t) && forall a <- run :: !a.Start?
    ensures t == s.(workers := map[w := Idle])
  {
    t := SetWorker(s, w, Idle);
    KeepLoop(s, w, Idle);
    RunNothing(t);
    RunFirst(s, Finish(w), [], t);
    run := [Finish(w)] + [];
    assert t.workers == map[w := Idle];
  }

  lemma OnlyEntry(q: map<Id, int>, id: Id)
    requires id in q && forall x :: x in q ==> x == id
    ensures q == map[id := q[id]]
  {
  }

  lemma AfterFailing(s: State, t: State, w: WorkerId, id: Id, now: int, fate: Fate)
    requires s.workers == map[w := Busy(now, [], id, Claimed)] && s.queue == map[] && id in s.hist
    requires Alone(s, t, w, id) && t.workers[w] == Scanning(now, []) && Ended(s, t, id, fate)
    ensures t.clock == s.clock && id in t.hist && t.workers == map[w := Scanning(now, [])]
    ensures t.hist[id].born == s.hist[id].born && t.hist[id].claims == s.hist[id].claims
    ensures fate.Requeues? ==> t.queue == map[id := fate.due]
    ensures fate.GivesUp? ==> id in t.dlq
  {
    if fate.Requeues? {
      OnlyEntry(t.queue, id);
    }
  }

  lemma FailDelivery(s: State, w: WorkerId, id: Id, now: int) returns (run: seq<Action>, t: State)
    requires Inv(s) && s.workers == map[w := Busy(now, [], id, Claimed)] && s.queue == map[]
    requires id in s.hist && s.hist[id].born.urlOk
    ensures Runs(s, run, t) && Inv(t) && forall a <- run :: !a.Start?
    ensures t.clock == s.clock && id in t.hist
    ensures t.hist[id].born == s.hist[id].born && t.hist[id].claims == s.hist[id].claims
    ensures t.workers == map[w := Scanning(now, [])]
    ensures if s.hist[id].claims > s.hist[id].born.maxRetries then id in t.dlq
            else t.queue == map[id := NextAttempt(s.clock, s.hist[id].claims)]
  {
    FailingFate(s, w, id, now);
    run, t := FinishDeliver(s, w, id, false);
    AfterFailing(s, t, w, id, now, FateOf(Claimed, Lookup(s.records, id), s.clock, false));
  }

  /** One failed attempt, from waiting to waiting or to the DLQ. */
  lemma FailRound(s: State, w: WorkerId, id: Id) returns (run: seq<Action>, t: State)
    requires Waiting(s, w, id) && s.hist[id].born.urlOk
    ensures Runs(s, run, t) && Inv(t) && forall a <- run :: !a.Start?
    ensures t.clock == DueClock(s, id) && t.workers == map[w := Idle]
    ensures id in t.hist && t.hist[id].born == s.hist[id].born && t.hist[id].claims == s.hist[id].claims + 1
    ensures if s.hist[id].claims >= s.hist[id].born.maxRetries then id in t.dlq
            else t.queue == map[id := NextAttempt(t.clock, t.hist[id].claims)]
  {
    var r1, s1 := WaitAndPoll(s, w, id);
    var now := UnixMilli(s1.clock);
    assert s.queue[id] <= now;
    var r2, s2 := SnapshotAndClaim(s1, w, id, now);
    var r3, s3 := FailDelivery(s2, w, id, now);
    var r4, s4 := EndPass(s3, w, now);
    RunThen(s2, r3, s3, r4, s4);
    RunThen(s1, r2, s2, r3 + r4, s4);
    RunThen(s, r1, s1, r2 + (r3 + r4), s4);
    run, t := r1 + (r2 + (r3 + r4)), s4;
  }

  // --- repeating it ---

  const FIRST_CLOCK: int := 1_266_874_889_709_551_616 // February 2010, in nanoseconds

  /** From 2010 on, the first 34 back-offs leave the due time at or after 1970, and add at most a minute. */
  lemma BackoffUpTo34(clock: int, r: nat)
    requires 1 <= r <= 34 && clock >= FIRST_CLOCK
    ensures NextAttempt(clock, r) >= 0
    ensures NextAttempt(clock, r) * MILLISECOND <= clock + 60 * SECOND
  {
    if r <= 33 {
      BackoffExactUpTo33(r);
    } else {
      BackoffIsFolded(34);
      assert Folded(34) == -FIRST_CLOCK;
    }
  }

  /** After a failed round that leaves attempts, the worker is waiting again, at most a minute from due. */
  lemma StillWaiting(s: State, t: State, w: WorkerId, id: Id)
    requires Inv(t) && t.workers == map[w := Idle] && id in t.hist && t.clock >= FIRST_CLOCK
    requires 1 <= t.hist[id].claims <= 34 && t.queue == map[id := NextAttempt(t.clock, t.hist[id].claims)]
    ensures Waiting(t, w, id) && DueClock(t, id) <= t.clock + 60 * SECOND
  {
    BackoffUpTo34(t.clock, t.hist[id].claims);
  }

  /** Waiting with `left` retries to go. */
  ghost predicate Remaining(s: State, w: WorkerId, id: Id, left: nat) {
    Waiting(s, w, id) && s.hist[id].born.urlOk && s.clock >= FIRST_CLOCK
    && s.hist[id].claims + left == s.hist[id].born.maxRetries <= 34
  }

  lemma RetryRound(s: State, w: WorkerId, id: Id, left: nat) returns (run: seq<Action>, t: State)
    requires Remaining(s, w, id, left) && left > 0
    ensures Runs(s, run, t) && forall a <- run :: !a.Start?
    ensures Remaining(t, w, id, left - 1) && t.hist[id].born == s.hist[id].born
    ensures DueClock(t, id) <= DueClock(s, id) + 60 * SECOND
  {
    run, t := FailRound(s, w, id);
    StillWaiting(s, t, w, id);
  }

  lemma LastRound(s: State, w: WorkerId, id: Id) returns (run: seq<Action>, t: State)
    requires Remaining(s, w, id, 0)
    ensures Runs(s, run, t) && forall a <- run :: !a.Start?
    ensures id in t.hist && t.hist[id].born == s.hist[id].born && id in t.dlq && t.clock == DueClock(s, id)
  {
    run, t := FailRound(s, w, id);
  }

  /** The run has put the message into the DLQ by time `limit`. */
  ghost predicate Buries(s: State, run: seq<Action>, t: State, id: Id, m: Msg, limit: int) {
    && Runs(s, run, t) && (forall a <- run :: !a.Start?)
    && id in t.hist && t.hist[id].born == m && id in t.dlq && t.clock <= limit
  }

  lemma BuriesAfter(s: State, head: seq<Action>, u: State, rest: seq<Action>, t: State, id: Id, m: Msg, limit: int)
    requires Runs(s, head, u) && (forall a <- head :: !a.Start?) && Buries(u, rest, t, id, m, limit)
    ensures Buries(s, head + rest, t, id, m, limit)
  {
    RunThen(s, head, u, rest, t);
  }

  lemma {:induction false} Exhaust(s: State, w: WorkerId, id: Id, left: nat, limit: int)
    returns (run: seq<Action>, t: State)
    requires Remaining(s, w, id, left) && DueClock(s, id) + 60_000_000_000 * left <= limit
    ensures Buries(s, run, t, id, s.hist[id].born, limit)
    decreases left
  {
    if left == 0 {
      run, t := LastRound(s, w, id);
    } else {
      var head, u := RetryRound(s, w, id, left);
      var rest;
      rest, t := Exhaust(u, w, id, left - 1, limit);
      run := head + rest;
      BuriesAfter(s, head, u, rest, t, id, s.hist[id].born, limit);
    }
  }

  /** Publishing one message to an empty Redis. */
  lemma PublishOne(clock: int, m: Msg) returns (run: seq<Action>, s: State)
    requires NewMsgOk(m)
    ensures Runs(Init(clock), run, s) && Inv(s) && forall a <- run :: !a.Start?
    ensures s.workers == map[] && s.clock == clock && s.queue == map[0 := m.notBefore]
    ensures 0 in s.hist && s.hist[0].born == m && s.hist[0].claims == 0
  {
    InitOk(clock);
    KeepPublish(Init(clock), 0, m);
    var s1 := DoPublish(Init(clock), 0, m);
    run, s := StorePublished(s1, m);
    RunFirst(Init(clock), Publish(0, m), run, s);
    run := [Publish(0, m)] + run;
  }

  lemma RecordEffect(s: State, m: Msg)
    requires s.pubs == map[0 := PubSave(m)]
    ensures Enabled(s, PublishSave(0))
    ensures var t := DoPublishSave(s, 0);
            && t.pubs == map[0 := PubAdd(m)] && t.workers == s.workers && t.clock == s.clock
            && t.queue == s.queue && t.hist == s.hist
  {
  }

  lemma RecordPublished(s: State, m: Msg) returns (t: State)
    requires Inv(s) && s.pubs == map[0 := PubSave(m)]
    ensures Runs(s, [PublishSave(0)], t) && Inv(t) && t.pubs == map[0 := PubAdd(m)]
    ensures t.workers == s.workers && t.clock == s.clock && t.queue == s.queue && t.hist == s.hist
  {
    RecordEffect(s, m);
    t := DoPublishSave(s, 0);
    KeepPublishSave(s, 0);
    RunOne(s, PublishSave(0), t);
  }

  lemma StorePublished(s: State, m: Msg) returns (run: seq<Action>, t: State)
    requires Inv(s) && s.workers == map[] && s.queue == map[] && s.pubs == map[0 := PubSave(m)]
    requires 0 in s.hist && s.hist[0].born == m && s.hist[0].claims == 0
    ensures Runs(s, run, t) && Inv(t) && forall a <- run :: !a.Start?
    ensures t.workers == map[] && t.clock == s.clock && t.queue == map[0 := m.notBefore]
    ensures 0 in t.hist && t.hist[0].born == m && t.hist[0].claims == 0
  {
    var u := RecordPublished(s, m);
    t := ListPublished(u, m);
    RunTwo(s, PublishSave(0), u, PublishAdd(0), t);
    run := [PublishSave(0), PublishAdd(0)];
  }

  lemma ListPublished(s: State, m: Msg) returns (t: State)
    requires Inv(s) && s.queue == map[] && s.pubs == map[0 := PubAdd(m)] && 0 in s.hist
    ensures Runs(s, [PublishAdd(0)], t) && Inv(t)
    ensures t.workers == s.workers && t.clock == s.clock && t.queue == map[0 := m.notBefore]
    ensures 0 in t.hist && t.hist[0].born == s.hist[0].born && t.hist[0].claims == s.hist[0].claims
  {
    t := DoPublishAdd(s, 0);
    KeepPublishAdd(s, 0);
    RunOne(s, PublishAdd(0), t);
  }

  lemma FirstLoopIsSolo(s: State)
    requires s.workers == map[]
    ensures Enabled(s, Start(1)) && SoloRun(s, [Start(1)])
    ensures Apply(s, Start(1)) == s.(workers := map[1 := Idle])
  {
    var t := Apply(s, Start(1));
    assert t.workers == map[1 := Idle];
    assert SoloRun(t, []) && [Start(1)][1..] == [];
  }

  /** ... and starting the loop. */
  lemma StartLoop(s: State) returns (t: State)
    requires Inv(s) && s.workers == map[] && s.queue.Keys == {0} && s.queue[0] >= 0 && 0 in s.hist
    ensures Runs(s, [Start(1)], t) && SoloRun(s, [Start(1)]) && Waiting(t, 1, 0)
    ensures t == s.(workers := map[1 := Idle])
  {
    FirstLoopIsSolo(s);
    t := SetWorker(s, 1, Idle);
    KeepLoop(s, 1, Idle);
    RunOne(s, Start(1), t);
  }

  lemma {:induction false} SoloRunsCompose(s: State, run: seq<Action>, t: State, more: seq<Action>)
    requires Runs(s, run, t) && SoloRun(s, run) && SoloRun(t, more)
    ensures SoloRun(s, run + more)
    decreases |run|
  {
    if run == [] {
      assert run + more == more;
    } else {
      SoloRunsCompose(Apply(s, run[0]), run[1..], t, more);
      assert (run + more)[0] == run[0] && (run + more)[1..] == run[1..] + more;
    }
  }

  /** A state of a single-loop run before April 2050 in which the message is in the DLQ. */
  ghost predicate DeadLetters(s: State, m: Msg) {
    && SoloReachable(s) && s.clock < LAST_STRANDING_CLOCK
    && exists id :: id in s.dlq && id in s.hist && s.hist[id].born == m
  }

  ghost predicate SoloRuns(s: State, run: seq<Action>, t: State) {
    Runs(s, run, t) && SoloRun(s, run)
  }

  lemma SoloThen(s: State, run: seq<Action>, t: State, more: seq<Action>, u: State)
    requires SoloRuns(s, run, t) && SoloRuns(t, more, u)
    ensures SoloRuns(s, run + more, u)
  {
    RunThen(s, run, t, more, u);
    SoloRunsCompose(s, run, t, more);
  }

  lemma StartAndExhaust(s: State) returns (run: seq<Action>, t: State)
    requires Inv(s) && s.workers == map[] && s.queue.Keys == {0} && s.queue[0] >= 0 && 0 in s.hist
    requires s.clock >= FIRST_CLOCK && s.hist[0].born.urlOk
    requires s.hist[0].claims == 0 && s.hist[0].born.maxRetries <= 34
    ensures SoloRuns(s, run, t) && 0 in t.hist && t.hist[0].born == s.hist[0].born && 0 in t.dlq
    ensures t.clock <= DueClock(s, 0) + 3600 * SECOND
  {
    var u := StartLoop(s);
    var rest;
    rest, t := Exhaust(u, 1, 0, u.hist[0].born.maxRetries, DueClock(s, 0) + 3600 * SECOND);
    SoloWithoutStarts(u, rest);
    SoloThen(s, [Start(1)], u, rest, t);
    run := [Start(1)] + rest;
  }

  lemma DeadLetteringRun(m: Msg, clock: int) returns (run: seq<Action>, t: State)
    requires NewMsgOk(m) && m.urlOk && 0 <= m.notBefore <= UnixMilli(clock) && m.maxRetries <= 34
    requires FIRST_CLOCK <= clock < LAST_STRANDING_CLOCK - 3600 * SECOND
    ensures SoloRuns(Init(clock), run, t) && t.clock < LAST_STRANDING_CLOCK
    ensures 0 in t.dlq && 0 in t.hist && t.hist[0].born == m
  {
    var head, s := PublishOne(clock, m);
    SoloWithoutStarts(Init(clock), head);
    var rest;
    rest, t := StartAndExhaust(s);
    SoloThen(Init(clock), head, s, rest, t);
    run := head + rest;
  }

  /**
   * A message due by `clock` can be dead-lettered by a failing destination if and only if its
   * retry limit is at most 34.
   */
  lemma DeadLetteredIffAtMost34(m: Msg, clock: int)
    requires NewMsgOk(m) && m.urlOk && 0 <= m.notBefore <= UnixMilli(clock)
    requires FIRST_CLOCK <= clock < LAST_STRANDING_CLOCK - 3600 * SECOND
    ensures (exists s :: DeadLetters(s, m)) <==> m.maxRetries <= 34
  {
    if m.maxRetries <= 34 {
      var run, t := DeadLetteringRun(m, clock);
      assert SoloReachable(t) by {
        assert SoloRun(Init(clock), run) && Legal(Init(clock), run) && Final(Init(clock), run) == t;
      }
      assert DeadLetters(t, m);
    } else {
      forall s ensures !DeadLetters(s, m) {
        if DeadLetters(s, m) {
          var id :| id in s.dlq && id in s.hist && s.hist[id].born == m;
          NeverDeadLettered(s, id);
        }
      }
    }
  }
}
