/**
 * When a queued message can be claimed: exactly when its score is not negative, and then by the
 * delivery loops that are running, without a fault.
 */
module QStashClaiming {
  import opened Backoff
  import opened QStashModel
  import opened QStashSafety
  import opened QStashSolo
  import opened QStashLiveness

  // --- runs without faults ---

  /** No crash, and a delivery loop starts only while there is none. */
  ghost predicate Faultless(s: State, run: seq<Action>)
    decreases |run|
  {
    run == []
    || (Enabled(s, run[0]) && (Plain(run[0]) || (run[0].Start? && s.workers == map[]))
        && Faultless(Apply(s, run[0]), run[1..]))
  }

  /** With at most one loop to begin with, that is how the program runs. */
  lemma {:induction false} FaultlessIsSolo(s: State, run: seq<Action>)
    requires Solo(s) && Faultless(s, run)
    ensures SoloRun(s, run) && Legal(s, run)
    decreases |run|
  {
    if run != [] {
      if !run[0].Start? {
        WorkersOnlyLeave(s, run[0]);
      }
      FaultlessIsSolo(Apply(s, run[0]), run[1..]);
    }
  }

  ghost predicate PlainRun(s: State, run: seq<Action>, t: State) {
    Runs(s, run, t) && forall a <- run :: Plain(a)
  }

  lemma PlainThen(s: State, run: seq<Action>, t: State, more: seq<Action>, u: State)
    requires PlainRun(s, run, t) && PlainRun(t, more, u)
    ensures PlainRun(s, run + more, u)
  {
    RunThen(s, run, t, more, u);
  }

  lemma PlainOne(s: State, a: Action, t: State)
    requires Enabled(s, a) && t == Apply(s, a) && Plain(a)
    ensures PlainRun(s, [a], t)
  {
    RunOne(s, a, t);
  }

  lemma {:induction false} PlainIsFaultless(s: State, run: seq<Action>)
    requires Legal(s, run) && forall a <- run :: Plain(a)
    ensures Faultless(s, run)
    decreases |run|
  {
    if run != [] {
      assert run[0] in run;
      PlainIsFaultless(Apply(s, run[0]), run[1..]);
    }
  }

  lemma {:induction false} FaultlessThen(s: State, run: seq<Action>, t: State, more: seq<Action>)
    requires Runs(s, run, t) && Faultless(s, run) && Faultless(t, more)
    ensures Faultless(s, run + more)
    decreases |run|
  {
    if run == [] {
      assert run + more == more;
    } else {
      FaultlessThen(Apply(s, run[0]), run[1..], t, more);
      assert (run + more)[0] == run[0] && (run + more)[1..] == run[1..] + more;
    }
  }

  // --- a due id can be reached ---

  /** `id` is waiting as before. */
  ghost predicate StillQueued(s: State, t: State, id: Id) {
    && id in s.queue && id in t.queue && t.queue[id] == s.queue[id]
    && id in s.hist && id in t.hist && t.hist[id] == s.hist[id]
  }

  /** Worker `w` has just claimed `id`. */
  ghost predicate JustClaimed(s: State, w: WorkerId, id: Id) {
    At(s, w) && s.workers[w].id == id && s.workers[w].stage == Claimed && id in s.hist
  }

  /** A run without faults in which the running loops go on until `w` claims `id`. */
  ghost predicate ClaimedBy(s: State, run: seq<Action>, t: State, w: WorkerId, id: Id) {
    && PlainRun(s, run, t) && Inv(t) && JustClaimed(t, w, id)
    && id in s.hist && t.hist[id].claims == s.hist[id].claims + 1
  }

  lemma ClaimedAfter(s: State, head: seq<Action>, u: State, rest: seq<Action>, t: State, w: WorkerId, id: Id)
    requires PlainRun(s, head, u) && StillQueued(s, u, id) && ClaimedBy(u, rest, t, w, id)
    ensures ClaimedBy(s, head + rest, t, w, id)
  {
    PlainThen(s, head, u, rest, t);
  }

  lemma ClaimNow(s: State, w: WorkerId, id: Id) returns (t: State)
    requires Inv(s) && CanClaim(s, w) && s.workers[w].todo[0] == id && StillQueued(s, s, id)
    ensures ClaimedBy(s, [Claim(w, id)], t, w, id)
  {
    t := DoClaim(s, w);
    KeepClaim(s, w);
    PlainOne(s, Claim(w, id), t);
  }

  /** `w` is scanning, with this rest of its pass, and `id` waits as in `s`. */
  ghost predicate ScansWith(s: State, t: State, w: WorkerId, id: Id, now: int, todo: seq<Id>) {
    Inv(t) && StillQueued(s, t, id) && w in t.workers && t.workers[w] == Scanning(now, todo)
  }

  lemma FinishOther(s: State, w: WorkerId, id: Id) returns (run: seq<Action>, t: State)
    requires Inv(s) && At(s, w) && StillQueued(s, s, id)
    ensures PlainRun(s, run, t) && ScansWith(s, t, w, id, s.workers[w].now, s.workers[w].todo)
  {
    HolderHolds(s, w, s.workers[w].id);
    run, t := FinishDeliver(s, w, s.workers[w].id, true);
  }

  lemma PassOver(s: State, w: WorkerId, id: Id)
    requires CanClaim(s, w) && s.workers[w].todo[0] != id && StillQueued(s, s, id)
    ensures var t, wk := DoClaim(s, w), s.workers[w];
      && StillQueued(s, t, id) && w in t.workers
      && (t.workers[w] == Scanning(wk.now, wk.todo[1..])
          || (t.workers[w].Busy? && t.workers[w].now == wk.now && t.workers[w].todo == wk.todo[1..]))
  {
  }

  /** The worker deals with the first id of its list, which is not `id`. */
  lemma SkipFirst(s: State, w: WorkerId, id: Id) returns (run: seq<Action>, t: State)
    requires Inv(s) && CanClaim(s, w) && s.workers[w].todo[0] != id && StillQueued(s, s, id)
    ensures PlainRun(s, run, t) && ScansWith(s, t, w, id, s.workers[w].now, s.workers[w].todo[1..])
  {
    var claim := Claim(w, s.workers[w].todo[0]);
    var u := DoClaim(s, w);
    KeepClaim(s, w);
    PassOver(s, w, id);
    PlainOne(s, claim, u);
    run, t := [claim], u;
    if At(u, w) {
      var rest;
      rest, t := FinishOther(u, w, id);
      PlainThen(s, [claim], u, rest, t);
      run := [claim] + rest;
    }
  }

  /** A scanning worker that lists a queued id can work its way to claiming it. */
  lemma {:induction false} ClaimListed(s: State, w: WorkerId, id: Id) returns (run: seq<Action>, t: State)
    requires Inv(s) && w in s.workers && s.workers[w].Scanning? && id in s.workers[w].todo && StillQueued(s, s, id)
    ensures ClaimedBy(s, run, t, w, id)
    decreases |s.workers[w].todo|
  {
    if s.workers[w].todo[0] == id {
      t := ClaimNow(s, w, id);
      run := [Claim(w, id)];
    } else {
      var head, u := SkipFirst(s, w, id);
      var rest;
      rest, t := ClaimListed(u, w, id);
      ClaimedAfter(s, head, u, rest, t, w, id);
      run := head + rest;
    }
  }

  /** `w` is idle, and `id` waits as in `s`. */
  ghost predicate IdlesWith(s: State, t: State, w: WorkerId, id: Id) {
    Inv(t) && StillQueued(s, t, id) && w in t.workers && t.workers[w].Idle?
  }

  /** A pass that does not list `id` comes to its end. */
  lemma {:induction false} DrainPass(s: State, w: WorkerId, id: Id) returns (run: seq<Action>, t: State)
    requires Inv(s) && w in s.workers && s.workers[w].Scanning? && id !in s.workers[w].todo && StillQueued(s, s, id)
    ensures PlainRun(s, run, t) && IdlesWith(s, t, w, id)
    decreases |s.workers[w].todo|
  {
    if s.workers[w].todo == [] {
      t := SetWorker(s, w, Idle);
      KeepLoop(s, w, Idle);
      PlainOne(s, Finish(w), t);
      run := [Finish(w)];
    } else {
      var head, u := SkipFirst(s, w, id);
      var rest;
      rest, t := DrainPass(u, w, id);
      PlainThen(s, head, u, rest, t);
      run := head + rest;
    }
  }

  /** A polling worker asks Redis for what is due. */
  lemma TakeSnapshot(s: State, w: WorkerId) returns (ids: seq<Id>, t: State)
    requires Inv(s) && w in s.workers && s.workers[w].Polling?
    ensures SnapshotOk(s, s.workers[w].now, ids) && PlainRun(s, [Snapshot(w, ids)], t) && Inv(t)
    ensures t == SetWorker(s, w, Scanning(s.workers[w].now, ids))
  {
    var now := s.workers[w].now;
    ids := SnapshotExists(s, now);
    t := SetWorker(s, w, Scanning(now, ids));
    KeepLoop(s, w, Scanning(now, ids));
    PlainOne(s, Snapshot(w, ids), t);
  }

  /** An idle worker waits until time `now` and reads the clock. */
  lemma WaitAndRead(s: State, w: WorkerId, now: nat) returns (run: seq<Action>, t: State)
    requires Inv(s) && w in s.workers && s.workers[w].Idle?
    ensures PlainRun(s, run, t) && Inv(t) && t.queue == s.queue && t.hist == s.hist
    ensures w in t.workers && t.workers[w].Polling? && t.workers[w].now >= now
  {
    var dt := if s.clock >= now * MILLISECOND then 0 else now * MILLISECOND - s.clock;
    var u := Apply(s, Advance(dt));
    t := Apply(u, Poll(w));
    KeepAdvance(s, dt);
    KeepLoop(u, w, t.workers[w]);
    PlainOne(s, Advance(dt), u);
    PlainOne(u, Poll(w), t);
    PlainThen(s, [Advance(dt)], u, [Poll(w)], t);
    run := [Advance(dt)] + [Poll(w)];
  }

  // --- by a worker, wherever it is ---

  lemma ClaimFromIdle(s: State, w: WorkerId, id: Id) returns (run: seq<Action>, t: State)
    requires Inv(s) && w in s.workers && s.workers[w].Idle? && StillQueued(s, s, id) && s.queue[id] >= 0
    ensures ClaimedBy(s, run, t, w, id)
  {
    var head, u := WaitAndRead(s, w, s.queue[id]);
    var ids, v := TakeSnapshot(u, w);
    var rest;
    rest, t := ClaimListed(v, w, id);
    PlainThen(s, head, u, [Snapshot(w, ids)], v);
    ClaimedAfter(s, head + [Snapshot(w, ids)], v, rest, t, w, id);
    run := head + [Snapshot(w, ids)] + rest;
  }

  lemma ClaimFromScanning(s: State, w: WorkerId, id: Id) returns (run: seq<Action>, t: State)
    requires Inv(s) && w in s.workers && s.workers[w].Scanning? && StillQueued(s, s, id)
    requires s.queue[id] >= 0 || id in s.workers[w].todo
    ensures ClaimedBy(s, run, t, w, id)
  {
    if id in s.workers[w].todo {
      run, t := ClaimListed(s, w, id);
    } else {
      var head, u := DrainPass(s, w, id);
      var rest;
      rest, t := ClaimFromIdle(u, w, id);
      ClaimedAfter(s, head, u, rest, t, w, id);
      run := head + rest;
    }
  }

  /** Worker `w` lists `id` in the rest of its pass. */
  ghost predicate HasListed(s: State, w: WorkerId, id: Id) {
    w in s.workers && (s.workers[w].Scanning? || s.workers[w].Busy?) && id in s.workers[w].todo
  }

  /** A worker ends what it is doing, finishes its pass, and claims `id` in this pass or the next. */
  lemma ClaimWith(s: State, w: WorkerId, id: Id) returns (run: seq<Action>, t: State)
    requires Inv(s) && w in s.workers && StillQueued(s, s, id) && (s.queue[id] >= 0 || HasListed(s, w, id))
    ensures ClaimedBy(s, run, t, w, id)
  {
    if s.workers[w].Idle? {
      run, t := ClaimFromIdle(s, w, id);
    } else if s.workers[w].Scanning? {
      run, t := ClaimFromScanning(s, w, id);
    } else {
      var head, u;
      if s.workers[w].Polling? {
        var ids;
        ids, u := TakeSnapshot(s, w);
        head := [Snapshot(w, ids)];
      } else {
        head, u := FinishOther(s, w, id);
      }
      var rest;
      rest, t := ClaimFromScanning(u, w, id);
      ClaimedAfter(s, head, u, rest, t, w, id);
      run := head + rest;
    }
  }

  // --- exactly ---

  /** A faultless future in which `id` is claimed. */
  ghost predicate ClaimsSoon(s: State, run: seq<Action>, id: Id)
    requires id in s.hist
  {
    Faultless(s, run) && Claims(s, run, id)
  }

  /** Where `s` goes without faults: to a state in which `w` has just claimed `id`. */
  ghost predicate LeadsToClaim(s: State, run: seq<Action>, t: State, w: WorkerId, id: Id) {
    && Runs(s, run, t) && Faultless(s, run) && Inv(t) && JustClaimed(t, w, id)
    && id in s.hist && t.hist[id].claims == s.hist[id].claims + 1
  }

  lemma FirstStart(s: State, t: State, run: seq<Action>, u: State, w: WorkerId, id: Id)
    requires s.workers == map[] && t == SetWorker(s, 0, Idle) && ClaimedBy(t, run, u, w, id)
    ensures LeadsToClaim(s, [Start(0)] + run, u, w, id)
  {
    PlainIsFaultless(t, run);
    assert Apply(s, Start(0)) == t;
    RunFirst(s, Start(0), run, u);
    assert ([Start(0)] + run)[1..] == run;
  }

  /** A running loop, or the first one to start, claims a queued id with a score of 0 or more. */
  lemma ClaimDue(s: State, id: Id) returns (run: seq<Action>, t: State, w: WorkerId)
    requires Inv(s) && StillQueued(s, s, id) && s.queue[id] >= 0
    ensures LeadsToClaim(s, run, t, w, id)
  {
    if s.workers == map[] {
      w := 0;
      var u := SetWorker(s, 0, Idle);
      KeepLoop(s, 0, Idle);
      run, t := ClaimWith(u, 0, id);
      FirstStart(s, u, run, t, 0, id);
      run := [Start(0)] + run;
    } else {
      w :| w in s.workers;
      run, t := ClaimWith(s, w, id);
      PlainIsFaultless(s, run);
    }
  }

  /**
   * A queued message that no running pass lists can ever be claimed again exactly when its score is
   * not negative; and then without any fault, by the loops that are running.
   */
  lemma ClaimableIffNotNegative(s: State, id: Id)
    requires Inv(s) && id in s.queue && id in s.hist && !Listed(s, id)
    ensures (exists run: seq<Action> :: Claims(s, run, id)) <==> s.queue[id] >= 0
    ensures (exists run: seq<Action> :: ClaimsSoon(s, run, id)) <==> s.queue[id] >= 0
  {
    if s.queue[id] >= 0 {
      var run, t, _ := ClaimDue(s, id);
      assert Claims(s, run, id) && ClaimsSoon(s, run, id);
    } else {
      forall run: seq<Action> ensures !Claims(s, run, id) {
        StrandedIsUnclaimed(s, run, id);
      }
    }
  }

  lemma StrandedIsUnclaimed(s: State, run: seq<Action>, id: Id)
    requires Inv(s) && Stranded(s, id)
    ensures !Claims(s, run, id)
  {
    if Legal(s, run) {
      StrandedForever(s, run, id);
      assert ViewOf(Final(s, run), id).claims == ViewOf(s, id).claims;
    }
  }

  ghost predicate SoloClaims(s: State, run: seq<Action>, id: Id)
    requires id in s.hist
  {
    SoloRun(s, run) && Claims(s, run, id)
  }

  /** The same for the program as it runs, with one loop at a time, which lists what is to be claimed. */
  lemma SoloClaimableIff(s: State, id: Id)
    requires SoloInv(s) && id in s.queue && id in s.hist
    ensures (exists run: seq<Action> :: SoloClaims(s, run, id)) <==> s.queue[id] >= 0
  {
    if s.queue[id] >= 0 {
      var run, t, _ := ClaimDue(s, id);
      FaultlessIsSolo(s, run);
      assert SoloClaims(s, run, id);
    } else {
      SoloListsDue(s, id);
      forall run: seq<Action> ensures !SoloClaims(s, run, id) {
        StrandedIsUnclaimed(s, run, id);
      }
    }
  }

  /** With one loop, only ids with a score of 0 or more are listed. */
  lemma SoloListsDue(s: State, id: Id)
    requires LoopPrompt(s) && id in s.queue && s.queue[id] < 0
    ensures !Listed(s, id)
  {
    forall w | w in s.workers && (s.workers[w].Scanning? || s.workers[w].Busy?) ensures id !in s.workers[w].todo {
      assert WorkerPrompt(s.queue, s.clock, s.workers[w]);
    }
  }
}
