/**
 * What a crash costs. A message that was delivered, dead-lettered or lost stays as it is, so
 * whatever a crash leaves unfinished is never finished.
 */
module QStashLoss {
  import opened Wrappers
  import opened Backoff
  import opened QStashModel
  import opened QStashSafety
  import opened QStashGuarantees
  import opened QStashLiveness
  import opened QStashOverlap

  ghost predicate AtRest(s: State, id: Id) {
    id in s.hist && (s.hist[id].place == Done || s.hist[id].place == Dead || s.hist[id].place == Lost)
  }

  /** Delivered, or dead-lettered and listed as such. */
  ghost predicate Settled(s: State, id: Id) {
    id in s.hist && (s.hist[id].place == Done || (s.hist[id].place == Dead && id in s.dlq))
  }

  ghost predicate CanSettle(s: State, id: Id) {
    exists run: seq<Action> :: Legal(s, run) && Settled(Final(s, run), id)
  }

  /** The history of `id` and whether the DLQ lists it. */
  ghost predicate SameEnd(s: State, t: State, id: Id) {
    && id in s.hist && id in t.hist && t.hist[id] == s.hist[id]
    && (id in t.dlq <==> id in s.dlq)
  }

  lemma SameViewSameEnd(s: State, t: State, id: Id)
    requires id in s.hist && id in t.hist && ViewOf(t, id) == ViewOf(s, id)
    ensures SameEnd(s, t, id)
  {
    var v, u := ViewOf(s, id), ViewOf(t, id);
    assert s.hist[id] == History(v.born, v.posts, v.claims, v.place);
    assert t.hist[id] == History(u.born, u.posts, u.claims, u.place);
    assert v.inDlq <==> u.inDlq;
  }

  /** Time, and what delivery loops do outside of `deliver`. */
  ghost predicate Outside(s: State, a: Action) {
    a.Advance? || a.Start? || a.Poll? || a.Snapshot? || a.Finish? || (a.Crash? && !At(s, a.w))
  }

  /** Steps that keep all histories and the DLQ. */
  lemma HistoriesKept(s: State, a: Action, id: Id)
    requires Enabled(s, a) && id in s.hist
    requires Outside(s, a) || a.Evict?
    ensures SameEnd(s, Apply(s, a), id)
  {
  }

  lemma ClaimMovesQueued(s: State, w: WorkerId, id: Id)
    requires CanClaim(s, w) && id in s.hist && id == s.workers[w].todo[0] && id !in s.queue
    ensures SameEnd(s, DoClaim(s, w), id)
  {
  }

  lemma OthersMove(s: State, a: Action, id: Id)
    requires Inv(s) && Enabled(s, a) && AtRest(s, id) && MovedId(s, a) == id
    requires !Outside(s, a) && !a.Evict?
    ensures a == Claim(a.w, id) && id !in s.queue
  {
    Extract(s, id);
  }

  lemma RestStep(s: State, a: Action, id: Id)
    requires Inv(s) && Enabled(s, a) && AtRest(s, id)
    ensures SameEnd(s, Apply(s, a), id)
  {
    if Outside(s, a) || a.Evict? {
      HistoriesKept(s, a, id);
    } else if MovedId(s, a) == id {
      OthersMove(s, a, id);
      ClaimMovesQueued(s, a.w, id);
    } else {
      Keep(s, a);
      SameViewSameEnd(s, Apply(s, a), id);
    }
  }

  /** Delivered, dead-lettered and lost are for ever: no further POST, no other end, no change in the DLQ. */
  lemma {:induction false} RestForever(s: State, run: seq<Action>, id: Id)
    requires Inv(s) && Legal(s, run) && AtRest(s, id)
    ensures SameEnd(s, Final(s, run), id)
    decreases |run|
  {
    if run != [] {
      RestStep(s, run[0], id);
      Keep(s, run[0]);
      RestForever(Apply(s, run[0]), run[1..], id);
    }
  }

  // --- a crash in the middle of a delivery ---

  /** Only a POST that was answered with a 2xx and not yet written off leads to these stages. */
  lemma SucceededIff(s: State, w: WorkerId)
    requires Inv(s) && At(s, w) && s.workers[w].id in s.hist
    ensures EndsWith(s.hist[s.workers[w].id].posts, Success) <==>
      StageOf(s, w).SaveDelivered? || StageOf(s, w).ExpireDelivered?
  {
    var id, g := s.workers[w].id, StageOf(s, w);
    HolderHolds(s, w, id);
    var ps := s.hist[id].posts;
    if EndsWith(ps, Success) {
      assert ps[|ps| - 1].outcome == Success;
    }
  }

  lemma CrashEffect(s: State, w: WorkerId, id: Id)
    requires Holds(s, w, id)
    ensures var t := DoCrash(s, w);
      && id in t.hist && t.hist[id].posts == s.hist[id].posts && AtRest(t, id)
      && (Settled(t, id) <==> StageOf(s, w).ExpireDelivered? || StageOf(s, w).ExpireFailed?)
  {
  }

  /** All that can follow, once a message is at rest, is that it stays so. */
  lemma RestRuns(s: State, id: Id)
    requires Inv(s) && AtRest(s, id)
    ensures forall run :: Legal(s, run) ==> SameEnd(s, Final(s, run), id)
    ensures CanSettle(s, id) <==> Settled(s, id)
  {
    forall run | Legal(s, run) ensures SameEnd(s, Final(s, run), id) {
      RestForever(s, run, id);
    }
    if Settled(s, id) {
      RunNothing(s);
      assert Settled(Final(s, []), id);
    }
    if CanSettle(s, id) {
      var run: seq<Action> :| Legal(s, run) && Settled(Final(s, run), id);
      assert SameEnd(s, Final(s, run), id);
    }
  }

  /**
   * If a worker crashes inside a delivery, its message is never POSTed again. Whether it can still
   * end as delivered or in the DLQ depends on one thing only: whether nothing but the final EXPIRE
   * was missing. Its one success has happened exactly if the delivered record was being written.
   */
  lemma CrashLosesIff(s: State, w: WorkerId)
    requires Inv(s) && At(s, w) && s.workers[w].id in s.hist
    ensures var id, g, t := s.workers[w].id, StageOf(s, w), DoCrash(s, w);
      && (forall run :: Legal(t, run) ==> id in Final(t, run).hist && Final(t, run).hist[id].posts == s.hist[id].posts)
      && (CanSettle(t, id) <==> g.ExpireDelivered? || g.ExpireFailed?)
      && (EndsWith(s.hist[id].posts, Success) <==> g.SaveDelivered? || g.ExpireDelivered?)
  {
    var id, t := s.workers[w].id, DoCrash(s, w);
    HolderHolds(s, w, id);
    CrashEffect(s, w, id);
    SucceededIff(s, w);
    KeepCrash(s, w);
    RestRuns(t, id);
    forall run | Legal(t, run) ensures id in Final(t, run).hist && Final(t, run).hist[id].posts == s.hist[id].posts {
      assert SameEnd(t, Final(t, run), id);
    }
  }

  /** A publish request that crashes between its calls loses the message before any attempt. */
  lemma PublishCrashLoses(s: State, id: Id, run: seq<Action>)
    requires Inv(s) && id in s.pubs && Legal(DoPublishCrash(s, id), run)
    ensures var t := Final(DoPublishCrash(s, id), run);
      id in t.hist && t.hist[id].place == Lost && t.hist[id].posts == []
  {
    Extract(s, id);
    KeepPublishCrash(s, id);
    RestForever(DoPublishCrash(s, id), run, id);
  }

  // --- nothing else loses a message ---

  /** Lost, or given up without the DLQ having it. */
  ghost predicate Wasted(s: State, id: Id) {
    id in s.hist && (s.hist[id].place == Lost || (s.hist[id].place == Dead && id !in s.dlq))
  }

  /** A crash that a message does not get over: before its ZADD, or in a delivery before the last EXPIRE. */
  predicate Harms(s: State, a: Action, id: Id) {
    || a == PublishCrash(id)
    || (a.Crash? && At(s, a.w) && s.workers[a.w].id == id
        && !StageOf(s, a.w).ExpireDelivered? && !StageOf(s, a.w).ExpireFailed?)
  }

  ghost predicate HarmedIn(s: State, run: seq<Action>, id: Id)
    requires Legal(s, run)
    decreases |run|
  {
    run != [] && (Harms(s, run[0], id) || HarmedIn(Apply(s, run[0]), run[1..], id))
  }

  lemma RestIsUnharmed(s: State, a: Action, id: Id)
    requires Inv(s) && Enabled(s, a) && AtRest(s, id)
    ensures !Harms(s, a, id)
  {
    if a == PublishCrash(id) {
      Extract(s, id);
    } else if a.Crash? && At(s, a.w) && s.workers[a.w].id == id {
      HolderHolds(s, a.w, id);
    }
  }

  /** What a step of its own publisher does to a message that is not at rest. */
  lemma PublisherHarms(s: State, a: Action, id: Id)
    requires Enabled(s, a) && id in s.hist && !AtRest(s, id)
    requires a == PublishSave(id) || a == PublishAdd(id) || a == PublishCrash(id) || a == Evict(id)
             || (a.Claim? && a.id == id)
    ensures Wasted(Apply(s, a), id) <==> Harms(s, a, id)
  {
  }

  lemma AttemptHarms(s: State, a: Action, id: Id)
    requires Enabled(s, a) && (a.Load? || a.Send? || a.Respond?)
    requires Holds(s, a.w, id)
    ensures !Wasted(Apply(s, a), id)
  {
  }

  lemma StoreHarms(s: State, a: Action, id: Id)
    requires Enabled(s, a) && (a.Save? || a.Enlist? || a.Expire?)
    requires Holds(s, a.w, id)
    ensures !Wasted(Apply(s, a), id)
  {
  }

  lemma ScheduleHarms(s: State, w: WorkerId, id: Id, next: int)
    requires Enabled(s, Schedule(w)) && Holds(s, w, id)
    ensures !Wasted(ScheduleAt(s, w, next), id)
  {
  }

  lemma CrashHarms(s: State, w: WorkerId, id: Id)
    requires Holds(s, w, id)
    ensures Wasted(DoCrash(s, w), id) <==> Harms(s, Crash(w), id)
  {
  }

  /** A step of the worker that holds the message. */
  lemma HolderHarms(s: State, a: Action, id: Id)
    requires Enabled(s, a)
    requires a.Load? || a.Send? || a.Respond? || a.Schedule? || a.Save? || a.Enlist? || a.Expire? || a.Crash?
    requires Holds(s, a.w, id)
    ensures Wasted(Apply(s, a), id) <==> Harms(s, a, id)
  {
    if a.Load? || a.Send? || a.Respond? {
      AttemptHarms(s, a, id);
    } else if a.Schedule? {
      ScheduleHarms(s, a.w, id, NextAttempt(s.clock, StageOf(s, a.w).msg.retries + 1));
    } else if a.Crash? {
      CrashHarms(s, a.w, id);
    } else {
      StoreHarms(s, a, id);
    }
  }

  lemma OutsideIsHarmless(s: State, a: Action, id: Id)
    requires Enabled(s, a) && Outside(s, a)
    ensures !Harms(s, a, id)
  {
  }

  lemma OthersAreHarmless(s: State, a: Action, id: Id)
    requires Enabled(s, a) && MovedId(s, a) != id
    ensures !Harms(s, a, id)
  {
  }

  lemma OthersHarmNothing(s: State, a: Action, id: Id)
    requires Inv(s) && Enabled(s, a) && id in s.hist && MovedId(s, a) != id && !Outside(s, a)
    ensures SameEnd(s, Apply(s, a), id) && !Harms(s, a, id)
  {
    Keep(s, a);
    SameViewSameEnd(s, Apply(s, a), id);
    OthersAreHarmless(s, a, id);
  }

  lemma MovedHarms(s: State, a: Action, id: Id)
    requires Inv(s) && Enabled(s, a) && id in s.hist && !AtRest(s, id) && MovedId(s, a) == id && !Outside(s, a)
    ensures Wasted(Apply(s, a), id) <==> Harms(s, a, id)
  {
    if a.PublishSave? || a.PublishAdd? || a.PublishCrash? || a.Evict? || a.Claim? {
      PublisherHarms(s, a, id);
    } else {
      HolderHolds(s, a.w, id);
      HolderHarms(s, a, id);
    }
  }

  lemma HarmStep(s: State, a: Action, id: Id)
    requires Inv(s) && Enabled(s, a) && id in s.hist
    ensures Wasted(Apply(s, a), id) <==> Wasted(s, id) || Harms(s, a, id)
  {
    if AtRest(s, id) {
      RestStep(s, a, id);
      RestIsUnharmed(s, a, id);
    } else if Outside(s, a) {
      HistoriesKept(s, a, id);
      OutsideIsHarmless(s, a, id);
    } else if MovedId(s, a) != id {
      OthersHarmNothing(s, a, id);
    } else {
      MovedHarms(s, a, id);
    }
  }

  lemma KnownMoves(s: State, a: Action)
    requires Shape(s) && Enabled(s, a) && !a.Publish? && !a.Claim? && !Outside(s, a)
    ensures MovedId(s, a) in s.hist
  {
  }

  lemma KeepsIds(s: State, a: Action)
    requires Enabled(s, a) && (Outside(s, a) || a.Claim?)
    ensures Apply(s, a).hist.Keys == s.hist.Keys
  {
  }

  lemma NewIsNew(s: State, a: Action, id: Id)
    requires Enabled(s, a) && a.Publish? && id !in s.hist
    ensures !Wasted(Apply(s, a), id)
  {
  }

  lemma HarmedIsKnown(s: State, a: Action, id: Id)
    requires Shape(s) && Enabled(s, a) && Harms(s, a, id)
    ensures id in s.hist
  {
  }

  lemma NoNewId(s: State, a: Action, id: Id)
    requires Inv(s) && Enabled(s, a) && id !in s.hist && !a.Publish?
    ensures id !in Apply(s, a).hist
  {
    if Outside(s, a) || a.Claim? {
      KeepsIds(s, a);
    } else {
      KnownMoves(s, a);
      Keep(s, a);
    }
  }

  /** An id that nobody has published yet is not harmed. */
  lemma NewIsUnharmed(s: State, a: Action, id: Id)
    requires Inv(s) && Enabled(s, a) && id !in s.hist
    ensures !Harms(s, a, id) && !Wasted(Apply(s, a), id)
  {
    if Harms(s, a, id) {
      HarmedIsKnown(s, a, id);
    }
    if a.Publish? {
      NewIsNew(s, a, id);
    } else {
      NoNewId(s, a, id);
    }
  }

  /** A message is wasted in a run exactly if a crash hit it. */
  lemma {:induction false} WastedIff(s: State, run: seq<Action>, id: Id)
    requires Inv(s) && Legal(s, run)
    ensures Inv(Final(s, run)) && (Wasted(Final(s, run), id) <==> Wasted(s, id) || HarmedIn(s, run, id))
    decreases |run|
  {
    if run != [] {
      Keep(s, run[0]);
      if id in s.hist {
        HarmStep(s, run[0], id);
      } else {
        NewIsUnharmed(s, run[0], id);
      }
      WastedIff(Apply(s, run[0]), run[1..], id);
    }
  }

  /**
   * Once a message is not being published, queued or held any more, it has been settled, unless a
   * crash hit this very message. What else crashes, or is stopped and started again, does not matter.
   */
  lemma QuietMeansSettled(clock: int, run: seq<Action>, id: Id)
    requires Legal(Init(clock), run)
    requires var s := Final(Init(clock), run); id in s.hist && id !in s.pubs && id !in s.queue && !Held(s, id)
    ensures var s := Final(Init(clock), run);
      && (Settled(s, id) <==> !HarmedIn(Init(clock), run, id))
      && (s.hist[id].place == Done ==> EndsWith(s.hist[id].posts, Success))
      && (s.hist[id].place == Dead ==> AllFailed(s.hist[id].posts))
  {
    InitOk(clock);
    WastedIff(Init(clock), run, id);
    QuietIsAtRest(Final(Init(clock), run), id);
  }

  lemma QuietIsAtRest(s: State, id: Id)
    requires Inv(s) && id in s.hist && id !in s.pubs && id !in s.queue && !Held(s, id)
    ensures AtRest(s, id)
    ensures s.hist[id].place == Done ==> EndsWith(s.hist[id].posts, Success)
    ensures s.hist[id].place == Dead ==> AllFailed(s.hist[id].posts)
  {
    Extract(s, id);
    if s.hist[id].place.HeldBy? {
      HolderIsBusy(s, id, s.hist[id].place.w);
    }
  }

  // --- it does happen ---

  /** The published message after its only worker so far has claimed it and crashed. */
  function Gone(): State {
    State(0, map[0 := Record(MESSAGE, None)], map[], [], map[], map[2 := Scanning(0, [0])],
          map[0 := History(MESSAGE, [], 1, Lost)], [0], 1)
  }

  /** A message can be lost without a single POST: "exactly once" is at most once. */
  lemma LossIsReachable()
    ensures exists s :: Reachable(s) && 0 in s.hist && s.hist[0].place == Lost && s.hist[0].posts == []
  {
    var head := FromInitToBoth();
    var u := Working(Claimed, MESSAGE, []);
    GoClaim();
    Goes(u, Crash(1), Gone());
    RunTwo(Both(), Claim(1, 0), u, Crash(1), Gone());
    RunThen(Init(0), head, Both(), [Claim(1, 0), Crash(1)], Gone());
    var run := head + [Claim(1, 0), Crash(1)];
    assert Legal(Init(0), run) && Final(Init(0), run) == Gone();
    assert Reachable(Gone());
  }
}
