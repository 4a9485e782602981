/** From which states a message can still be delivered or dead-lettered. */
module QStashSettling {
  import opened Backoff
  import opened QStashModel
  import opened QStashSafety
  import opened QStashSolo
  import opened QStashLiveness
  import opened QStashClaiming
  import opened QStashLoss

  /** Settled in some future without faults, by the loops that are running. */
  ghost predicate SettlesSoon(s: State, id: Id) {
    exists run: seq<Action> :: Faultless(s, run) && Legal(s, run) && Settled(Final(s, run), id)
  }

  /** A message with this due time, queued or on its way to the queue, will be found there. */
  ghost predicate Reaches(s: State, id: Id, due: int) {
    due >= 0 || Listed(s, id)
  }

  /** Not lost, and not on its way to wait below zero unseen. */
  ghost predicate Hopeful(s: State, id: Id) {
    id in s.hist
    && match s.hist[id].place
       case Publishing => id in s.pubs && Reaches(s, id, s.pubs[id].msg.notBefore)
       case InQueue => id in s.queue && Reaches(s, id, s.queue[id])
       case HeldBy(w) => At(s, w) && HopefulStage(s, id, StageOf(s, w))
       case Done => true
       case Dead => id in s.dlq
       case _ => false
  }

  /** Only a retry that is already scheduled can be hopeless inside a delivery. */
  ghost predicate HopefulStage(s: State, id: Id, g: Stage) {
    match g
    case SaveRetry(m) => Reaches(s, id, m.notBefore)
    case AddRetry(m) => Reaches(s, id, m.notBefore)
    case _ => true
  }

  // --- what can be settled ---

  lemma SettledNow(s: State, id: Id)
    requires Settled(s, id)
    ensures SettlesSoon(s, id)
  {
    var none: seq<Action> := [];
    assert Faultless(s, none) && Legal(s, none) && Settled(Final(s, none), id);
  }

  lemma SettlesAfter(s: State, run: seq<Action>, t: State, id: Id)
    requires Runs(s, run, t) && Faultless(s, run) && SettlesSoon(t, id)
    ensures SettlesSoon(s, id)
  {
    var more: seq<Action> :| Faultless(t, more) && Legal(t, more) && Settled(Final(t, more), id);
    RunThen(s, run, t, more, Final(t, more));
    FaultlessThen(s, run, t, more);
    assert Settled(Final(s, run + more), id);
  }

  lemma SettlesAfterOne(s: State, a: Action, t: State, id: Id)
    requires Enabled(s, a) && t == Apply(s, a) && Plain(a) && SettlesSoon(t, id)
    ensures SettlesSoon(s, id)
  {
    PlainOne(s, a, t);
    PlainIsFaultless(s, [a]);
    SettlesAfter(s, [a], t, id);
  }

  lemma FinishSettles(s: State, w: WorkerId, id: Id)
    requires Inv(s) && At(s, w) && s.workers[w].id == id
    requires !FateOf(s.workers[w].stage, Lookup(s.records, id), s.clock, true).Requeues?
    ensures SettlesSoon(s, id)
  {
    var run, t := FinishDeliver(s, w, id, true);
    PlainIsFaultless(s, run);
    SettledNow(t, id);
    SettlesAfter(s, run, t, id);
  }

  lemma ClaimedSettles(s: State, w: WorkerId, id: Id)
    requires Inv(s) && JustClaimed(s, w, id)
    ensures SettlesSoon(s, id)
  {
    HolderHolds(s, w, id);
    FinishSettles(s, w, id);
  }

  lemma QueuedSettles(s: State, id: Id)
    requires Inv(s) && StillQueued(s, s, id) && Reaches(s, id, s.queue[id])
    ensures SettlesSoon(s, id)
  {
    var run, t, w;
    if s.queue[id] >= 0 {
      run, t, w := ClaimDue(s, id);
    } else {
      w :| w in s.workers && ((s.workers[w].Scanning? || s.workers[w].Busy?) && id in s.workers[w].todo);
      run, t := ClaimWith(s, w, id);
      PlainIsFaultless(s, run);
    }
    ClaimedSettles(t, w, id);
    SettlesAfter(s, run, t, id);
  }

  lemma AddedSettles(s: State, id: Id)
    requires Inv(s) && Enabled(s, PublishAdd(id)) && id in s.hist && Reaches(s, id, s.pubs[id].msg.notBefore)
    ensures SettlesSoon(s, id)
  {
    var t := DoPublishAdd(s, id);
    KeepPublishAdd(s, id);
    assert t.workers == s.workers && t.queue[id] == s.pubs[id].msg.notBefore;
    assert Listed(s, id) ==> Listed(t, id);
    QueuedSettles(t, id);
    SettlesAfterOne(s, PublishAdd(id), t, id);
  }

  lemma PublishedSettles(s: State, id: Id)
    requires Inv(s) && id in s.pubs && id in s.hist && Reaches(s, id, s.pubs[id].msg.notBefore)
    ensures SettlesSoon(s, id)
  {
    if s.pubs[id].PubAdd? {
      AddedSettles(s, id);
    } else {
      var t := DoPublishSave(s, id);
      KeepPublishSave(s, id);
      assert t.workers == s.workers;
      assert Listed(s, id) ==> Listed(t, id);
      AddedSettles(t, id);
      SettlesAfterOne(s, PublishSave(id), t, id);
    }
  }

  lemma StaysListed(s: State, t: State, w: WorkerId, id: Id)
    requires At(s, w) && Alone(s, t, w, id) && t.workers[w] == Scanning(s.workers[w].now, s.workers[w].todo)
    requires Listed(s, id)
    ensures Listed(t, id)
  {
    var v :| v in s.workers && ((s.workers[v].Scanning? || s.workers[v].Busy?) && id in s.workers[v].todo);
    assert v in t.workers && (t.workers[v].Scanning? || t.workers[v].Busy?) && id in t.workers[v].todo;
  }

  /** A delivery that ends in the queue where it will be found. */
  lemma RequeuedSettles(s: State, w: WorkerId, id: Id)
    requires Inv(s) && At(s, w) && s.workers[w].id == id
    requires var fate := FateOf(s.workers[w].stage, Lookup(s.records, id), s.clock, true);
      fate.Requeues? && Reaches(s, id, fate.due)
    ensures SettlesSoon(s, id)
  {
    var run, t := FinishDeliver(s, w, id, true);
    PlainIsFaultless(s, run);
    if Listed(s, id) {
      StaysListed(s, t, w, id);
    }
    QueuedSettles(t, id);
    SettlesAfter(s, run, t, id);
  }

  /** Whatever the back-off, a due time read late enough is not negative. */
  lemma LateEnough(clock: int, r: nat) returns (dt: nat)
    ensures NextAttempt(clock + dt, r) >= 0
  {
    var due := clock + BackoffNs(r);
    dt := if due >= 0 then 0 else -due;
  }

  lemma LateRejectedSettles(s: State, w: WorkerId, id: Id)
    requires Inv(s) && At(s, w) && s.workers[w].id == id && s.workers[w].stage.Rejected?
    requires NextAttempt(s.clock, s.workers[w].stage.msg.retries + 1) >= 0
    ensures SettlesSoon(s, id)
  {
    if s.workers[w].stage.msg.retries + 1 > s.workers[w].stage.msg.maxRetries {
      FinishSettles(s, w, id);
    } else {
      RequeuedSettles(s, w, id);
    }
  }

  lemma AfterWaiting(s: State, dt: nat, id: Id)
    requires SettlesSoon(s.(clock := s.clock + dt), id)
    ensures SettlesSoon(s, id)
  {
    SettlesAfterOne(s, Advance(dt), s.(clock := s.clock + dt), id);
  }

  lemma RejectedSettles(s: State, w: WorkerId, id: Id)
    requires Inv(s) && At(s, w) && s.workers[w].id == id && s.workers[w].stage.Rejected?
    ensures SettlesSoon(s, id)
  {
    var dt := LateEnough(s.clock, s.workers[w].stage.msg.retries + 1);
    KeepAdvance(s, dt);
    LateRejectedSettles(s.(clock := s.clock + dt), w, id);
    AfterWaiting(s, dt, id);
  }

  lemma HeldSettles(s: State, w: WorkerId, id: Id)
    requires Inv(s) && At(s, w) && s.workers[w].id == id && HopefulStage(s, id, s.workers[w].stage)
    ensures SettlesSoon(s, id)
  {
    if s.workers[w].stage.Rejected? {
      RejectedSettles(s, w, id);
    } else if s.workers[w].stage.SaveRetry? || s.workers[w].stage.AddRetry? {
      RequeuedSettles(s, w, id);
    } else {
      FinishSettles(s, w, id);
    }
  }

  lemma HopefulSettles(s: State, id: Id)
    requires Inv(s) && Hopeful(s, id)
    ensures SettlesSoon(s, id)
  {
    Extract(s, id);
    if s.hist[id].place == Publishing {
      PublishedSettles(s, id);
    } else if s.hist[id].place == InQueue {
      QueuedSettles(s, id);
    } else if s.hist[id].place.HeldBy? {
      HolderIsBusy(s, id, s.hist[id].place.w);
      HeldSettles(s, s.hist[id].place.w, id);
    } else {
      SettledNow(s, id);
    }
  }

  // --- what cannot ---

  /** About to be put back with a due time below 0, and listed by nobody. */
  ghost predicate Returning(s: State, id: Id) {
    && id in s.hist && s.hist[id].place.HeldBy? && !Listed(s, id)
    && Holds(s, s.hist[id].place.w, id)
    && var g := s.workers[s.hist[id].place.w].stage;
       (g.SaveRetry? || g.AddRetry?) && g.msg.notBefore < 0
  }

  /** Wasted, or to be queued below 0 or so already, with nobody having listed it. */
  ghost predicate Hopeless(s: State, id: Id) {
    && id in s.hist
    && (Wasted(s, id) || Stranded(s, id) || Returning(s, id)
        || (id in s.pubs && s.pubs[id].msg.notBefore < 0 && id !in s.queue && !Listed(s, id)))
  }

  lemma PublishingMoves(s: State, a: Action, id: Id)
    requires Shape(s) && Enabled(s, a) && id in s.pubs && id in s.hist && !Listed(s, id)
    requires id in s.records ==> s.records[id].expireAt.None?
    requires MovedId(s, a) == id
    requires !Outside(s, a)
    ensures a == PublishSave(id) || a == PublishAdd(id) || a == PublishCrash(id)
  {
    assert s.hist[id].place == Publishing;
  }

  lemma PublishingStays(s: State, a: Action, id: Id)
    requires Inv(s) && Enabled(s, a) && id in s.pubs && id in s.hist && MovedId(s, a) != id
    ensures id in Apply(s, a).pubs && id in Apply(s, a).hist && Apply(s, a).pubs[id] == s.pubs[id]
  {
    Keep(s, a);
    assert ViewOf(Apply(s, a), id).pub == ViewOf(s, id).pub;
  }

  lemma PublishingKept(s: State, a: Action, id: Id)
    requires Enabled(s, a) && id in s.pubs && id in s.hist
    requires Outside(s, a)
    ensures id in Apply(s, a).hist && Apply(s, a).pubs == s.pubs && Apply(s, a).queue == s.queue
  {
  }

  lemma PublisherOf(s: State, id: Id)
    requires Inv(s) && id in s.pubs
    ensures id in s.hist && s.hist[id].place == Publishing && id !in s.queue
    ensures id in s.records ==> s.records[id].expireAt.None?
  {
    Extract(s, id);
  }

  lemma PublisherHopeless(s: State, a: Action, id: Id)
    requires Enabled(s, a) && id in s.pubs && id in s.hist && id !in s.queue && s.pubs[id].msg.notBefore < 0
    requires !Listed(s, id) && !Listed(Apply(s, a), id)
    requires a == PublishSave(id) || a == PublishAdd(id) || a == PublishCrash(id)
    ensures Hopeless(Apply(s, a), id)
  {
  }

  lemma OtherStepHopeless(s: State, a: Action, id: Id)
    requires Inv(s) && Enabled(s, a) && Inv(Apply(s, a)) && id in s.pubs && s.pubs[id].msg.notBefore < 0
    requires !Listed(Apply(s, a), id) && (Outside(s, a) || MovedId(s, a) != id)
    ensures Hopeless(Apply(s, a), id)
  {
    PublisherOf(s, id);
    if Outside(s, a) {
      PublishingKept(s, a, id);
    } else {
      PublishingStays(s, a, id);
    }
    PublisherOf(Apply(s, a), id);
  }

  lemma PublishingHopeless(s: State, a: Action, id: Id)
    requires Inv(s) && Enabled(s, a) && Inv(Apply(s, a))
    requires id in s.pubs && s.pubs[id].msg.notBefore < 0 && !Listed(s, id)
    ensures Hopeless(Apply(s, a), id)
  {
    PublisherOf(s, id);
    UnlistedStays(s, a, id);
    if Outside(s, a) || MovedId(s, a) != id {
      OtherStepHopeless(s, a, id);
    } else {
      PublishingMoves(s, a, id);
      PublisherHopeless(s, a, id);
    }
  }

  lemma ReturningOutside(s: State, a: Action, id: Id)
    requires Enabled(s, a) && Outside(s, a) && Returning(s, id)
    ensures id in Apply(s, a).hist && Apply(s, a).hist[id] == s.hist[id]
    ensures var w := s.hist[id].place.w; w in Apply(s, a).workers && Apply(s, a).workers[w] == s.workers[w]
  {
  }

  lemma ReturningMoves(s: State, a: Action, id: Id)
    requires Shape(s) && Enabled(s, a) && Returning(s, id) && !Outside(s, a) && MovedId(s, a) == id
    requires id in s.records ==> s.records[id].expireAt.None?
    ensures OwnStep(s, a, id)
  {
  }

  ghost predicate OwnStep(s: State, a: Action, id: Id)
    requires id in s.hist && s.hist[id].place.HeldBy?
  {
    var w := s.hist[id].place.w;
    a == Save(w) || a == Enlist(w) || a == Crash(w)
  }

  /** Still held by `w`, and about to be put back. */
  ghost predicate PutsBack(t: State, w: WorkerId, id: Id) {
    && id in t.hist && t.hist[id].place == HeldBy(w) && At(t, w) && t.workers[w].id == id
    && (t.workers[w].stage.SaveRetry? || t.workers[w].stage.AddRetry?)
    && t.workers[w].stage.msg.notBefore < 0 && !Listed(t, id)
  }

  lemma StillReturning(t: State, w: WorkerId, id: Id)
    requires Inv(t) && PutsBack(t, w, id)
    ensures Hopeless(t, id)
  {
    HolderHolds(t, w, id);
  }

  lemma ReturningOwnStep(s: State, a: Action, id: Id)
    requires Enabled(s, a) && Returning(s, id) && !Listed(Apply(s, a), id) && OwnStep(s, a, id)
    ensures var t := Apply(s, a);
      id in t.hist && (Wasted(t, id) || Stranded(t, id) || PutsBack(t, s.hist[id].place.w, id))
  {
  }

  lemma ReturningRecord(s: State, id: Id)
    requires Inv(s) && Returning(s, id)
    ensures id in s.records ==> s.records[id].expireAt.None?
  {
    Extract(s, id);
  }

  lemma ReturningByItself(s: State, a: Action, id: Id)
    requires Inv(s) && Enabled(s, a) && Inv(Apply(s, a)) && Returning(s, id) && !Listed(Apply(s, a), id)
    requires !Outside(s, a) && MovedId(s, a) == id
    ensures Hopeless(Apply(s, a), id)
  {
    ReturningRecord(s, id);
    ReturningMoves(s, a, id);
    OwnStepHopeless(s, a, id);
  }

  lemma OwnStepHopeless(s: State, a: Action, id: Id)
    requires Enabled(s, a) && Inv(Apply(s, a)) && Returning(s, id) && !Listed(Apply(s, a), id) && OwnStep(s, a, id)
    ensures Hopeless(Apply(s, a), id)
  {
    var t, w := Apply(s, a), s.hist[id].place.w;
    ReturningOwnStep(s, a, id);
    if PutsBack(t, w, id) {
      StillReturning(t, w, id);
    }
  }

  lemma ReturningMeanwhile(s: State, a: Action, id: Id)
    requires Inv(s) && Enabled(s, a) && Inv(Apply(s, a)) && Returning(s, id) && !Listed(Apply(s, a), id)
    requires Outside(s, a) || MovedId(s, a) != id
    ensures Hopeless(Apply(s, a), id)
  {
    var t, w := Apply(s, a), s.hist[id].place.w;
    if Outside(s, a) {
      ReturningOutside(s, a, id);
    } else {
      Keep(s, a);
      SameHolder(s, t, w, id);
    }
    StillReturning(t, w, id);
  }

  lemma ReturningStep(s: State, a: Action, id: Id)
    requires Inv(s) && Enabled(s, a) && Inv(Apply(s, a)) && Returning(s, id)
    ensures Hopeless(Apply(s, a), id)
  {
    UnlistedStays(s, a, id);
    if Outside(s, a) || MovedId(s, a) != id {
      ReturningMeanwhile(s, a, id);
    } else {
      ReturningByItself(s, a, id);
    }
  }

  lemma SameHolder(s: State, t: State, w: WorkerId, id: Id)
    requires id in s.hist && id in t.hist && ViewOf(t, id) == ViewOf(s, id)
    requires s.hist[id].place == HeldBy(w) && At(s, w)
    ensures t.hist[id].place == HeldBy(w) && At(t, w) && t.workers[w] == s.workers[w]
  {
    assert ViewOf(s, id).holder.Some?;
    assert ViewOf(t, id).place == ViewOf(s, id).place;
  }

  lemma HopelessStep(s: State, a: Action, id: Id)
    requires Inv(s) && Enabled(s, a) && Hopeless(s, id)
    ensures Hopeless(Apply(s, a), id)
  {
    if Wasted(s, id) {
      RestStep(s, a, id);
    } else if Stranded(s, id) {
      StrandedStays(s, a, id);
    } else if Returning(s, id) {
      Keep(s, a);
      ReturningStep(s, a, id);
    } else {
      Keep(s, a);
      PublishingHopeless(s, a, id);
    }
  }

  lemma {:induction false} HopelessForever(s: State, run: seq<Action>, id: Id)
    requires Inv(s) && Legal(s, run) && Hopeless(s, id)
    ensures Hopeless(Final(s, run), id) && Inv(Final(s, run))
    decreases |run|
  {
    if run != [] {
      HopelessStep(s, run[0], id);
      Keep(s, run[0]);
      HopelessForever(Apply(s, run[0]), run[1..], id);
    }
  }

  lemma HopelessUnsettled(s: State, id: Id)
    requires Inv(s) && Hopeless(s, id)
    ensures !Settled(s, id)
  {
    if id in s.pubs {
      PublisherOf(s, id);
    }
  }

  lemma HopelessNeverSettles(s: State, id: Id)
    requires Inv(s) && Hopeless(s, id)
    ensures !CanSettle(s, id)
  {
    forall run: seq<Action> | Legal(s, run) ensures !Settled(Final(s, run), id) {
      HopelessForever(s, run, id);
      HopelessUnsettled(Final(s, run), id);
    }
  }

  // --- exactly ---

  lemma HopelessOrHopeful(s: State, id: Id)
    requires Inv(s) && id in s.hist
    ensures Hopeless(s, id) || Hopeful(s, id)
  {
    Extract(s, id);
    if s.hist[id].place.HeldBy? {
      HolderIsBusy(s, id, s.hist[id].place.w);
      HolderHolds(s, s.hist[id].place.w, id);
    }
  }

  /**
   * A message can still be delivered or dead-lettered unless it is lost, or is queued or on its way
   * back to the queue with a due time below 0 that no pass has listed. If it can, then it can without
   * any fault, by the loops that are running.
   */
  lemma SettlesIff(s: State, id: Id)
    requires Inv(s) && id in s.hist
    ensures CanSettle(s, id) <==> Hopeful(s, id)
    ensures SettlesSoon(s, id) <==> Hopeful(s, id)
  {
    HopelessOrHopeful(s, id);
    if Hopeful(s, id) {
      HopefulSettles(s, id);
      var run: seq<Action> :| Faultless(s, run) && Legal(s, run) && Settled(Final(s, run), id);
      assert CanSettle(s, id);
    } else {
      HopelessNeverSettles(s, id);
    }
  }

  ghost predicate SoloSettles(s: State, id: Id) {
    exists run: seq<Action> :: SoloRun(s, run) && Legal(s, run) && Settled(Final(s, run), id)
  }

  /** The same for the program as it runs, with one loop at a time. */
  lemma SoloSettlesIff(s: State, id: Id)
    requires Inv(s) && Solo(s) && id in s.hist
    ensures SoloSettles(s, id) <==> Hopeful(s, id)
  {
    SettlesIff(s, id);
    if Hopeful(s, id) {
      var run: seq<Action> :| Faultless(s, run) && Legal(s, run) && Settled(Final(s, run), id);
      FaultlessIsSolo(s, run);
      assert SoloSettles(s, id);
    } else {
      assert !CanSettle(s, id);
    }
  }
}
