/**
 * When POSTs happen. Where each due time comes from is proved for any number of workers;
 * that no POST is early, and how far apart the attempts are, for the one loop that is started.
 */
module QStashTiming {
  import opened Wrappers
  import opened Backoff
  import opened QStashModel
  import opened QStashSafety

  // --- where due times come from: any number of workers ---

  /** `due` was computed for retry `k` from a clock reading between `lo` and `hi`. */
  ghost predicate DueFrom(lo: int, hi: int, due: int, k: nat) {
    exists r: int :: lo <= r <= hi && due == NextAttempt(r, k)
  }

  ghost predicate LogTimed(ps: seq<Post>, clock: int) {
    && (forall i :: 0 <= i < |ps| ==> ps[i].start <= clock)
    && (forall k :: 1 <= k < |ps| ==> DueFrom(ps[k - 1].start, ps[k].start, ps[k].due, k))
  }

  /** The due time of the attempt that would come next. */
  ghost predicate NextDue(ps: seq<Post>, clock: int, due: int) {
    |ps| > 0 ==> DueFrom(ps[|ps| - 1].start, clock, due, |ps|)
  }

  /** The message copy that holds the next due time, if an attempt is still to come. */
  function Upcoming(v: View): Option<Msg> {
    match v.place
    case InQueue => RecordMsg(v)
    case HeldBy(_) =>
      if v.holder.Some? && v.holder.value.Busy? then
        match v.holder.value.stage
        case Claimed => RecordMsg(v)
        case Loaded(m) => Some(m)
        case SaveRetry(m) => Some(m)
        case AddRetry(m) => Some(m)
        case _ => None
      else None
    case _ => None
  }

  function RecordMsg(v: View): Option<Msg> {
    if v.record.Some? then Some(v.record.value.msg) else None
  }

  /** The first attempt is due when the publisher asked for it. */
  ghost predicate FirstDue(v: View) {
    && (v.posts != [] ==> v.posts[0].due == v.born.notBefore)
    && (v.posts == [] && Upcoming(v).Some? ==> Upcoming(v).value.notBefore == v.born.notBefore)
  }

  ghost predicate Timed(v: View, clock: int) {
    && LogTimed(v.posts, clock) && FirstDue(v)
    && (Upcoming(v).Some? ==> NextDue(v.posts, clock, Upcoming(v).value.notBefore))
  }

  ghost predicate TimedInv(s: State) {
    forall id :: id in s.hist ==> Timed(ViewOf(s, id), s.clock)
  }

  lemma TimedLater(v: View, c: int, d: int)
    requires Timed(v, c) && c <= d
    ensures Timed(v, d)
  {
    if Upcoming(v).Some? && |v.posts| > 0 {
      var lo, due, k := v.posts[|v.posts| - 1].start, Upcoming(v).value.notBefore, |v.posts|;
      var r: int :| lo <= r <= c && due == NextAttempt(r, k);
      assert lo <= r <= d && due == NextAttempt(r, k);
    }
  }

  /** The log is the same and the next due time, if any, was already there. */
  ghost predicate StillDue(v: View, n: View) {
    && n.posts == v.posts && n.born == v.born
    && (Upcoming(n).Some? ==> Upcoming(v).Some? && Upcoming(n).value.notBefore == Upcoming(v).value.notBefore)
  }

  lemma StillTimed(v: View, n: View, c: int, d: int)
    requires Timed(v, c) && StillDue(v, n) && c <= d
    ensures Timed(n, d)
  {
    TimedLater(v, c, d);
  }

  lemma LoadTimed(s: State, w: WorkerId, id: Id)
    requires Enabled(s, Load(w)) && Holds(s, w, id)
    ensures StillDue(ViewOf(s, id), ViewOf(DoLoad(s, w), id))
  {
  }

  lemma SaveTimed(s: State, w: WorkerId, id: Id)
    requires Enabled(s, Save(w)) && Holds(s, w, id)
    ensures StillDue(ViewOf(s, id), ViewOf(DoSave(s, w), id))
  {
  }

  lemma EnlistTimed(s: State, w: WorkerId, id: Id)
    requires Enabled(s, Enlist(w)) && Holds(s, w, id)
    ensures StillDue(ViewOf(s, id), ViewOf(DoEnlist(s, w), id))
  {
  }

  lemma ExpireTimed(s: State, w: WorkerId, id: Id)
    requires Enabled(s, Expire(w)) && Holds(s, w, id)
    ensures StillDue(ViewOf(s, id), ViewOf(DoExpire(s, w), id))
  {
  }

  lemma CrashTimed(s: State, w: WorkerId, id: Id)
    requires Enabled(s, Crash(w)) && Holds(s, w, id)
    ensures StillDue(ViewOf(s, id), ViewOf(DoCrash(s, w), id))
  {
  }

  lemma SendTimed(s: State, w: WorkerId, id: Id)
    requires Enabled(s, Send(w)) && Holds(s, w, id) && Timed(ViewOf(s, id), s.clock)
    ensures Timed(ViewOf(DoSend(s, w), id), s.clock)
  {
    var m := StageOf(s, w).msg;
    var v, n := ViewOf(s, id), ViewOf(DoSend(s, w), id);
    assert NextDue(v.posts, s.clock, m.notBefore);
    if m.urlOk {
      assert n.posts == v.posts + [Post(s.clock, m.notBefore, Pending, "")];
    }
  }

  lemma RespondTimed(s: State, w: WorkerId, id: Id, ok: bool, reason: string)
    requires Enabled(s, Respond(w, ok, reason)) && Holds(s, w, id) && Timed(ViewOf(s, id), s.clock)
    ensures Timed(ViewOf(DoRespond(s, w, ok, reason), id), s.clock)
  {
    var ps, qs := s.hist[id].posts, DoRespond(s, w, ok, reason).hist[id].posts;
    assert |qs| == |ps| && forall i :: 0 <= i < |ps| ==> qs[i].start == ps[i].start && qs[i].due == ps[i].due;
  }

  lemma ScheduleTimed(s: State, w: WorkerId, id: Id)
    requires Enabled(s, Schedule(w)) && Holds(s, w, id) && Timed(ViewOf(s, id), s.clock)
    ensures Timed(ViewOf(DoSchedule(s, w), id), s.clock)
  {
    ScheduleAtTimed(s, w, id, NextAttempt(s.clock, StageOf(s, w).msg.retries + 1));
  }

  lemma ScheduleAtTimed(s: State, w: WorkerId, id: Id, next: int)
    requires Enabled(s, Schedule(w)) && Holds(s, w, id) && Timed(ViewOf(s, id), s.clock)
    requires next == NextAttempt(s.clock, StageOf(s, w).msg.retries + 1)
    ensures Timed(ViewOf(ScheduleAt(s, w, next), id), s.clock)
  {
    var ps := s.hist[id].posts;
    assert |ps| == StageOf(s, w).msg.retries + 1;
    assert ps[|ps| - 1].start <= s.clock <= s.clock && next == NextAttempt(s.clock, |ps|);
    assert DueFrom(ps[|ps| - 1].start, s.clock, next, |ps|);
  }

  lemma TimedConclude(s: State, t: State, id: Id)
    requires TimedInv(s) && OnlyMoves(s, t, id) && s.clock <= t.clock
    requires id in t.hist ==> Timed(ViewOf(t, id), t.clock)
    ensures TimedInv(t)
  {
    forall x | x in t.hist ensures Timed(ViewOf(t, x), t.clock) {
      if x != id {
        TimedLater(ViewOf(s, x), s.clock, t.clock);
      }
    }
  }

  lemma TimedNothing(s: State, t: State)
    requires TimedInv(s) && NothingMoved(s, t) && s.clock <= t.clock
    ensures TimedInv(t)
  {
    forall x | x in t.hist ensures Timed(ViewOf(t, x), t.clock) {
      TimedLater(ViewOf(s, x), s.clock, t.clock);
    }
  }

  lemma TimedStill(s: State, t: State, id: Id)
    requires TimedInv(s) && OnlyMoves(s, t, id) && t.clock == s.clock && id in s.hist && id in t.hist
    requires StillDue(ViewOf(s, id), ViewOf(t, id))
    ensures TimedInv(t)
  {
    StillTimed(ViewOf(s, id), ViewOf(t, id), s.clock, t.clock);
    TimedConclude(s, t, id);
  }

  lemma KeepTimedPublish(s: State, id: Id, m: Msg)
    requires Inv(s) && TimedInv(s) && id !in s.hist && NewMsgOk(m)
    ensures TimedInv(DoPublish(s, id, m))
  {
    KeepPublish(s, id, m);
    TimedConclude(s, DoPublish(s, id, m), id);
  }

  /** Nothing has been sent yet while an id is being published. */
  lemma PublisherTimed(s: State, a: Action)
    requires Enabled(s, a) && (a.PublishSave? || a.PublishAdd? || a.PublishCrash?)
    requires a.id in s.hist && s.hist[a.id].place == Publishing && PlaceOk(a.id, ViewOf(s, a.id), s.crashes)
    ensures a.id in Apply(s, a).hist && Timed(ViewOf(Apply(s, a), a.id), s.clock)
  {
  }

  lemma KeepTimedPublishing(s: State, a: Action)
    requires Inv(s) && TimedInv(s) && Enabled(s, a)
    requires a.PublishSave? || a.PublishAdd? || a.PublishCrash?
    ensures TimedInv(Apply(s, a))
  {
    KeepPublishing(s, a);
    Extract(s, a.id);
    PublisherTimed(s, a);
    TimedConclude(s, Apply(s, a), a.id);
  }

  lemma KeepTimedLoop(s: State, w: WorkerId, wk: Worker)
    requires Inv(s) && TimedInv(s) && !At(s, w) && !wk.Busy?
    ensures TimedInv(SetWorker(s, w, wk))
  {
    KeepLoop(s, w, wk);
    TimedNothing(s, SetWorker(s, w, wk));
  }

  lemma KeepTimedClaim(s: State, w: WorkerId)
    requires Inv(s) && TimedInv(s) && CanClaim(s, w)
    ensures TimedInv(DoClaim(s, w))
  {
    var id := s.workers[w].todo[0];
    if id in s.queue {
      Extract(s, id);
      KeepClaim(s, w);
      TimedStill(s, DoClaim(s, w), id);
    } else {
      KeepTimedLoop(s, w, Scanning(s.workers[w].now, s.workers[w].todo[1..]));
    }
  }

  lemma EvictTimed(s: State, id: Id)
    requires Enabled(s, Evict(id)) && id in s.hist && PlaceOk(id, ViewOf(s, id), s.crashes)
    ensures StillDue(ViewOf(s, id), ViewOf(s.(records := s.records - {id}), id))
  {
  }

  lemma KeepTimedEvict(s: State, id: Id)
    requires Inv(s) && TimedInv(s) && Enabled(s, Evict(id))
    ensures TimedInv(s.(records := s.records - {id}))
  {
    KeepEvict(s, id);
    Extract(s, id);
    EvictTimed(s, id);
    TimedStill(s, s.(records := s.records - {id}), id);
  }

  lemma KeepTimedLoad(s: State, w: WorkerId)
    requires Inv(s) && TimedInv(s) && Enabled(s, Load(w)) && At(s, w)
    ensures TimedInv(DoLoad(s, w))
  {
    HolderHolds(s, w, s.workers[w].id);
    KeepLoad(s, w);
    LoadTimed(s, w, s.workers[w].id);
    TimedStill(s, DoLoad(s, w), s.workers[w].id);
  }

  lemma KeepTimedSave(s: State, w: WorkerId)
    requires Inv(s) && TimedInv(s) && Enabled(s, Save(w)) && At(s, w)
    ensures TimedInv(DoSave(s, w))
  {
    HolderHolds(s, w, s.workers[w].id);
    KeepSave(s, w);
    SaveTimed(s, w, s.workers[w].id);
    TimedStill(s, DoSave(s, w), s.workers[w].id);
  }

  lemma KeepTimedEnlist(s: State, w: WorkerId)
    requires Inv(s) && TimedInv(s) && Enabled(s, Enlist(w)) && At(s, w)
    ensures TimedInv(DoEnlist(s, w))
  {
    HolderHolds(s, w, s.workers[w].id);
    KeepEnlist(s, w);
    EnlistTimed(s, w, s.workers[w].id);
    TimedStill(s, DoEnlist(s, w), s.workers[w].id);
  }

  lemma KeepTimedExpire(s: State, w: WorkerId)
    requires Inv(s) && TimedInv(s) && Enabled(s, Expire(w)) && At(s, w)
    ensures TimedInv(DoExpire(s, w))
  {
    HolderHolds(s, w, s.workers[w].id);
    KeepExpire(s, w);
    ExpireTimed(s, w, s.workers[w].id);
    TimedStill(s, DoExpire(s, w), s.workers[w].id);
  }

  lemma KeepTimedCrash(s: State, w: WorkerId)
    requires Inv(s) && TimedInv(s) && Enabled(s, Crash(w)) && At(s, w)
    ensures TimedInv(DoCrash(s, w))
  {
    HolderHolds(s, w, s.workers[w].id);
    KeepCrash(s, w);
    CrashTimed(s, w, s.workers[w].id);
    TimedStill(s, DoCrash(s, w), s.workers[w].id);
  }

  lemma KeepTimedSend(s: State, w: WorkerId)
    requires Inv(s) && TimedInv(s) && Enabled(s, Send(w))
    ensures TimedInv(DoSend(s, w))
  {
    HolderHolds(s, w, s.workers[w].id);
    KeepSend(s, w);
    SendTimed(s, w, s.workers[w].id);
    TimedConclude(s, DoSend(s, w), s.workers[w].id);
  }

  lemma KeepTimedRespond(s: State, w: WorkerId, ok: bool, reason: string)
    requires Inv(s) && TimedInv(s) && Enabled(s, Respond(w, ok, reason))
    ensures TimedInv(DoRespond(s, w, ok, reason))
  {
    HolderHolds(s, w, s.workers[w].id);
    KeepRespond(s, w, ok, reason);
    RespondTimed(s, w, s.workers[w].id, ok, reason);
    TimedConclude(s, DoRespond(s, w, ok, reason), s.workers[w].id);
  }

  lemma KeepTimedSchedule(s: State, w: WorkerId)
    requires Inv(s) && TimedInv(s) && Enabled(s, Schedule(w))
    ensures TimedInv(DoSchedule(s, w))
  {
    HolderHolds(s, w, s.workers[w].id);
    KeepSchedule(s, w);
    ScheduleTimed(s, w, s.workers[w].id);
    TimedConclude(s, DoSchedule(s, w), s.workers[w].id);
  }

  lemma KeepTimedDeliver(s: State, a: Action)
    requires Inv(s) && TimedInv(s) && Enabled(s, a)
    requires a.Load? || a.Send? || a.Respond? || a.Schedule? || a.Save? || a.Enlist? || a.Expire?
    ensures TimedInv(Apply(s, a))
  {
    match a
    case Load(w) => KeepTimedLoad(s, w);
    case Send(w) => KeepTimedSend(s, w);
    case Respond(w, ok, reason) => KeepTimedRespond(s, w, ok, reason);
    case Schedule(w) => KeepTimedSchedule(s, w);
    case Save(w) => KeepTimedSave(s, w);
    case Enlist(w) => KeepTimedEnlist(s, w);
    case Expire(w) => KeepTimedExpire(s, w);
  }

  lemma KeepTimedPass(s: State, a: Action)
    requires Inv(s) && TimedInv(s) && Enabled(s, a)
    requires a.Start? || a.Poll? || a.Snapshot? || a.Claim? || a.Finish? || a.Crash?
    ensures TimedInv(Apply(s, a))
  {
    match a
    case Start(w) => KeepTimedLoop(s, w, Idle);
    case Poll(w) => KeepTimedLoop(s, w, Polling(UnixMilli(s.clock)));
    case Snapshot(w, ids) => KeepTimedLoop(s, w, Scanning(s.workers[w].now, ids));
    case Claim(w, _) => KeepTimedClaim(s, w);
    case Finish(w) => KeepTimedLoop(s, w, Idle);
    case Crash(w) =>
      if At(s, w) {
        KeepTimedCrash(s, w);
      } else {
        KeepIdleCrash(s, w);
        TimedNothing(s, DoCrash(s, w));
      }
  }

  lemma KeepTimed(s: State, a: Action)
    requires Inv(s) && TimedInv(s) && Enabled(s, a)
    ensures TimedInv(Apply(s, a))
  {
    if a.Publish? {
      KeepTimedPublish(s, a.id, a.msg);
    } else if a.PublishSave? || a.PublishAdd? || a.PublishCrash? {
      KeepTimedPublishing(s, a);
    } else if a.Start? || a.Poll? || a.Snapshot? || a.Claim? || a.Finish? || a.Crash? {
      KeepTimedPass(s, a);
    } else if a.Advance? {
      KeepAdvance(s, a.dt);
      TimedNothing(s, Apply(s, a));
    } else if a.Evict? {
      KeepTimedEvict(s, a.id);
    } else {
      KeepTimedDeliver(s, a);
    }
  }

  /** Every attempt after the first was due at a back-off from a moment after the previous one was sent. */
  lemma DueTimesComeFromBackoff(s: State, id: Id, k: nat)
    requires Reachable(s) && id in s.hist && 1 <= k < |s.hist[id].posts|
    ensures DueFrom(s.hist[id].posts[k - 1].start, s.hist[id].posts[k].start, s.hist[id].posts[k].due, k)
  {
    var clock: int, run: seq<Action> :| Legal(Init(clock), run) && Final(Init(clock), run) == s;
    InitOk(clock);
    KeepTimedRun(Init(clock), run);
    assert Timed(ViewOf(s, id), s.clock);
  }

  /** The first attempt was due at the time asked for when publishing. */
  lemma FirstDueAsPublished(s: State, id: Id)
    requires Reachable(s) && id in s.hist && s.hist[id].posts != []
    ensures s.hist[id].posts[0].due == s.hist[id].born.notBefore
  {
    var clock: int, run: seq<Action> :| Legal(Init(clock), run) && Final(Init(clock), run) == s;
    InitOk(clock);
    KeepTimedRun(Init(clock), run);
    assert Timed(ViewOf(s, id), s.clock);
  }

  lemma {:induction false} KeepTimedRun(s: State, run: seq<Action>)
    requires Inv(s) && TimedInv(s) && Legal(s, run)
    ensures TimedInv(Final(s, run))
    decreases |run|
  {
    if run != [] {
      Keep(s, run[0]);
      KeepTimed(s, run[0]);
      KeepTimedRun(Apply(s, run[0]), run[1..]);
    }
  }
}
