/**
 * What every reachable state of the delivery protocol satisfies, for any number of
 * workers and publishers, crashes included.
 */
module QStashSafety {
  import opened Wrappers
  import opened QStashModel
  import opened Backoff

  // --- the log of one message ---

  ghost predicate AllFailed(ps: seq<Post>) {
    forall i :: 0 <= i < |ps| ==> ps[i].outcome == Failure
  }

  /** Only the last POST may be anything but a failure. */
  ghost predicate EndsWith(ps: seq<Post>, o: Outcome) {
    |ps| > 0 && ps[|ps| - 1].outcome == o && AllFailed(ps[..|ps| - 1])
  }

  /** Why the last POST failed, if there was one and it did. */
  function LastError(ps: seq<Post>): string {
    if ps == [] then "" else ps[|ps| - 1].error
  }

  ghost predicate LogOk(ps: seq<Post>) {
    AllFailed(ps) || EndsWith(ps, Success) || EndsWith(ps, Pending)
  }

  /** Everything the state says about one id. */
  datatype View = View(
    born: Msg,
    place: Place,
    posts: seq<Post>,
    claims: nat,
    record: Option<Record>,
    score: Option<int>,
    pub: Option<Publisher>,
    holder: Option<Worker>,
    inDlq: bool)
  {
    predicate NoTTL() {
      record.Some? && record.value.expireAt == None && SameMessage(record.value.msg, born)
    }

    /** A message with attempts left: no TTL, one retry counted per POST, all of them failed. */
    ghost predicate Live() {
      && NoTTL()
      && var m := record.value.msg;
      && m.retries == |posts| <= m.maxRetries
      && m.phase == (if m.retries == 0 then Queued else Retrying)
      && AllFailed(posts) && m.lastError == LastError(posts)
      && (!m.urlOk ==> m.retries == 0)
    }
  }

  function Lookup<T>(m: map<Id, T>, id: Id): Option<T> {
    if id in m then Some(m[id]) else None
  }

  function ViewOf(s: State, id: Id): View
    requires id in s.hist
  {
    var h := s.hist[id];
    View(h.born, h.place, h.posts, h.claims, Lookup(s.records, id), Lookup(s.queue, id),
         Lookup(s.pubs, id), if h.place.HeldBy? then Lookup(s.workers, h.place.w) else None, id in s.dlq)
  }

  /** Nothing but retries, phase, notBefore and lastError ever changes in a message. */
  predicate SameMessage(m: Msg, b: Msg) {
    && m.destination == b.destination && m.body == b.body && m.urlOk == b.urlOk
    && m.createdAt == b.createdAt && m.maxRetries == b.maxRetries
  }

  /** A message given up on: every attempt used and failed, or its URL never parsed. */
  ghost predicate Exhausted(m: Msg, ps: seq<Post>) {
    && m.phase == Failed
    && AllFailed(ps)
    && (m.urlOk ==> m.retries == |ps| == m.maxRetries + 1 && m.lastError == LastError(ps))
    && (!m.urlOk ==> m.retries == |ps| == 0 && m.lastError == INVALID_DESTINATION)
  }

  ghost predicate Arrived(m: Msg, ps: seq<Post>) {
    && m.urlOk && m.phase == Delivered && m.lastError == ""
    && EndsWith(ps, Success) && |ps| == m.retries + 1 <= m.maxRetries + 1
  }

  ghost predicate StageOk(v: View, g: Stage) {
    && (g.ExpireFailed? <==> v.inDlq)
    && match g
       case Claimed => v.Live() && v.claims == |v.posts| + 1
       case Loaded(m) => v.Live() && m == v.record.value.msg && v.claims == |v.posts| + 1
       case Sent(m) =>
         && v.NoTTL() && m == v.record.value.msg && m.urlOk && EndsWith(v.posts, Pending)
         && v.claims == |v.posts| == m.retries + 1 <= m.maxRetries + 1
       case Rejected(m, reason) =>
         && v.NoTTL() && m == v.record.value.msg && m.urlOk && AllFailed(v.posts) && reason == LastError(v.posts)
         && v.claims == |v.posts| == m.retries + 1 <= m.maxRetries + 1
       case SaveDelivered(m) =>
         v.NoTTL() && SameMessage(m, v.born) && Arrived(m, v.posts) && v.claims == |v.posts|
       case ExpireDelivered => v.NoTTL() && Arrived(v.record.value.msg, v.posts) && v.claims == |v.posts|
       case SaveRetry(m) =>
         && v.NoTTL() && SameMessage(m, v.born) && m.phase == Retrying && m.urlOk && AllFailed(v.posts)
         && 1 <= m.retries == |v.posts| == v.claims <= m.maxRetries && m.lastError == LastError(v.posts)
       case AddRetry(m) =>
         v.Live() && m == v.record.value.msg && m.retries >= 1 && m.urlOk && v.claims == |v.posts|
       case SaveFailed(m) =>
         && v.NoTTL() && SameMessage(m, v.born) && Exhausted(m, v.posts) && v.claims == FailedClaims(v.born)
       case _ => v.NoTTL() && Exhausted(v.record.value.msg, v.posts) && v.claims == FailedClaims(v.born)
  }

  /** Times a dead-lettered message was claimed. */
  function FailedClaims(b: Msg): nat {
    if b.urlOk then b.maxRetries + 1 else 1
  }

  ghost predicate PlaceOk(id: Id, v: View, crashes: nat) {
    var ps := v.posts;
    match v.place
    case Publishing =>
      && v.pub.Some? && v.pub.value.msg == v.born && NewMsgOk(v.born) && ps == [] && v.claims == 0 && !v.inDlq
      && (if v.pub.value.PubSave? then v.record == None else v.Live() && v.record.value.msg == v.born)
    case InQueue =>
      v.Live() && v.score == Some(v.record.value.msg.notBefore) && v.claims == |ps| && !v.inDlq
    case HeldBy(w) =>
      v.holder.Some? && v.holder.value.Busy? && v.holder.value.id == id && StageOk(v, v.holder.value.stage)
    case Done =>
      && v.born.urlOk && EndsWith(ps, Success) && |ps| == v.claims <= v.born.maxRetries + 1 && !v.inDlq
      && (v.record.Some? ==> Arrived(v.record.value.msg, ps) && SameMessage(v.record.value.msg, v.born))
    case Dead =>
      && AllFailed(ps) && |ps| == (if v.born.urlOk then v.born.maxRetries + 1 else 0)
      && v.claims == FailedClaims(v.born)
      && (crashes == 0 ==> v.inDlq)
      && (v.record.Some? ==> Exhausted(v.record.value.msg, ps) && SameMessage(v.record.value.msg, v.born))
    case Lost =>
      && LogOk(ps) && |ps| <= v.claims <= FailedClaims(v.born) && !v.inDlq && crashes > 0
      && (v.record.Some? ==> v.NoTTL())
    case Dropped => false
  }

  // --- the invariant ---

  /** Each shared structure and each worker agrees with the place of every id it mentions. */
  ghost predicate Shape(s: State) {
    && Lists(s.issued, s.hist)
    && (forall id :: id in s.records ==> id in s.hist)
    && QueueShape(s.queue, s.hist)
    && PubShape(s.pubs, s.hist)
    && WorkerShape(s.workers, s.hist)
    && NoDuplicates(s.dlq) && (forall id :: id in s.dlq ==> id in s.hist)
  }

  ghost predicate Lists(q: seq<Id>, hist: map<Id, History>) {
    NoDuplicates(q) && forall id :: id in q <==> id in hist
  }

  ghost predicate QueueShape(queue: map<Id, int>, hist: map<Id, History>) {
    forall id :: id in queue ==> id in hist && hist[id].place == InQueue
  }

  ghost predicate PubShape(pubs: map<Id, Publisher>, hist: map<Id, History>) {
    forall id :: id in pubs ==> id in hist && hist[id].place == Publishing
  }

  ghost predicate WorkerShape(workers: map<WorkerId, Worker>, hist: map<Id, History>) {
    forall w :: w in workers && workers[w].Busy? ==>
      workers[w].id in hist && hist[workers[w].id].place == HeldBy(w)
  }

  ghost predicate AllOk(s: State) {
    forall id :: id in s.hist ==> PlaceOk(id, ViewOf(s, id), s.crashes)
  }

  ghost predicate Inv(s: State) {
    Shape(s) && AllOk(s)
  }

  lemma InitOk(clock: int)
    ensures Inv(Init(clock))
  {
  }

  lemma Extract(s: State, id: Id)
    requires Inv(s) && id in s.hist
    ensures PlaceOk(id, ViewOf(s, id), s.crashes)
  {
  }

  // --- preservation: one id moves, every other id looks the same ---

  /** The one id an action may touch. */
  function MovedId(s: State, a: Action): Id
    requires Enabled(s, a)
  {
    match a
    case Evict(id) => id
    case Publish(id, _) => id
    case PublishSave(id) => id
    case PublishAdd(id) => id
    case PublishCrash(id) => id
    case Claim(_, id) => id
    case Advance(_) => 0
    case _ => if At(s, a.w) then s.workers[a.w].id else 0
  }

  ghost predicate OnlyMoves(s: State, t: State, id: Id) {
    && (forall x :: x in t.hist ==> x in s.hist || x == id)
    && s.crashes <= t.crashes
    && (forall x :: x in s.hist ==> x in t.hist)
    && (forall x :: x in s.hist && x in t.hist && x != id ==> ViewOf(t, x) == ViewOf(s, x))
  }

  ghost predicate NothingMoved(s: State, t: State) {
    && (forall x :: x in t.hist <==> x in s.hist)
    && s.crashes <= t.crashes
    && (forall x :: x in s.hist && x in t.hist ==> ViewOf(t, x) == ViewOf(s, x))
  }

  lemma CrashesOnlyGrow(id: Id, v: View, c: nat, d: nat)
    requires PlaceOk(id, v, c) && c <= d
    ensures PlaceOk(id, v, d)
  {
  }

  lemma Conclude(s: State, t: State, id: Id)
    requires Inv(s) && Shape(t) && OnlyMoves(s, t, id) && id in t.hist
    requires PlaceOk(id, ViewOf(t, id), t.crashes)
    ensures Inv(t)
  {
    forall x | x in t.hist ensures PlaceOk(x, ViewOf(t, x), t.crashes) {
      if x != id {
        Extract(s, x);
        CrashesOnlyGrow(x, ViewOf(s, x), s.crashes, t.crashes);
      }
    }
  }

  lemma NothingMoves(s: State, t: State)
    requires Inv(s) && Shape(t) && (forall x :: x in t.hist <==> x in s.hist) && s.crashes <= t.crashes
    requires forall x :: x in s.hist ==> ViewOf(t, x) == ViewOf(s, x)
    ensures Inv(t) && NothingMoved(s, t)
  {
    forall x | x in t.hist ensures PlaceOk(x, ViewOf(t, x), t.crashes) {
      Extract(s, x);
      CrashesOnlyGrow(x, ViewOf(s, x), s.crashes, t.crashes);
    }
  }

  // --- time, eviction, publishing ---

  lemma ListsAppend(q: seq<Id>, hist: map<Id, History>, id: Id, h: History)
    requires Lists(q, hist) && id !in hist
    ensures Lists(q + [id], hist[id := h])
  {
  }

  lemma NoDuplicatesPrepend(q: seq<Id>, id: Id)
    requires NoDuplicates(q) && id !in q
    ensures NoDuplicates([id] + q)
  {
  }

  lemma EvictStep(s: State, id: Id)
    requires Enabled(s, Evict(id)) && id in s.hist && PlaceOk(id, ViewOf(s, id), s.crashes)
    ensures PlaceOk(id, ViewOf(s.(records := s.records - {id}), id), s.crashes)
  {
  }

  lemma KeepEvict(s: State, id: Id)
    requires Inv(s) && Enabled(s, Evict(id))
    ensures Inv(s.(records := s.records - {id})) && OnlyMoves(s, s.(records := s.records - {id}), id)
  {
    Extract(s, id);
    EvictStep(s, id);
    EvictFrame(s, id);
    Conclude(s, s.(records := s.records - {id}), id);
  }

  lemma EvictFrame(s: State, id: Id)
    requires Shape(s) && id in s.hist
    ensures Shape(s.(records := s.records - {id})) && OnlyMoves(s, s.(records := s.records - {id}), id)
  {
  }

  lemma PublishShape(s: State, id: Id, m: Msg)
    requires Shape(s) && id !in s.hist
    ensures Shape(DoPublish(s, id, m))
  {
    var t := DoPublish(s, id, m);
    ListsAppend(s.issued, s.hist, id, t.hist[id]);
  }

  lemma PublishStep(s: State, id: Id, m: Msg)
    requires id !in s.hist && NewMsgOk(m) && id !in s.records && id !in s.dlq
    ensures OnlyMoves(s, DoPublish(s, id, m), id)
    ensures PlaceOk(id, ViewOf(DoPublish(s, id, m), id), s.crashes)
  {
    var t := DoPublish(s, id, m);
    forall x | x in s.hist && x != id ensures ViewOf(t, x) == ViewOf(s, x) {
    }
  }

  lemma KeepPublish(s: State, id: Id, m: Msg)
    requires Inv(s) && id !in s.hist && NewMsgOk(m)
    ensures Inv(DoPublish(s, id, m)) && OnlyMoves(s, DoPublish(s, id, m), id)
  {
    PublishShape(s, id, m);
    PublishStep(s, id, m);
    Conclude(s, DoPublish(s, id, m), id);
  }

  /** A publisher's step touches its own id only. */
  ghost predicate PublisherStep(s: State, t: State, id: Id) {
    && id in s.hist && id in s.pubs && id in t.hist
    && t.hist == s.hist[id := t.hist[id]]
    && t.issued == s.issued && t.workers == s.workers && t.dlq == s.dlq && s.crashes <= t.crashes
    && (t.records == s.records || (id in t.records && t.records == s.records[id := t.records[id]]))
    && (t.queue == s.queue || (id in t.queue && t.queue == s.queue[id := t.queue[id]] && t.hist[id].place == InQueue))
    && (t.pubs == s.pubs - {id}
        || (id in t.pubs && t.pubs == s.pubs[id := t.pubs[id]] && t.hist[id].place == Publishing))
  }

  lemma PublisherShape(s: State, t: State, id: Id)
    requires Shape(s) && PublisherStep(s, t, id)
    ensures Shape(t)
  {
    assert s.hist[id].place == Publishing;
  }

  lemma PublisherViews(s: State, t: State, id: Id)
    requires PublisherStep(s, t, id)
    ensures OnlyMoves(s, t, id)
  {
    forall x | x in s.hist && x != id ensures ViewOf(t, x) == ViewOf(s, x) {
    }
  }

  lemma PublishSaveStep(s: State, id: Id)
    requires Enabled(s, PublishSave(id)) && id in s.hist && s.hist[id].place == Publishing
    requires PlaceOk(id, ViewOf(s, id), s.crashes)
    ensures PublisherStep(s, DoPublishSave(s, id), id)
    ensures PlaceOk(id, ViewOf(DoPublishSave(s, id), id), s.crashes)
  {
  }

  lemma PublishAddStep(s: State, id: Id)
    requires Enabled(s, PublishAdd(id)) && id in s.hist && s.hist[id].place == Publishing
    requires PlaceOk(id, ViewOf(s, id), s.crashes)
    ensures PublisherStep(s, DoPublishAdd(s, id), id)
    ensures PlaceOk(id, ViewOf(DoPublishAdd(s, id), id), s.crashes)
  {
  }

  lemma PublishCrashStep(s: State, id: Id)
    requires Enabled(s, PublishCrash(id)) && id in s.hist && s.hist[id].place == Publishing
    requires PlaceOk(id, ViewOf(s, id), s.crashes)
    ensures PublisherStep(s, DoPublishCrash(s, id), id)
    ensures PlaceOk(id, ViewOf(DoPublishCrash(s, id), id), s.crashes + 1)
  {
  }

  lemma KeepPublisher(s: State, t: State, id: Id)
    requires Inv(s) && PublisherStep(s, t, id) && PlaceOk(id, ViewOf(t, id), t.crashes)
    ensures Inv(t) && OnlyMoves(s, t, id)
  {
    PublisherShape(s, t, id);
    PublisherViews(s, t, id);
    Conclude(s, t, id);
  }

  lemma KeepPublishSave(s: State, id: Id)
    requires Inv(s) && Enabled(s, PublishSave(id))
    ensures Inv(DoPublishSave(s, id)) && OnlyMoves(s, DoPublishSave(s, id), id)
  {
    Extract(s, id);
    PublishSaveStep(s, id);
    KeepPublisher(s, DoPublishSave(s, id), id);
  }

  lemma KeepPublishAdd(s: State, id: Id)
    requires Inv(s) && Enabled(s, PublishAdd(id))
    ensures Inv(DoPublishAdd(s, id)) && OnlyMoves(s, DoPublishAdd(s, id), id)
  {
    Extract(s, id);
    PublishAddStep(s, id);
    KeepPublisher(s, DoPublishAdd(s, id), id);
  }

  lemma KeepPublishCrash(s: State, id: Id)
    requires Inv(s) && Enabled(s, PublishCrash(id))
    ensures Inv(DoPublishCrash(s, id)) && OnlyMoves(s, DoPublishCrash(s, id), id)
  {
    Extract(s, id);
    PublishCrashStep(s, id);
    KeepPublisher(s, DoPublishCrash(s, id), id);
  }

  /** Steps of a worker outside `deliver` touch nothing but that worker. */
  lemma FrameIdle(s: State, t: State, w: WorkerId)
    requires Shape(s) && !At(s, w) && !At(t, w)
    requires t == s.(workers := t.workers, crashes := t.crashes)
    requires forall v :: v != w ==> (v in t.workers <==> v in s.workers)
    requires forall v :: v != w && v in s.workers ==> t.workers[v] == s.workers[v]
    ensures Shape(t) && forall x :: x in s.hist && s.hist[x].place != HeldBy(w) ==> ViewOf(t, x) == ViewOf(s, x)
  {
    forall v | At(t, v) ensures t.workers[v].id in t.hist && t.hist[t.workers[v].id].place == HeldBy(v) {
      assert At(s, v);
    }
  }

  /** An id is held by a worker only while that worker is inside `deliver` with it. */
  lemma HolderIsBusy(s: State, id: Id, w: WorkerId)
    requires Inv(s) && id in s.hist && s.hist[id].place == HeldBy(w)
    ensures At(s, w) && s.workers[w].id == id
  {
    Extract(s, id);
  }

  lemma KeepIdle(s: State, t: State, w: WorkerId)
    requires Inv(s) && !At(s, w) && !At(t, w)
    requires t == s.(workers := t.workers, crashes := t.crashes) && s.crashes <= t.crashes
    requires forall v :: v != w ==> (v in t.workers <==> v in s.workers)
    requires forall v :: v != w && v in s.workers ==> t.workers[v] == s.workers[v]
    ensures Inv(t) && NothingMoved(s, t)
  {
    FrameIdle(s, t, w);
    forall x | x in s.hist ensures ViewOf(t, x) == ViewOf(s, x) {
      if s.hist[x].place == HeldBy(w) {
        HolderIsBusy(s, x, w);
      }
    }
    NothingMoves(s, t);
  }

  lemma KeepLoop(s: State, w: WorkerId, wk: Worker)
    requires Inv(s) && !At(s, w) && !wk.Busy?
    ensures Inv(SetWorker(s, w, wk)) && NothingMoved(s, SetWorker(s, w, wk))
  {
    KeepIdle(s, SetWorker(s, w, wk), w);
  }

  lemma KeepIdleCrash(s: State, w: WorkerId)
    requires Inv(s) && Enabled(s, Crash(w)) && !At(s, w)
    ensures Inv(DoCrash(s, w)) && NothingMoved(s, DoCrash(s, w))
  {
    KeepIdle(s, DoCrash(s, w), w);
  }

  lemma KeepAdvance(s: State, dt: nat)
    requires Inv(s)
    ensures Inv(s.(clock := s.clock + dt)) && NothingMoved(s, s.(clock := s.clock + dt))
  {
    NothingMoves(s, s.(clock := s.clock + dt));
  }

  // --- claiming ---

  /** Between the two states, worker `w` moved and only `id`'s data changed. */
  ghost predicate OneWorkerStep(s: State, t: State, w: WorkerId, id: Id) {
    && id in s.hist && id in t.hist
    && t.hist == s.hist[id := t.hist[id]]
    && t.issued == s.issued && t.pubs == s.pubs && s.crashes <= t.crashes
    && (t.records == s.records || (id in t.records && t.records == s.records[id := t.records[id]]))
    && (t.queue == s.queue || t.queue == s.queue - {id}
        || (id in t.queue && t.queue == s.queue[id := t.queue[id]] && t.hist[id].place == InQueue))
    && (t.workers == s.workers - {w} || (w in t.workers && t.workers == s.workers[w := t.workers[w]]))
    && (t.dlq == s.dlq || (t.dlq == [id] + s.dlq && id !in s.dlq))
    && (At(t, w) ==> t.workers[w].id == id && t.hist[id].place == HeldBy(w))
    && (id in t.queue ==> t.hist[id].place == InQueue)
    && s.hist[id].place != Publishing
  }

  lemma FrameShape(s: State, t: State, w: WorkerId, id: Id)
    requires Shape(s) && OneWorkerStep(s, t, w, id)
    requires forall v :: v in s.workers && s.workers[v].Busy? && v != w ==> s.workers[v].id != id
    ensures Shape(t)
  {
    if t.dlq != s.dlq {
      NoDuplicatesPrepend(s.dlq, id);
    }
    assert id !in s.pubs;
  }

  lemma FrameView(s: State, t: State, w: WorkerId, id: Id, x: Id)
    requires OneWorkerStep(s, t, w, id)
    requires x in s.hist && x != id && s.hist[x].place != HeldBy(w)
    ensures x in t.hist && ViewOf(t, x) == ViewOf(s, x)
  {
  }

  lemma FrameViews(s: State, t: State, w: WorkerId, id: Id)
    requires OneWorkerStep(s, t, w, id)
    requires forall x :: x in s.hist && x != id ==> s.hist[x].place != HeldBy(w)
    ensures OnlyMoves(s, t, id)
  {
    forall x | x in s.hist && x != id ensures x in t.hist && ViewOf(t, x) == ViewOf(s, x) {
      FrameView(s, t, w, id, x);
    }
  }

  /** One worker holds one id: nobody else holds this id, and this worker holds no other. */
  lemma Exclusive(s: State, w: WorkerId, id: Id)
    requires Inv(s) && id in s.hist
    requires (At(s, w) && s.workers[w].id == id) || (!At(s, w) && id in s.queue)
    ensures forall x :: x in s.hist && x != id ==> s.hist[x].place != HeldBy(w)
    ensures forall v :: v in s.workers && s.workers[v].Busy? && v != w ==> s.workers[v].id != id
  {
    forall x | x in s.hist && x != id ensures s.hist[x].place != HeldBy(w) {
      if s.hist[x].place == HeldBy(w) {
        HolderIsBusy(s, x, w);
      }
    }
  }

  /** What a step of worker `w` on `id` has to establish. */
  ghost predicate StepOk(s: State, t: State, w: WorkerId, id: Id) {
    OneWorkerStep(s, t, w, id) && PlaceOk(id, ViewOf(t, id), t.crashes)
  }

  lemma KeepStep(s: State, t: State, w: WorkerId, id: Id)
    requires Inv(s) && StepOk(s, t, w, id)
    requires (At(s, w) && s.workers[w].id == id) || (!At(s, w) && id in s.queue)
    ensures Inv(t) && OnlyMoves(s, t, id)
  {
    Exclusive(s, w, id);
    FrameShape(s, t, w, id);
    FrameViews(s, t, w, id);
    Conclude(s, t, id);
  }

  lemma ClaimStep(s: State, w: WorkerId, id: Id)
    requires CanClaim(s, w) && s.workers[w].todo[0] == id && id in s.queue
    requires id in s.hist && s.hist[id].place == InQueue && PlaceOk(id, ViewOf(s, id), s.crashes)
    ensures StepOk(s, DoClaim(s, w), w, id)
  {
  }

  lemma KeepClaim(s: State, w: WorkerId)
    requires Inv(s) && CanClaim(s, w)
    ensures Inv(DoClaim(s, w)) && OnlyMoves(s, DoClaim(s, w), s.workers[w].todo[0])
  {
    var id := s.workers[w].todo[0];
    if id in s.queue {
      Extract(s, id);
      ClaimStep(s, w, id);
      KeepStep(s, DoClaim(s, w), w, id);
    } else {
      KeepIdle(s, DoClaim(s, w), w);
    }
  }

  // --- inside deliver: worker `w` holds `id` ---

  /** Worker `w` is inside `deliver(id)`, and every fact about `id` holds. */
  ghost predicate Holds(s: State, w: WorkerId, id: Id) {
    && At(s, w) && s.workers[w].id == id && id in s.hist && s.hist[id].place == HeldBy(w)
    && id !in s.queue && id !in s.pubs && PlaceOk(id, ViewOf(s, id), s.crashes)
  }

  lemma LoadStep(s: State, w: WorkerId, id: Id)
    requires Enabled(s, Load(w)) && Holds(s, w, id)
    ensures StepOk(s, DoLoad(s, w), w, id)
  {
  }

  lemma SendStep(s: State, w: WorkerId, id: Id)
    requires Enabled(s, Send(w)) && Holds(s, w, id)
    ensures StepOk(s, DoSend(s, w), w, id)
  {
    var ps, qs := s.hist[id].posts, DoSend(s, w).hist[id].posts;
    if s.workers[w].stage.msg.urlOk {
      assert qs[..|qs| - 1] == ps;
    }
  }

  lemma RespondStep(s: State, w: WorkerId, id: Id, ok: bool, reason: string)
    requires Enabled(s, Respond(w, ok, reason)) && Holds(s, w, id)
    ensures StepOk(s, DoRespond(s, w, ok, reason), w, id)
  {
    var ps, qs := s.hist[id].posts, DoRespond(s, w, ok, reason).hist[id].posts;
    assert qs[..|qs| - 1] == ps[..|ps| - 1];
  }

  lemma GiveUpStep(s: State, w: WorkerId, id: Id, next: int)
    requires Enabled(s, Schedule(w)) && Holds(s, w, id)
    requires StageOf(s, w).msg.retries == StageOf(s, w).msg.maxRetries
    ensures StepOk(s, ScheduleAt(s, w, next), w, id)
  {
  }

  lemma BackOffStep(s: State, w: WorkerId, id: Id, next: int)
    requires Enabled(s, Schedule(w)) && Holds(s, w, id)
    requires StageOf(s, w).msg.retries < StageOf(s, w).msg.maxRetries
    ensures StepOk(s, ScheduleAt(s, w, next), w, id)
  {
  }

  lemma SaveStep(s: State, w: WorkerId, id: Id)
    requires Enabled(s, Save(w)) && Holds(s, w, id)
    ensures StepOk(s, DoSave(s, w), w, id)
  {
  }

  lemma EnlistStep(s: State, w: WorkerId, id: Id)
    requires Enabled(s, Enlist(w)) && Holds(s, w, id)
    ensures StepOk(s, DoEnlist(s, w), w, id)
  {
  }

  lemma ExpireStep(s: State, w: WorkerId, id: Id)
    requires Enabled(s, Expire(w)) && Holds(s, w, id)
    ensures StepOk(s, DoExpire(s, w), w, id)
  {
  }

  lemma CrashStep(s: State, w: WorkerId, id: Id)
    requires Enabled(s, Crash(w)) && At(s, w) && Holds(s, w, id)
    ensures StepOk(s, DoCrash(s, w), w, id)
  {
  }

  lemma HolderHolds(s: State, w: WorkerId, id: Id)
    requires Inv(s) && At(s, w) && s.workers[w].id == id
    ensures Holds(s, w, id)
  {
    Extract(s, id);
  }

  lemma KeepLoad(s: State, w: WorkerId)
    requires Inv(s) && Enabled(s, Load(w))
    ensures Inv(DoLoad(s, w)) && OnlyMoves(s, DoLoad(s, w), s.workers[w].id)
  {
    var id := s.workers[w].id;
    HolderHolds(s, w, id);
    LoadStep(s, w, id);
    KeepStep(s, DoLoad(s, w), w, id);
  }

  lemma KeepSend(s: State, w: WorkerId)
    requires Inv(s) && Enabled(s, Send(w))
    ensures Inv(DoSend(s, w)) && OnlyMoves(s, DoSend(s, w), s.workers[w].id)
  {
    var id := s.workers[w].id;
    HolderHolds(s, w, id);
    SendStep(s, w, id);
    KeepStep(s, DoSend(s, w), w, id);
  }

  lemma KeepRespond(s: State, w: WorkerId, ok: bool, reason: string)
    requires Inv(s) && Enabled(s, Respond(w, ok, reason))
    ensures Inv(DoRespond(s, w, ok, reason)) && OnlyMoves(s, DoRespond(s, w, ok, reason), s.workers[w].id)
  {
    var id := s.workers[w].id;
    HolderHolds(s, w, id);
    RespondStep(s, w, id, ok, reason);
    KeepStep(s, DoRespond(s, w, ok, reason), w, id);
  }

  lemma KeepScheduleAt(s: State, w: WorkerId, next: int)
    requires Inv(s) && Enabled(s, Schedule(w))
    ensures Inv(ScheduleAt(s, w, next)) && OnlyMoves(s, ScheduleAt(s, w, next), s.workers[w].id)
  {
    var id := s.workers[w].id;
    HolderHolds(s, w, id);
    if StageOf(s, w).msg.retries == StageOf(s, w).msg.maxRetries {
      GiveUpStep(s, w, id, next);
    } else {
      BackOffStep(s, w, id, next);
    }
    KeepStep(s, ScheduleAt(s, w, next), w, id);
  }

  lemma KeepSave(s: State, w: WorkerId)
    requires Inv(s) && Enabled(s, Save(w))
    ensures Inv(DoSave(s, w)) && OnlyMoves(s, DoSave(s, w), s.workers[w].id)
  {
    var id := s.workers[w].id;
    HolderHolds(s, w, id);
    SaveStep(s, w, id);
    KeepStep(s, DoSave(s, w), w, id);
  }

  lemma KeepEnlist(s: State, w: WorkerId)
    requires Inv(s) && Enabled(s, Enlist(w))
    ensures Inv(DoEnlist(s, w)) && OnlyMoves(s, DoEnlist(s, w), s.workers[w].id)
  {
    var id := s.workers[w].id;
    HolderHolds(s, w, id);
    EnlistStep(s, w, id);
    KeepStep(s, DoEnlist(s, w), w, id);
  }

  lemma KeepExpire(s: State, w: WorkerId)
    requires Inv(s) && Enabled(s, Expire(w))
    ensures Inv(DoExpire(s, w)) && OnlyMoves(s, DoExpire(s, w), s.workers[w].id)
  {
    var id := s.workers[w].id;
    HolderHolds(s, w, id);
    ExpireStep(s, w, id);
    KeepStep(s, DoExpire(s, w), w, id);
  }

  lemma KeepCrash(s: State, w: WorkerId)
    requires Inv(s) && Enabled(s, Crash(w)) && At(s, w)
    ensures Inv(DoCrash(s, w)) && OnlyMoves(s, DoCrash(s, w), s.workers[w].id)
  {
    var id := s.workers[w].id;
    HolderHolds(s, w, id);
    CrashStep(s, w, id);
    KeepStep(s, DoCrash(s, w), w, id);
  }

  // --- every step, every run ---

  lemma KeepSchedule(s: State, w: WorkerId)
    requires Enabled(s, Schedule(w)) && Inv(s)
    ensures Inv(DoSchedule(s, w)) && OnlyMoves(s, DoSchedule(s, w), s.workers[w].id)
  {
    var next := NextAttempt(s.clock, StageOf(s, w).msg.retries + 1);
    assert DoSchedule(s, w) == ScheduleAt(s, w, next);
    KeepScheduleAt(s, w, next);
  }

  lemma KeepPublishing(s: State, a: Action)
    requires Inv(s) && Enabled(s, a)
    requires a.Publish? || a.PublishSave? || a.PublishAdd? || a.PublishCrash?
    ensures Inv(Apply(s, a)) && OnlyMoves(s, Apply(s, a), MovedId(s, a))
  {
    match a
    case Publish(id, m) => KeepPublish(s, id, m);
    case PublishSave(id) => KeepPublishSave(s, id);
    case PublishAdd(id) => KeepPublishAdd(s, id);
    case PublishCrash(id) => KeepPublishCrash(s, id);
  }

  lemma KeepLooping(s: State, a: Action)
    requires Inv(s) && Enabled(s, a)
    requires a.Start? || a.Poll? || a.Snapshot? || a.Finish?
    ensures Inv(Apply(s, a)) && OnlyMoves(s, Apply(s, a), MovedId(s, a))
  {
    match a
    case Start(w) => KeepLoop(s, w, Idle);
    case Poll(w) => KeepLoop(s, w, Polling(UnixMilli(s.clock)));
    case Snapshot(w, ids) => KeepLoop(s, w, Scanning(s.workers[w].now, ids));
    case Finish(w) => KeepLoop(s, w, Idle);
  }

  lemma KeepAttempt(s: State, a: Action)
    requires Inv(s) && Enabled(s, a)
    requires a.Load? || a.Send? || a.Respond?
    ensures Inv(Apply(s, a)) && OnlyMoves(s, Apply(s, a), MovedId(s, a))
  {
    match a
    case Load(w) => KeepLoad(s, w);
    case Send(w) => KeepSend(s, w);
    case Respond(w, ok, reason) => KeepRespond(s, w, ok, reason);
  }

  lemma KeepStoring(s: State, a: Action)
    requires Inv(s) && Enabled(s, a)
    requires a.Save? || a.Enlist? || a.Expire?
    ensures Inv(Apply(s, a)) && OnlyMoves(s, Apply(s, a), MovedId(s, a))
  {
    match a
    case Save(w) => KeepSave(s, w);
    case Enlist(w) => KeepEnlist(s, w);
    case Expire(w) => KeepExpire(s, w);
  }

  lemma KeepWorker(s: State, a: Action)
    requires Inv(s) && Enabled(s, a)
    requires a.Schedule? || a.Claim? || a.Crash?
    ensures Inv(Apply(s, a)) && OnlyMoves(s, Apply(s, a), MovedId(s, a))
  {
    if a.Schedule? {
      KeepSchedule(s, a.w);
    } else if a.Claim? {
      KeepClaim(s, a.w);
    } else if At(s, a.w) {
      KeepCrash(s, a.w);
    } else {
      KeepIdleCrash(s, a.w);
    }
  }

  lemma Keep(s: State, a: Action)
    requires Inv(s) && Enabled(s, a)
    ensures Inv(Apply(s, a)) && OnlyMoves(s, Apply(s, a), MovedId(s, a))
  {
    if a.Publish? || a.PublishSave? || a.PublishAdd? || a.PublishCrash? {
      KeepPublishing(s, a);
    } else if a.Start? || a.Poll? || a.Snapshot? || a.Finish? {
      KeepLooping(s, a);
    } else if a.Load? || a.Send? || a.Respond? {
      KeepAttempt(s, a);
    } else if a.Save? || a.Enlist? || a.Expire? {
      KeepStoring(s, a);
    } else if a.Schedule? || a.Claim? || a.Crash? {
      KeepWorker(s, a);
    } else if a.Evict? {
      KeepEvict(s, a.id);
    } else {
      KeepAdvance(s, a.dt);
    }
  }

  lemma {:induction false} KeepRun(s: State, run: seq<Action>)
    requires Inv(s) && Legal(s, run)
    ensures Inv(Final(s, run))
    decreases |run|
  {
    if run != [] {
      Keep(s, run[0]);
      KeepRun(Apply(s, run[0]), run[1..]);
    }
  }

  lemma ReachableOk(s: State)
    requires Reachable(s)
    ensures Inv(s)
  {
    var clock: int, run: seq<Action> :| Legal(Init(clock), run) && Final(Init(clock), run) == s;
    InitOk(clock);
    KeepRun(Init(clock), run);
  }
}
