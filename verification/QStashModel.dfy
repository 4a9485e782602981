/**
 * The QStash delivery protocol as a transition system. One action is one call to Redis,
 * one end of a POST, one clock reading or one fault, so that every interleaving of any
 * number of publishers and workers is a sequence of actions.
 */
module QStashModel {
  import opened Wrappers
  import opened Backoff

  type Id = nat
  type WorkerId = nat

  datatype Phase = Queued | Retrying | Delivered | Failed

  /** The stored message; `body` stands for body and headers, `urlOk` for "a request can be built". */
  datatype Msg = Msg(destination: string, body: string, urlOk: bool, createdAt: int, retries: nat, maxRetries: nat,
                     phase: Phase, notBefore: int, lastError: string)

  datatype Record = Record(msg: Msg, expireAt: Option<int>)

  datatype Outcome = Pending | Success | Failure

  /** One POST: when it was sent, the NotBefore it was sent under, what came back, and why it failed. */
  datatype Post = Post(start: int, due: int, outcome: Outcome, error: string)

  /** Where a worker is inside `deliver`, with its copy of the message. */
  datatype Stage =
    | Claimed                             // next: GET the record
    | Loaded(msg: Msg)                    // next: build and send the POST
    | Sent(msg: Msg)                      // next: the response arrives
    | Rejected(msg: Msg, reason: string)  // next: read the clock and schedule
    | SaveDelivered(msg: Msg)             // next: SET
    | ExpireDelivered                     // next: EXPIRE
    | SaveRetry(msg: Msg)                 // next: SET
    | AddRetry(msg: Msg)                  // next: ZADD
    | SaveFailed(msg: Msg)                // next: SET
    | PushFailed                          // next: LPUSH
    | ExpireFailed                        // next: EXPIRE

  datatype Worker =
    | Idle
    | Polling(now: int)                                             // next: ZRANGEBYSCORE 0 now
    | Scanning(now: int, todo: seq<Id>)                             // next: ZREM todo[0]
    | Busy(now: int, todo: seq<Id>, id: Id, stage: Stage)           // inside deliver(id)

  datatype Publisher = PubSave(msg: Msg) | PubAdd(msg: Msg)

  /** History: where a published id is. */
  datatype Place = Publishing | InQueue | HeldBy(w: WorkerId) | Done | Dead | Lost | Dropped

  /** History of one published id: what was published, its POSTs, how often it was claimed, where it is. */
  datatype History = History(born: Msg, posts: seq<Post>, claims: nat, place: Place)

  /**
   * `records`, `queue` and `dlq` are the Redis keys qstash:msg:*, qstash:queue and qstash:dlq.
   * From `hist` on, the fields are history: they decide no step, except that a published id is new.
   */
  datatype State = State(
    clock: int,
    records: map<Id, Record>,
    queue: map<Id, int>,
    dlq: seq<Id>,
    pubs: map<Id, Publisher>,
    workers: map<WorkerId, Worker>,
    hist: map<Id, History>,
    issued: seq<Id>,
    crashes: nat)

  datatype Action =
    | Advance(dt: nat)                            // time passes
    | Evict(id: Id)                               // a TTL runs out
    | Publish(id: Id, msg: Msg)                   // handleQStashPublish builds the message
    | PublishSave(id: Id)                         // ... SET
    | PublishAdd(id: Id)                          // ... ZADD
    | PublishCrash(id: Id)
    | Start(w: WorkerId)
    | Poll(w: WorkerId)                           // processDue reads the clock
    | Snapshot(w: WorkerId, ids: seq<Id>)         // ... ZRANGEBYSCORE
    | Claim(w: WorkerId, id: Id)                  // ... ZREM of the next id
    | Finish(w: WorkerId)                         // ... end of the loop
    | Load(w: WorkerId)                           // deliver: GET
    | Send(w: WorkerId)                           // deliver: the POST leaves, or cannot be built
    | Respond(w: WorkerId, ok: bool, reason: string)
    | Schedule(w: WorkerId)                       // retry: count, then back off or give up
    | Save(w: WorkerId)                           // SET
    | Enlist(w: WorkerId)                         // ZADD or LPUSH
    | Expire(w: WorkerId)                         // EXPIRE
    | Crash(w: WorkerId)

  const DELIVERED_TTL: int := 3600 * SECOND

  function Init(clock: int): State {
    State(clock, map[], map[], [], map[], map[], map[], [], 0)
  }

  // --- Redis primitives ---

  function SetRecord(s: State, id: Id, m: Msg): State {
    s.(records := s.records[id := Record(m, None)])
  }

  /** EXPIRE does nothing to a missing key. */
  function ExpireRecord(s: State, id: Id): State {
    if id in s.records
    then s.(records := s.records[id := s.records[id].(expireAt := Some(s.clock + DELIVERED_TTL))])
    else s
  }

  predicate NoDuplicates<T(==)>(q: seq<T>) {
    forall i, j :: 0 <= i < j < |q| ==> q[i] != q[j]
  }

  /** What ZRANGEBYSCORE qstash:queue 0 now may answer: the due ids by ascending score. */
  predicate SnapshotOk(s: State, now: int, ids: seq<Id>) {
    && NoDuplicates(ids)
    && (forall id <- ids :: id in s.queue && 0 <= s.queue[id] <= now)
    && (forall id <- s.queue :: 0 <= s.queue[id] <= now ==> id in ids)
    && (forall i, j :: 0 <= i < j < |ids| ==> s.queue[ids[i]] <= s.queue[ids[j]])
  }

  // --- history ---

  function SetPlace(s: State, id: Id, p: Place): State {
    if id in s.hist then s.(hist := s.hist[id := s.hist[id].(place := p)]) else s
  }

  function CountClaim(s: State, id: Id): State {
    if id in s.hist then s.(hist := s.hist[id := s.hist[id].(claims := s.hist[id].claims + 1)]) else s
  }

  function LogSent(s: State, id: Id, due: int): State {
    if id in s.hist
    then s.(hist := s.hist[id := s.hist[id].(posts := s.hist[id].posts + [Post(s.clock, due, Pending, "")])])
    else s
  }

  /** The response to the last POST. */
  function Resolve(ps: seq<Post>, o: Outcome, error: string): seq<Post> {
    if ps == [] then ps else ps[|ps| - 1 := ps[|ps| - 1].(outcome := o, error := error)]
  }

  function LogResponse(s: State, id: Id, o: Outcome, error: string): State {
    if id in s.hist then s.(hist := s.hist[id := s.hist[id].(posts := Resolve(s.hist[id].posts, o, error))]) else s
  }

  // --- enabledness ---

  predicate NewMsgOk(m: Msg) {
    m.retries == 0 && m.phase == Queued && m.lastError == ""
  }

  predicate At(s: State, w: WorkerId) {
    w in s.workers && s.workers[w].Busy?
  }

  function StageOf(s: State, w: WorkerId): Stage
    requires At(s, w)
  {
    s.workers[w].stage
  }

  predicate CanClaim(s: State, w: WorkerId) {
    w in s.workers && s.workers[w].Scanning? && s.workers[w].todo != []
  }

  predicate Enabled(s: State, a: Action) {
    match a
    case Advance(dt) => true
    case Evict(id) => id in s.records && s.records[id].expireAt.Some? && s.records[id].expireAt.value <= s.clock
    case Publish(id, msg) => id !in s.hist && NewMsgOk(msg)
    case PublishSave(id) => id in s.pubs && s.pubs[id].PubSave?
    case PublishAdd(id) => id in s.pubs && s.pubs[id].PubAdd?
    case PublishCrash(id) => id in s.pubs
    case Start(w) => w !in s.workers
    case Poll(w) => w in s.workers && s.workers[w].Idle?
    case Snapshot(w, ids) => w in s.workers && s.workers[w].Polling? && SnapshotOk(s, s.workers[w].now, ids)
    case Claim(w, id) => CanClaim(s, w) && s.workers[w].todo[0] == id
    case Finish(w) => w in s.workers && s.workers[w].Scanning? && s.workers[w].todo == []
    case Load(w) => At(s, w) && StageOf(s, w).Claimed?
    case Send(w) => At(s, w) && StageOf(s, w).Loaded?
    case Respond(w, ok, reason) => At(s, w) && StageOf(s, w).Sent?
    case Schedule(w) => At(s, w) && StageOf(s, w).Rejected?
    case Save(w) =>
      At(s, w) && (StageOf(s, w).SaveDelivered? || StageOf(s, w).SaveRetry? || StageOf(s, w).SaveFailed?)
    case Enlist(w) => At(s, w) && (StageOf(s, w).AddRetry? || StageOf(s, w).PushFailed?)
    case Expire(w) => At(s, w) && (StageOf(s, w).ExpireDelivered? || StageOf(s, w).ExpireFailed?)
    case Crash(w) => w in s.workers
  }

  // --- effects ---

  function DoPublish(s: State, id: Id, m: Msg): State {
    s.(pubs := s.pubs[id := PubSave(m)],
       hist := s.hist[id := History(m, [], 0, Publishing)],
       issued := s.issued + [id])
  }

  function DoPublishSave(s: State, id: Id): State
    requires Enabled(s, PublishSave(id))
  {
    SetRecord(s, id, s.pubs[id].msg).(pubs := s.pubs[id := PubAdd(s.pubs[id].msg)])
  }

  function DoPublishAdd(s: State, id: Id): State
    requires Enabled(s, PublishAdd(id))
  {
    SetPlace(s.(queue := s.queue[id := s.pubs[id].msg.notBefore], pubs := s.pubs - {id}), id, InQueue)
  }

  function DoPublishCrash(s: State, id: Id): State {
    SetPlace(s.(pubs := s.pubs - {id}, crashes := s.crashes + 1), id, Lost)
  }

  function SetWorker(s: State, w: WorkerId, wk: Worker): State {
    s.(workers := s.workers[w := wk])
  }

  function SetStage(s: State, w: WorkerId, g: Stage): State
    requires At(s, w)
  {
    SetWorker(s, w, s.workers[w].(stage := g))
  }

  /** `deliver` returns to the loop of `processDue`. */
  function Release(s: State, w: WorkerId, p: Place): State
    requires At(s, w)
  {
    SetPlace(SetWorker(s, w, Scanning(s.workers[w].now, s.workers[w].todo)), s.workers[w].id, p)
  }

  function DoClaim(s: State, w: WorkerId): State
    requires CanClaim(s, w)
  {
    var wk := s.workers[w];
    var id, rest := wk.todo[0], wk.todo[1..];
    if id in s.queue then
      var busy := SetWorker(s, w, Busy(wk.now, rest, id, Claimed));
      SetPlace(CountClaim(busy.(queue := s.queue - {id}), id), id, HeldBy(w))
    else
      SetWorker(s, w, Scanning(wk.now, rest))
  }

  function DoLoad(s: State, w: WorkerId): State
    requires Enabled(s, Load(w))
  {
    var id := s.workers[w].id;
    if id in s.records then SetStage(s, w, Loaded(s.records[id].msg)) else Release(s, w, Dropped)
  }

  const INVALID_DESTINATION: string := "invalid destination"

  function DoSend(s: State, w: WorkerId): State
    requires Enabled(s, Send(w))
  {
    var id, m := s.workers[w].id, StageOf(s, w).msg;
    if !m.urlOk then
      SetStage(s, w, SaveFailed(m.(phase := Failed, lastError := INVALID_DESTINATION)))
    else
      LogSent(SetStage(s, w, Sent(m)), id, m.notBefore)
  }

  function DoRespond(s: State, w: WorkerId, ok: bool, reason: string): State
    requires Enabled(s, Respond(w, ok, reason))
  {
    var id, m := s.workers[w].id, StageOf(s, w).msg;
    var next := if ok then SaveDelivered(m.(phase := Delivered, lastError := "")) else Rejected(m, reason);
    LogResponse(SetStage(s, w, next), id, if ok then Success else Failure, if ok then "" else reason)
  }

  /** `retry`, with the next due time already computed. */
  function ScheduleAt(s: State, w: WorkerId, next: int): State
    requires Enabled(s, Schedule(w))
  {
    var m := StageOf(s, w).msg.(retries := StageOf(s, w).msg.retries + 1, lastError := StageOf(s, w).reason);
    if m.retries > m.maxRetries then
      SetStage(s, w, SaveFailed(m.(phase := Failed)))
    else
      SetStage(s, w, SaveRetry(m.(notBefore := next, phase := Retrying)))
  }

  function DoSchedule(s: State, w: WorkerId): State
    requires Enabled(s, Schedule(w))
  {
    ScheduleAt(s, w, NextAttempt(s.clock, StageOf(s, w).msg.retries + 1))
  }

  function DoSave(s: State, w: WorkerId): State
    requires Enabled(s, Save(w))
  {
    var id, g := s.workers[w].id, StageOf(s, w);
    var next :=
      match g
      case SaveDelivered(_) => ExpireDelivered
      case SaveRetry(m) => AddRetry(m)
      case _ => PushFailed;
    SetStage(SetRecord(s, id, g.msg), w, next)
  }

  function DoEnlist(s: State, w: WorkerId): State
    requires Enabled(s, Enlist(w))
  {
    var id, g := s.workers[w].id, StageOf(s, w);
    if g.AddRetry? then
      Release(s.(queue := s.queue[id := g.msg.notBefore]), w, InQueue)
    else
      SetStage(s.(dlq := [id] + s.dlq), w, ExpireFailed)
  }

  function DoExpire(s: State, w: WorkerId): State
    requires Enabled(s, Expire(w))
  {
    Release(ExpireRecord(s, s.workers[w].id), w, if StageOf(s, w).ExpireDelivered? then Done else Dead)
  }

  /** What a crash leaves behind depends on whether the final SET has happened. */
  function PlaceAfterCrash(g: Stage): Place {
    match g
    case ExpireDelivered => Done
    case PushFailed => Dead
    case ExpireFailed => Dead
    case _ => Lost
  }

  function DoCrash(s: State, w: WorkerId): State
    requires Enabled(s, Crash(w))
  {
    var gone := s.(workers := s.workers - {w}, crashes := s.crashes + 1);
    if s.workers[w].Busy?
    then SetPlace(gone, s.workers[w].id, PlaceAfterCrash(s.workers[w].stage))
    else gone
  }

  function Apply(s: State, a: Action): State
    requires Enabled(s, a)
  {
    match a
    case Advance(dt) => s.(clock := s.clock + dt)
    case Evict(id) => s.(records := s.records - {id})
    case Publish(id, msg) => DoPublish(s, id, msg)
    case PublishSave(id) => DoPublishSave(s, id)
    case PublishAdd(id) => DoPublishAdd(s, id)
    case PublishCrash(id) => DoPublishCrash(s, id)
    case Start(w) => SetWorker(s, w, Idle)
    case Poll(w) => SetWorker(s, w, Polling(UnixMilli(s.clock)))
    case Snapshot(w, ids) => SetWorker(s, w, Scanning(s.workers[w].now, ids))
    case Claim(w, _) => DoClaim(s, w)
    case Finish(w) => SetWorker(s, w, Idle)
    case Load(w) => DoLoad(s, w)
    case Send(w) => DoSend(s, w)
    case Respond(w, ok, reason) => DoRespond(s, w, ok, reason)
    case Schedule(w) => DoSchedule(s, w)
    case Save(w) => DoSave(s, w)
    case Enlist(w) => DoEnlist(s, w)
    case Expire(w) => DoExpire(s, w)
    case Crash(w) => DoCrash(s, w)
  }

  // --- runs ---

  ghost predicate Legal(s: State, run: seq<Action>)
    decreases |run|
  {
    run == [] || (Enabled(s, run[0]) && Legal(Apply(s, run[0]), run[1..]))
  }

  ghost function Final(s: State, run: seq<Action>): State
    requires Legal(s, run)
    decreases |run|
  {
    if run == [] then s else Final(Apply(s, run[0]), run[1..])
  }

  /** A state some interleaving reaches from an empty Redis. */
  ghost predicate Reachable(s: State) {
    exists clock: int, run: seq<Action> :: Legal(Init(clock), run) && Final(Init(clock), run) == s
  }

  lemma {:induction false} RunsCompose(s: State, run: seq<Action>, more: seq<Action>)
    requires Legal(s, run) && Legal(Final(s, run), more)
    ensures Legal(s, run + more) && Final(s, run + more) == Final(Final(s, run), more)
    decreases |run|
  {
    if run == [] {
      assert run + more == more;
    } else {
      RunsCompose(Apply(s, run[0]), run[1..], more);
      assert (run + more)[0] == run[0] && (run + more)[1..] == run[1..] + more;
    }
  }
}
