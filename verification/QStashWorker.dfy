/**
 * The delivery code itself, with everybody else acting between its calls: each method is
 * shown to be a run of the transition system, in which its own steps are exactly the calls
 * it makes, in order.
 */
module QStashWorker {
  import opened Wrappers
  import opened Backoff
  import opened QStashModel
  import opened QStashSafety
  import opened QStashLiveness
  import opened QStashGuarantees

  datatype Actor = Loop(w: WorkerId) | Request(id: Id)

  /** Actions only the given loop, or the given publish request, performs. */
  predicate By(a: Action, me: Actor) {
    match a
    case Advance(_) => false
    case Evict(_) => false
    case Publish(id, _) => me == Request(id)
    case PublishSave(id) => me == Request(id)
    case PublishAdd(id) => me == Request(id)
    case PublishCrash(id) => me == Request(id)
    case Start(w) => me == Loop(w)
    case Poll(w) => me == Loop(w)
    case Snapshot(w, _) => me == Loop(w)
    case Claim(w, _) => me == Loop(w)
    case Finish(w) => me == Loop(w)
    case Load(w) => me == Loop(w)
    case Send(w) => me == Loop(w)
    case Respond(w, _, _) => me == Loop(w)
    case Schedule(w) => me == Loop(w)
    case Save(w) => me == Loop(w)
    case Enlist(w) => me == Loop(w)
    case Expire(w) => me == Loop(w)
    case Crash(w) => me == Loop(w)
  }

  function Own(run: seq<Action>, me: Actor): seq<Action> {
    if run == [] then []
    else Own(run[..|run| - 1], me) + (if By(run[|run| - 1], me) then [run[|run| - 1]] else [])
  }

  /** What others do never touches my own progress. */
  ghost predicate SameForMe(s: State, t: State, me: Actor) {
    match me
    case Loop(w) => (w in t.workers <==> w in s.workers) && (w in s.workers ==> t.workers[w] == s.workers[w])
    case Request(id) =>
      && (id in t.pubs <==> id in s.pubs) && (id in s.pubs ==> t.pubs[id] == s.pubs[id])
      && (id in t.hist <==> id in s.hist)
  }

  predicate Publishing(a: Action) {
    a.Publish? || a.PublishSave? || a.PublishAdd? || a.PublishCrash?
  }

  /** An action moves its own worker, or its own publish request, and nobody else's. */
  ghost predicate OnlyActor(s: State, t: State, a: Action) {
    && (a.Advance? || a.Evict? || Publishing(a) ==> t.workers == s.workers)
    && (!a.Advance? && !a.Evict? && !Publishing(a) ==>
          forall v :: v != a.w ==> (v in t.workers <==> v in s.workers)
                                   && (v in s.workers ==> t.workers[v] == s.workers[v]))
    && (!Publishing(a) ==> t.pubs == s.pubs)
    && (Publishing(a) ==> forall x :: x != a.id ==> (x in t.pubs <==> x in s.pubs)
                                                    && (x in s.pubs ==> t.pubs[x] == s.pubs[x]))
    && (forall x :: x in t.hist <==> x in s.hist || (a.Publish? && x == a.id))
  }

  lemma OnlyActorOutside(s: State, a: Action)
    requires Enabled(s, a) && (a.Advance? || a.Evict? || Publishing(a))
    ensures OnlyActor(s, Apply(s, a), a)
  {
  }

  lemma OnlyActorLoop(s: State, a: Action)
    requires Enabled(s, a) && (a.Start? || a.Poll? || a.Snapshot? || a.Finish?)
    ensures OnlyActor(s, Apply(s, a), a)
  {
  }

  lemma OnlyActorClaim(s: State, w: WorkerId, id: Id)
    requires Enabled(s, Claim(w, id))
    ensures OnlyActor(s, DoClaim(s, w), Claim(w, id))
  {
  }

  lemma OnlyActorCrash(s: State, w: WorkerId)
    requires Enabled(s, Crash(w))
    ensures OnlyActor(s, DoCrash(s, w), Crash(w))
  {
  }

  lemma OnlyActorLoad(s: State, w: WorkerId)
    requires Enabled(s, Load(w))
    ensures OnlyActor(s, DoLoad(s, w), Load(w))
  {
  }

  lemma OnlyActorSend(s: State, w: WorkerId)
    requires Enabled(s, Send(w))
    ensures OnlyActor(s, DoSend(s, w), Send(w))
  {
  }

  lemma OnlyActorRespond(s: State, w: WorkerId, ok: bool, reason: string)
    requires Enabled(s, Respond(w, ok, reason))
    ensures OnlyActor(s, DoRespond(s, w, ok, reason), Respond(w, ok, reason))
  {
  }

  lemma OnlyActorAttempt(s: State, a: Action)
    requires Enabled(s, a) && (a.Load? || a.Send? || a.Respond?)
    ensures OnlyActor(s, Apply(s, a), a)
  {
    if a.Load? {
      OnlyActorLoad(s, a.w);
    } else if a.Send? {
      OnlyActorSend(s, a.w);
    } else {
      OnlyActorRespond(s, a.w, a.ok, a.reason);
    }
  }

  lemma OnlyActorSchedule(s: State, w: WorkerId, next: int)
    requires Enabled(s, Schedule(w))
    ensures OnlyActor(s, ScheduleAt(s, w, next), Schedule(w))
  {
  }

  lemma OnlyActorSave(s: State, w: WorkerId)
    requires Enabled(s, Save(w))
    ensures OnlyActor(s, DoSave(s, w), Save(w))
  {
  }

  lemma OnlyActorEnlist(s: State, w: WorkerId)
    requires Enabled(s, Enlist(w))
    ensures OnlyActor(s, DoEnlist(s, w), Enlist(w))
  {
  }

  lemma OnlyActorExpire(s: State, w: WorkerId)
    requires Enabled(s, Expire(w))
    ensures OnlyActor(s, DoExpire(s, w), Expire(w))
  {
  }

  lemma OnlyActorStore(s: State, a: Action)
    requires Enabled(s, a) && (a.Save? || a.Enlist? || a.Expire?)
    ensures OnlyActor(s, Apply(s, a), a)
  {
    if a.Save? {
      OnlyActorSave(s, a.w);
    } else if a.Enlist? {
      OnlyActorEnlist(s, a.w);
    } else {
      OnlyActorExpire(s, a.w);
    }
  }

  // A message in my hands is nobody else's to write.

  ghost predicate KeepsHeld(s: State, t: State, me: Actor) {
    me.Loop? && At(s, me.w) ==>
      var id := s.workers[me.w].id;
      id in s.records && id in t.records && t.records[id] == s.records[id]
  }

  lemma LoopKeepsRecords(s: State, a: Action)
    requires Enabled(s, a) && !a.PublishSave? && !a.Evict? && !a.Save? && !a.Expire?
    requires !a.Load? && !a.Send? && !a.Respond? && !a.Schedule? && !a.Enlist?
    ensures Apply(s, a).records == s.records
  {
  }

  lemma AttemptKeepsRecords(s: State, a: Action)
    requires Enabled(s, a) && (a.Load? || a.Send? || a.Respond? || a.Enlist?)
    ensures Apply(s, a).records == s.records
  {
  }

  lemma ScheduleKeepsRecords(s: State, w: WorkerId, next: int)
    requires Enabled(s, Schedule(w))
    ensures ScheduleAt(s, w, next).records == s.records
  {
  }

  lemma RecordsKept(s: State, a: Action)
    requires Enabled(s, a) && !a.PublishSave? && !a.Evict? && !a.Save? && !a.Expire?
    ensures Apply(s, a).records == s.records
  {
    if a.Schedule? {
      ScheduleKeepsRecords(s, a.w, NextAttempt(s.clock, StageOf(s, a.w).msg.retries + 1));
    } else if a.Load? || a.Send? || a.Respond? || a.Enlist? {
      AttemptKeepsRecords(s, a);
    } else {
      LoopKeepsRecords(s, a);
    }
  }

  lemma OtherRecordKept(s: State, a: Action, id: Id)
    requires Enabled(s, a) && (a.PublishSave? || a.Evict? || a.Save? || a.Expire?) && MovedId(s, a) != id
    ensures id in Apply(s, a).records <==> id in s.records
    ensures id in s.records ==> Apply(s, a).records[id] == s.records[id]
  {
  }

  lemma HeldIsMine(s: State, a: Action, w: WorkerId)
    requires Inv(s) && At(s, w) && Enabled(s, a) && !By(a, Loop(w))
    requires a.PublishSave? || a.Evict? || a.Save? || a.Expire?
    ensures MovedId(s, a) != s.workers[w].id && s.workers[w].id in s.records
  {
    HolderHolds(s, w, s.workers[w].id);
  }

  lemma OthersKeepHeld(s: State, a: Action, me: Actor)
    requires Inv(s) && Enabled(s, a) && !By(a, me)
    ensures KeepsHeld(s, Apply(s, a), me)
  {
    if me.Loop? && At(s, me.w) {
      HolderHolds(s, me.w, s.workers[me.w].id);
      if a.PublishSave? || a.Evict? || a.Save? || a.Expire? {
        HeldIsMine(s, a, me.w);
        OtherRecordKept(s, a, s.workers[me.w].id);
      } else {
        RecordsKept(s, a);
      }
    }
  }

  lemma StartsHeld(s: State, me: Actor)
    requires Inv(s)
    ensures KeepsHeld(s, s, me)
  {
    if me.Loop? && At(s, me.w) {
      HolderHolds(s, me.w, s.workers[me.w].id);
    }
  }

  lemma OthersLeaveMe(s: State, a: Action, me: Actor)
    requires Enabled(s, a) && !By(a, me)
    ensures SameForMe(s, Apply(s, a), me)
  {
    if a.Advance? || a.Evict? || Publishing(a) {
      OnlyActorOutside(s, a);
    } else if a.Load? || a.Send? || a.Respond? {
      OnlyActorAttempt(s, a);
    } else if a.Save? || a.Enlist? || a.Expire? {
      OnlyActorStore(s, a);
    } else if a.Schedule? {
      OnlyActorSchedule(s, a.w, NextAttempt(s.clock, StageOf(s, a.w).msg.retries + 1));
    } else if a.Claim? {
      OnlyActorClaim(s, a.w, a.id);
    } else if a.Crash? {
      OnlyActorCrash(s, a.w);
    } else {
      OnlyActorLoop(s, a);
    }
  }

  // The calls of one delivery, in order: SET comes before ZADD, and before LPUSH.

  function FailCalls(w: WorkerId): seq<Action> {
    [Save(w), Enlist(w), Expire(w)]
  }

  function RetryCalls(w: WorkerId, last: bool): seq<Action> {
    [Schedule(w)] + if last then FailCalls(w) else [Save(w), Enlist(w)]
  }

  function AnswerCalls(w: WorkerId, ok: bool, reason: string, last: bool): seq<Action> {
    [Respond(w, ok, reason)] + if ok then [Save(w), Expire(w)] else RetryCalls(w, last)
  }

  /** The calls from sending the loaded message `m` on, given how its POST is answered. */
  function AttemptCalls(w: WorkerId, m: Msg, ok: bool, reason: string): seq<Action> {
    [Send(w)] + if m.urlOk then AnswerCalls(w, ok, reason, m.retries + 1 > m.maxRetries) else FailCalls(w)
  }

  function DeliverCalls(w: WorkerId, m: Msg, ok: bool, reason: string): seq<Action> {
    [Load(w)] + AttemptCalls(w, m, ok, reason)
  }

  lemma Append<T>(a: seq<T>, b: seq<T>, c: seq<T>)
    ensures (a + b) + c == a + (b + c)
  {
  }

  /** One id of a pass: the ZREM and, if it removed the id, its delivery. */
  ghost predicate Turn(calls: seq<Action>, w: WorkerId, id: Id) {
    calls == [Claim(w, id)]
    || exists m, ok, reason :: calls == [Claim(w, id)] + DeliverCalls(w, m, ok, reason)
  }

  lemma DeliveryTurn(w: WorkerId, id: Id, m: Msg, ok: bool, reason: string)
    ensures Turn([Claim(w, id)] + DeliverCalls(w, m, ok, reason), w, id)
  {
  }

  function Concat(turns: seq<seq<Action>>): seq<Action> {
    if turns == [] then [] else Concat(turns[..|turns| - 1]) + turns[|turns| - 1]
  }

  /** The record of `id`: this message, with no TTL or one. */
  predicate Stored(s: State, id: Id, m: Msg, expireAt: Option<int>) {
    id in s.records && s.records[id] == Record(m, expireAt)
  }

  /** Stored for one more hour. */
  predicate Expiring(s: State, id: Id, m: Msg) {
    Stored(s, id, m, Some(s.clock + 3_600_000_000_000))
  }

  /**
   * What a delivery of `m` has come to by `t`: the record of a message that was delivered or given up
   * has an hour left, and one that was given up is in the DLQ; any other is queued again, after a
   * back-off from a clock reading during the delivery.
   */
  ghost predicate EndsUp(s: State, t: State, id: Id, m: Msg, ok: bool, reason: string) {
    if !m.urlOk then
      Expiring(t, id, m.(phase := Failed, lastError := "invalid destination")) && id in t.dlq
    else if ok then
      Expiring(t, id, m.(phase := Delivered, lastError := ""))
    else if m.retries + 1 > m.maxRetries then
      Expiring(t, id, m.(phase := Failed, retries := m.retries + 1, lastError := reason)) && id in t.dlq
    else
      exists now :: s.clock <= now <= t.clock && RequeuedAt(t, id, m, reason, now)
  }

  predicate RequeuedAt(t: State, id: Id, m: Msg, reason: string, now: int) {
    var due := NextAttempt(now, m.retries + 1);
    && Stored(t, id, m.(phase := Retrying, retries := m.retries + 1, lastError := reason, notBefore := due), None)
    && id in t.queue && t.queue[id] == due
  }

  lemma SavedIsStored(s: State, id: Id)
    requires Inv(s) && Enabled(s, PublishAdd(id))
    ensures Stored(s, id, s.pubs[id].msg, None)
  {
    Extract(s, id);
  }

  lemma AddEffect(s: State, id: Id)
    requires Enabled(s, PublishAdd(id))
    ensures var t := DoPublishAdd(s, id);
      t.records == s.records && id in t.queue && t.queue[id] == s.pubs[id].msg.notBefore
  {
  }

  lemma ExpireFailedIsListed(s: State, w: WorkerId)
    requires Inv(s) && Enabled(s, Expire(w))
    ensures StageOf(s, w).ExpireFailed? ==> s.workers[w].id in s.dlq && DoExpire(s, w).dlq == s.dlq
  {
    HolderHolds(s, w, s.workers[w].id);
  }

  /** The record as `deliver` holds it in memory. */
  class Message {
    const destination: string
    const body: string
    const urlOk: bool
    const createdAt: int
    const maxRetries: nat
    var retries: nat
    var phase: Phase
    var notBefore: int
    var lastError: string

    constructor (m: Msg)
      ensures Value() == m
    {
      destination, body, urlOk, createdAt, maxRetries := m.destination, m.body, m.urlOk, m.createdAt, m.maxRetries;
      retries, phase, notBefore, lastError := m.retries, m.phase, m.notBefore, m.lastError;
    }

    function Value(): Msg
      reads this
    {
      Msg(destination, body, urlOk, createdAt, retries, maxRetries, phase, notBefore, lastError)
    }
  }

  /**
   * One party to the protocol: a delivery loop or a publish request, with the shared state it
   * acts on and the history of everybody's actions since it was created.
   */
  class QStash {
    const me: Actor
    ghost const start: State
    var s: State
    ghost var mine: seq<Action>

    ghost predicate Valid()
      reads this
    {
      exists run: seq<Action> :: Inv(start) && Runs(start, run, s) && Own(run, me) == mine
    }

    constructor (me: Actor, s: State)
      requires Inv(s)
      ensures Valid() && this.me == me && this.s == s && start == s && mine == []
    {
      this.me, this.s, start, mine := me, s, s, [];
      new;
      RunNothing(s);
      assert Inv(start) && Runs(start, [], s) && Own([], me) == mine;
    }

    lemma ExtendRun(a: Action)
      requires Valid() && Enabled(s, a)
      ensures exists run: seq<Action> ::
                Inv(start) && Runs(start, run, Apply(s, a))
                && Own(run, me) == if By(a, me) then mine + [a] else mine
    {
      var run: seq<Action> :| Inv(start) && Runs(start, run, s) && Own(run, me) == mine;
      RunOne(s, a, Apply(s, a));
      RunThen(start, run, s, [a], Apply(s, a));
      assert (run + [a])[..|run + [a]| - 1] == run;
      assert Runs(start, run + [a], Apply(s, a));
    }

    lemma ValidKeepsInv()
      requires Valid()
      ensures Inv(s)
    {
      var run: seq<Action> :| Inv(start) && Runs(start, run, s) && Own(run, me) == mine;
      KeepRun(start, run);
    }

    lemma ClaimedIsStored()
      requires Valid() && me.Loop? && At(s, me.w) && StageOf(s, me.w).Claimed?
      ensures s.workers[me.w].id in s.records
    {
      ValidKeepsInv();
      KeepLoad(s, me.w);
    }

    /** One atomic step of my own. */
    method Do(a: Action)
      requires Valid() && Enabled(s, a) && By(a, me)
      modifies this
      ensures Valid() && s == Apply(old(s), a) && mine == old(mine) + [a]
    {
      ExtendRun(a);
      s, mine := Apply(s, a), mine + [a];
    }

    /** Any number of steps by anybody else, and time passing. */
    method Interfere()
      requires Valid()
      modifies this
      ensures Valid() && SameForMe(old(s), s, me) && KeepsHeld(old(s), s, me)
      ensures mine == old(mine) && old(s).clock <= s.clock
    {
      ValidKeepsInv();
      StartsHeld(s, me);
      var k: int := *;
      var n := if k < 0 then 0 else k;
      for i := 0 to n
        invariant Valid() && SameForMe(old(s), s, me) && KeepsHeld(old(s), s, me)
        invariant mine == old(mine) && old(s).clock <= s.clock
      {
        var a: Action := *;
        if Enabled(s, a) && !By(a, me) {
          ValidKeepsInv();
          OthersLeaveMe(s, a, me);
          OthersKeepHeld(s, a, me);
          ClockAdvances(s, a);
          ExtendRun(a);
          s := Apply(s, a);
        }
      }
    }

    // --- single Redis calls of the delivery loop, each after an arbitrary pause ---

    /** I am inside `deliver(id)` at stage `g`. */
    ghost predicate InDeliver(id: Id, g: Stage)
      reads this
    {
      me.Loop? && At(s, me.w) && s.workers[me.w].id == id && s.workers[me.w].stage == g
    }

    /** The rest of the pass: what `processDue` has still to claim. */
    ghost function Pass(): (int, seq<Id>)
      reads this
    {
      if me.Loop? && me.w in s.workers && (s.workers[me.w].Busy? || s.workers[me.w].Scanning?)
      then (s.workers[me.w].now, s.workers[me.w].todo) else (0, [])
    }

    ghost predicate InLoop()
      reads this
    {
      me.Loop? && me.w in s.workers && s.workers[me.w].Scanning?
    }

    /** SET of a message about to be marked delivered, retrying or failed. */
    method SaveMessage(id: Id, msg: Message, g: Stage, next: Stage)
      requires Valid() && InDeliver(id, g)
      requires || (g == SaveDelivered(msg.Value()) && next == ExpireDelivered)
               || (g == SaveRetry(msg.Value()) && next == AddRetry(msg.Value()))
               || (g == SaveFailed(msg.Value()) && next == PushFailed)
      modifies this
      ensures Valid() && InDeliver(id, next) && Pass() == old(Pass())
      ensures Stored(s, id, msg.Value(), None) && old(s).clock <= s.clock
      ensures mine == old(mine) + [Save(me.w)]
    {
      Interfere();
      Do(Save(me.w));
    }

    /** ZADD qstash:queue. */
    method AddToQueue(id: Id, m: Msg)
      requires Valid() && InDeliver(id, AddRetry(m)) && Stored(s, id, m, None)
      modifies this
      ensures Valid() && InLoop() && Pass() == old(Pass())
      ensures Stored(s, id, m, None) && id in s.queue && s.queue[id] == m.notBefore && old(s).clock <= s.clock
      ensures mine == old(mine) + [Enlist(me.w)]
    {
      Interfere();
      Do(Enlist(me.w));
    }

    /** LPUSH qstash:dlq. */
    method PushToDlq(id: Id, ghost m: Msg)
      requires Valid() && InDeliver(id, PushFailed) && Stored(s, id, m, None)
      modifies this
      ensures Valid() && InDeliver(id, ExpireFailed) && Pass() == old(Pass())
      ensures Stored(s, id, m, None) && old(s).clock <= s.clock
      ensures mine == old(mine) + [Enlist(me.w)]
    {
      Interfere();
      Do(Enlist(me.w));
    }

    lemma LastCall(id: Id, g: Stage, m: Msg)
      requires Valid() && InDeliver(id, g) && (g.ExpireDelivered? || g.ExpireFailed?) && Stored(s, id, m, None)
      ensures var t := DoExpire(s, me.w);
        Expiring(t, id, m) && (g.ExpireFailed? ==> id in t.dlq) && t.clock == s.clock
    {
      ValidKeepsInv();
      ExpireLeavesAnHour(s, me.w);
      ExpireFailedIsListed(s, me.w);
    }

    /** EXPIRE of a finished message. */
    method ExpireMessage(id: Id, g: Stage, ghost m: Msg)
      requires Valid() && InDeliver(id, g) && (g.ExpireDelivered? || g.ExpireFailed?) && Stored(s, id, m, None)
      modifies this
      ensures Valid() && InLoop() && Pass() == old(Pass())
      ensures Expiring(s, id, m) && (g.ExpireFailed? ==> id in s.dlq) && old(s).clock <= s.clock
      ensures mine == old(mine) + [Expire(me.w)]
    {
      Interfere();
      LastCall(id, g, m);
      Do(Expire(me.w));
    }

    /** GET: a claimed message is always there. */
    method LoadMessage(id: Id) returns (msg: Message)
      requires Valid() && InDeliver(id, Claimed)
      modifies this
      ensures Valid() && fresh(msg) && InDeliver(id, Loaded(msg.Value())) && Pass() == old(Pass())
      ensures id in old(s).records && msg.Value() == old(s).records[id].msg && old(s).clock <= s.clock
      ensures mine == old(mine) + [Load(me.w)]
    {
      Interfere();
      ClaimedIsStored();
      msg := new Message(s.records[id].msg);
      Do(Load(me.w));
    }

    /** Sends the request, or finds that none can be built. */
    method SendRequest(id: Id, msg: Message)
      requires Valid() && InDeliver(id, Loaded(msg.Value()))
      modifies this
      ensures Valid() && Pass() == old(Pass())
      ensures msg.urlOk ==> InDeliver(id, Sent(msg.Value()))
      ensures !msg.urlOk ==>
        InDeliver(id, SaveFailed(msg.Value().(phase := Failed, lastError := INVALID_DESTINATION)))
      ensures mine == old(mine) + [Send(me.w)] && old(s).clock <= s.clock
    {
      Interfere();
      Do(Send(me.w));
    }

    /** The response, or the lack of one. */
    method AwaitResponse(id: Id, msg: Message) returns (ok: bool, reason: string)
      requires Valid() && InDeliver(id, Sent(msg.Value()))
      modifies this
      ensures Valid() && Pass() == old(Pass())
      ensures InDeliver(id, if ok then SaveDelivered(msg.Value().(phase := Delivered, lastError := ""))
                            else Rejected(msg.Value(), reason))
      ensures mine == old(mine) + [Respond(me.w, ok, reason)] && old(s).clock <= s.clock
    {
      Interfere();
      ok, reason := *, *;
      Do(Respond(me.w, ok, reason));
    }

    /** Reads the clock and decides whether another attempt is due. */
    method ReadClock(id: Id, m: Msg, reason: string) returns (now: int)
      requires Valid() && InDeliver(id, Rejected(m, reason))
      modifies this
      ensures Valid() && Pass() == old(Pass())
      ensures var r := m.(retries := m.retries + 1, lastError := reason);
              InDeliver(id, if r.retries > r.maxRetries then SaveFailed(r.(phase := Failed))
                            else SaveRetry(r.(notBefore := NextAttempt(now, r.retries), phase := Retrying)))
      ensures mine == old(mine) + [Schedule(me.w)] && old(s).clock <= now == s.clock
    {
      Interfere();
      now := s.clock;
      Do(Schedule(me.w));
    }

    // --- deliver, retry and fail ---

    method Fail(id: Id, msg: Message, reason: string)
      requires Valid() && InDeliver(id, SaveFailed(msg.Value().(phase := Failed, lastError := reason)))
      modifies this, msg
      ensures Valid() && InLoop() && Pass() == old(Pass())
      ensures Expiring(s, id, old(msg.Value()).(phase := Failed, lastError := reason)) && id in s.dlq
      ensures mine == old(mine) + FailCalls(me.w) && old(s).clock <= s.clock
    {
      msg.phase := Failed;
      msg.lastError := reason;
      ghost var m := msg.Value();
      SaveMessage(id, msg, SaveFailed(msg.Value()), PushFailed);
      PushToDlq(id, m);
      ExpireMessage(id, ExpireFailed, m);
    }

    method Retry(id: Id, msg: Message, reason: string)
      requires Valid() && InDeliver(id, Rejected(msg.Value(), reason))
      modifies this, msg
      ensures Valid() && InLoop() && Pass() == old(Pass())
      ensures msg.urlOk ==> EndsUp(old(s), s, id, old(msg.Value()), false, reason)
      ensures mine == old(mine) + RetryCalls(me.w, old(msg.retries) + 1 > msg.maxRetries)
    {
      var now := ReadClock(id, msg.Value(), reason);
      msg.retries := msg.retries + 1;
      msg.lastError := reason;
      if msg.retries > msg.maxRetries {
        Append(old(mine), [Schedule(me.w)], FailCalls(me.w));
        Fail(id, msg, reason);
      } else {
        Append(old(mine), [Schedule(me.w)], [Save(me.w), Enlist(me.w)]);
        Requeue(id, msg, now);
        assert RequeuedAt(s, id, old(msg.Value()), reason, now);
      }
    }

    /** Backs off from `now`. */
    method Requeue(id: Id, msg: Message, now: int)
      requires Valid()
      requires InDeliver(id, SaveRetry(msg.Value().(notBefore := NextAttempt(now, msg.retries), phase := Retrying)))
      modifies this, msg
      ensures Valid() && InLoop() && Pass() == old(Pass())
      ensures var due := NextAttempt(now, old(msg.retries));
        && Stored(s, id, old(msg.Value()).(notBefore := due, phase := Retrying), None)
        && id in s.queue && s.queue[id] == due
      ensures mine == old(mine) + [Save(me.w), Enlist(me.w)] && old(s).clock <= s.clock
    {
      var backoff := ComputeBackoff(msg.retries);
      msg.notBefore := UnixMilli(now + backoff);
      msg.phase := Retrying;
      SaveMessage(id, msg, SaveRetry(msg.Value()), AddRetry(msg.Value()));
      AddToQueue(id, msg.Value());
    }

    method Deliver(id: Id) returns (ghost m: Msg, ghost ok: bool, ghost reason: string)
      requires Valid() && InDeliver(id, Claimed)
      modifies this
      ensures Valid() && InLoop() && Pass() == old(Pass())
      ensures id in old(s).records && m == old(s).records[id].msg
      ensures EndsUp(old(s), s, id, m, ok, reason)
      ensures mine == old(mine) + DeliverCalls(me.w, m, ok, reason)
    {
      var msg := LoadMessage(id);
      m := msg.Value();
      ok, reason := Attempt(id, msg);
      Append(old(mine), [Load(me.w)], AttemptCalls(me.w, m, ok, reason));
    }

    method Attempt(id: Id, msg: Message) returns (ghost ok: bool, ghost reason: string)
      requires Valid() && InDeliver(id, Loaded(msg.Value()))
      modifies this, msg
      ensures Valid() && InLoop() && Pass() == old(Pass())
      ensures EndsUp(old(s), s, id, old(msg.Value()), ok, reason)
      ensures mine == old(mine) + AttemptCalls(me.w, old(msg.Value()), ok, reason)
    {
      ok, reason := false, "";
      SendRequest(id, msg);
      if !msg.urlOk {
        Fail(id, msg, INVALID_DESTINATION);
        Append(old(mine), [Send(me.w)], FailCalls(me.w));
      } else {
        ok, reason := Conclude(id, msg);
        Append(old(mine), [Send(me.w)], AnswerCalls(me.w, ok, reason, old(msg.retries) + 1 > msg.maxRetries));
      }
    }

    /** Waits for the response and acts on it. */
    method Conclude(id: Id, msg: Message) returns (ghost ok: bool, ghost reason: string)
      requires Valid() && InDeliver(id, Sent(msg.Value())) && msg.urlOk
      modifies this, msg
      ensures Valid() && InLoop() && Pass() == old(Pass())
      ensures EndsUp(old(s), s, id, old(msg.Value()), ok, reason)
      ensures mine == old(mine) + AnswerCalls(me.w, ok, reason, old(msg.retries) + 1 > msg.maxRetries)
    {
      var success, why := AwaitResponse(id, msg);
      ok, reason := success, why;
      if success {
        MarkDelivered(id, msg);
      } else {
        Retry(id, msg, why);
      }
    }

    method MarkDelivered(id: Id, msg: Message)
      requires Valid() && InDeliver(id, SaveDelivered(msg.Value().(phase := Delivered, lastError := "")))
      modifies this, msg
      ensures Valid() && InLoop() && Pass() == old(Pass())
      ensures Expiring(s, id, old(msg.Value()).(phase := Delivered, lastError := ""))
      ensures mine == old(mine) + [Save(me.w), Expire(me.w)]
    {
      msg.phase := Delivered;
      msg.lastError := "";
      SaveMessage(id, msg, SaveDelivered(msg.Value()), ExpireDelivered);
      ExpireMessage(id, ExpireDelivered, msg.Value());
    }

    // --- one pass over the queue ---

    /** ZREM; the answer says whether I got it. */
    method ClaimNext(id: Id) returns (removed: bool)
      requires Valid() && InLoop() && Pass().1 != [] && Pass().1[0] == id
      modifies this
      ensures Valid() && Pass() == (old(Pass()).0, old(Pass()).1[1..])
      ensures if removed then InDeliver(id, Claimed) else InLoop()
      ensures mine == old(mine) + [Claim(me.w, id)]
    {
      Interfere();
      removed := id in s.queue;
      Do(Claim(me.w, id));
    }

    /** Reads the clock, then ZRANGEBYSCORE from 0 to that time. */
    method ReadDue() returns (ids: seq<Id>)
      requires Valid() && me.Loop? && me.w in s.workers && s.workers[me.w].Idle?
      modifies this
      ensures Valid() && InLoop() && Pass().1 == ids
      ensures mine == old(mine) + [Poll(me.w), Snapshot(me.w, ids)]
    {
      Interfere();
      Do(Poll(me.w));
      Interfere();
      ghost var answer := SnapshotExists(s, s.workers[me.w].now);
      ids :| SnapshotOk(s, s.workers[me.w].now, ids);
      Do(Snapshot(me.w, ids));
    }

    method Handle(id: Id) returns (ghost calls: seq<Action>)
      requires Valid() && InLoop() && Pass().1 != [] && Pass().1[0] == id
      modifies this
      ensures Valid() && InLoop() && Pass().1 == old(Pass()).1[1..]
      ensures mine == old(mine) + calls && Turn(calls, me.w, id)
    {
      calls := [Claim(me.w, id)];
      var removed := ClaimNext(id);
      if removed {
        ghost var m, ok, reason := Deliver(id);
        Append(old(mine), calls, DeliverCalls(me.w, m, ok, reason));
        DeliveryTurn(me.w, id, m, ok, reason);
        calls := calls + DeliverCalls(me.w, m, ok, reason);
      }
    }

    /** The loop of `processDue`: one turn per listed id, in the order of the snapshot. */
    method HandleAll(due: seq<Id>) returns (ghost turns: seq<seq<Action>>)
      requires Valid() && InLoop() && Pass().1 == due
      modifies this
      ensures Valid() && InLoop() && Pass().1 == []
      ensures |turns| == |due| && forall i :: 0 <= i < |turns| ==> Turn(turns[i], me.w, due[i])
      ensures mine == old(mine) + Concat(turns)
    {
      turns := [];
      for i := 0 to |due|
        invariant Valid() && InLoop() && Pass().1 == due[i..]
        invariant |turns| == i && forall j :: 0 <= j < i ==> Turn(turns[j], me.w, due[j])
        invariant mine == old(mine) + Concat(turns)
      {
        ghost var calls := Handle(due[i]);
        assert (turns + [calls])[..i] == turns;
        Append(old(mine), Concat(turns), calls);
        turns := turns + [calls];
      }
    }

    method ProcessDue() returns (ghost ids: seq<Id>, ghost turns: seq<seq<Action>>)
      requires Valid() && me.Loop? && me.w in s.workers && s.workers[me.w].Idle?
      modifies this
      ensures Valid() && me.w in s.workers && s.workers[me.w].Idle?
      ensures |turns| == |ids| && forall i :: 0 <= i < |turns| ==> Turn(turns[i], me.w, ids[i])
      ensures mine == old(mine) + [Poll(me.w), Snapshot(me.w, ids)] + Concat(turns) + [Finish(me.w)]
    {
      var due := ReadDue();
      ids := due;
      turns := HandleAll(due);
      Interfere();
      Do(Finish(me.w));
    }

    // --- publishing ---

    ghost predicate InPublish(p: Publisher)
      reads this
    {
      me.Request? && me.id in s.pubs && s.pubs[me.id] == p
    }

    lemma AddCall(m: Msg)
      requires Valid() && InPublish(PubAdd(m))
      ensures var t := DoPublishAdd(s, me.id);
        Stored(t, me.id, m, None) && me.id in t.queue && t.queue[me.id] == m.notBefore
    {
      ValidKeepsInv();
      SavedIsStored(s, me.id);
      AddEffect(s, me.id);
    }

    /** SET of the new record, then ZADD. */
    method StoreAndQueue(m: Msg)
      requires Valid() && InPublish(PubSave(m))
      modifies this
      ensures Valid() && mine == old(mine) + [PublishSave(me.id), PublishAdd(me.id)]
      ensures Stored(s, me.id, m, None) && me.id in s.queue && s.queue[me.id] == m.notBefore
      ensures old(s).clock <= s.clock
    {
      Interfere();
      Do(PublishSave(me.id));
      Interfere();
      AddCall(m);
      Do(PublishAdd(me.id));
    }

    /**
     * `destination` is decoded and trimmed, `delay` and `retries` are the parsed headers, and
     * `parses` says for which destinations a request can be built.
     */
    method HandlePublish(destination: string, body: string, delay: int, retries: Option<int>, parses: string -> bool)
      returns (r: Result<Id, string>, ghost m: Msg, ghost now: int)
      requires Valid() && me.Request? && me.id !in s.hist
      modifies this
      ensures Valid()
      ensures r.Ok? <==> ("http://" <= destination || "https://" <= destination)
      ensures r.Err? ==>
        s == old(s) && mine == old(mine) && r.error == "ERR destination must be an absolute http(s) URL"
      ensures r.Ok? ==>
        && m == Msg(destination, body, parses(destination), UnixMilli(now), 0, m.maxRetries, Queued,
                    UnixMilli(now + delay), "")
        && m.maxRetries == (if retries.Some? && retries.value >= 0 then retries.value else 3)
        && old(s).clock <= now <= s.clock
      ensures r.Ok? ==> r.value == me.id
                        && mine == old(mine) + [Publish(me.id, m), PublishSave(me.id), PublishAdd(me.id)]
                        && Stored(s, me.id, m, None) && me.id in s.queue && s.queue[me.id] == m.notBefore
    {
      m, now := Msg("", "", true, 0, 0, 0, Queued, 0, ""), 0;
      if destination == "" || !("http://" <= destination || "https://" <= destination) {
        return Err("ERR destination must be an absolute http(s) URL"), m, now;
      }
      var maxRetries: nat := 3;
      if retries.Some? && retries.value >= 0 {
        maxRetries := retries.value;
      }
      Interfere();
      var clock := s.clock;
      var msg := Msg(destination, body, parses(destination), UnixMilli(clock), 0, maxRetries, Queued,
                     UnixMilli(clock + delay), "");
      Do(Publish(me.id, msg));
      StoreAndQueue(msg);
      Append(old(mine), [Publish(me.id, msg)], [PublishSave(me.id), PublishAdd(me.id)]);
      r, m, now := Ok(me.id), msg, clock;
    }
  }
}
