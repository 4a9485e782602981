/** The delivery guarantees, stated about the Redis keys, the workers and the POST log. */
module QStashGuarantees {
  import opened Wrappers
  import opened Backoff
  import opened QStashModel
  import opened QStashSafety

  // --- who has a message ---

  ghost predicate Held(s: State, id: Id) {
    exists w :: At(s, w) && s.workers[w].id == id
  }

  function Bit(b: bool): nat {
    if b then 1 else 0
  }

  /** A published id is in exactly one place, and the shared structures say which. */
  lemma ExactlyOnePlace(s: State, id: Id)
    requires Reachable(s) && id in s.hist
    ensures s.hist[id].place != Dropped
    ensures Bit(id in s.pubs) + Bit(id in s.queue) + Bit(Held(s, id)) + Bit(s.hist[id].place == Done)
            + Bit(s.hist[id].place == Dead) + Bit(s.hist[id].place == Lost) == 1
    ensures s.crashes == 0 ==> s.hist[id].place != Lost
  {
    ReachableOk(s);
    Extract(s, id);
    match s.hist[id].place {
      case HeldBy(w) => assert At(s, w) && s.workers[w].id == id;
      case _ =>
    }
  }

  /** No two workers are ever inside `deliver` with the same id, however their snapshots overlap. */
  lemma OneHolder(s: State, v: WorkerId, w: WorkerId)
    requires Reachable(s) && At(s, v) && At(s, w) && v != w
    ensures s.workers[v].id != s.workers[w].id
  {
    ReachableOk(s);
  }

  // --- what the destination sees ---

  lemma EarlierFailed(ps: seq<Post>, i: nat)
    requires LogOk(ps) && i < |ps| - 1
    ensures ps[i].outcome == Failure
  {
    assert ps[i] == ps[..|ps| - 1][i];
  }

  lemma ViewLogOk(id: Id, v: View, crashes: nat)
    requires PlaceOk(id, v, crashes)
    ensures LogOk(v.posts) && |v.posts| <= v.born.maxRetries + 1
  {
  }

  lemma LogIsOk(s: State, id: Id)
    requires Inv(s) && id in s.hist
    ensures LogOk(s.hist[id].posts) && |s.hist[id].posts| <= s.hist[id].born.maxRetries + 1
  {
    Extract(s, id);
    ViewLogOk(id, ViewOf(s, id), s.crashes);
  }

  /** At most one POST is answered with a 2xx, none follows it, and there are at most MaxRetries + 1. */
  lemma AtMostOneSuccess(s: State, id: Id)
    requires Reachable(s) && id in s.hist
    ensures |s.hist[id].posts| <= s.hist[id].born.maxRetries + 1
    ensures forall i :: 0 <= i < |s.hist[id].posts| && s.hist[id].posts[i].outcome != Failure
                        ==> i == |s.hist[id].posts| - 1
  {
    ReachableOk(s);
    LogIsOk(s, id);
    forall i | 0 <= i < |s.hist[id].posts| - 1 ensures s.hist[id].posts[i].outcome == Failure {
      EarlierFailed(s.hist[id].posts, i);
    }
  }

  /** What is POSTed is the message as published; every earlier POST of it has failed. */
  lemma SentAsPublished(s: State, w: WorkerId)
    requires Reachable(s) && At(s, w) && StageOf(s, w).Sent?
    ensures s.workers[w].id in s.hist
    ensures var m, h := StageOf(s, w).msg, s.hist[s.workers[w].id];
            && m.destination == h.born.destination && m.body == h.born.body
            && |h.posts| == m.retries + 1 && h.posts[m.retries].outcome == Pending
            && AllFailed(h.posts[..m.retries])
  {
    ReachableOk(s);
    Extract(s, s.workers[w].id);
  }

  /** How the attempts of a message that nobody is working on relate to its stored record. */
  lemma AttemptsAtRest(s: State, id: Id)
    requires Reachable(s) && id in s.hist && id in s.records && !Held(s, id) && s.hist[id].place != Lost
    ensures var n, m := |s.hist[id].posts|, s.records[id].msg;
            match m.phase
            case Queued => n == m.retries == 0 && m.lastError == ""
            case Retrying =>
              n == m.retries && 1 <= m.retries <= m.maxRetries && m.lastError == s.hist[id].posts[n - 1].error
            case Delivered => n == m.retries + 1 && s.hist[id].posts[n - 1].outcome == Success && m.lastError == ""
            case Failed =>
              if m.urlOk then n == m.maxRetries + 1 && m.lastError == s.hist[id].posts[n - 1].error
              else n == 0 && m.lastError == "invalid destination"
    ensures SameMessage(s.records[id].msg, s.hist[id].born)
  {
    ReachableOk(s);
    Extract(s, id);
    if s.hist[id].place.HeldBy? {
      assert At(s, s.hist[id].place.w);
    }
  }

  // --- what is logged ---

  /** Sending notes the time and the due time, and the answer notes why it failed, if it did. */
  lemma SendIsLogged(s: State, w: WorkerId)
    requires Inv(s) && Enabled(s, Send(w)) && StageOf(s, w).msg.urlOk
    ensures var id, t, m := s.workers[w].id, DoSend(s, w), StageOf(s, w).msg;
      && id in s.hist && id in t.hist
      && t.hist[id].posts == s.hist[id].posts + [Post(s.clock, m.notBefore, Pending, "")]
  {
    HolderHolds(s, w, s.workers[w].id);
  }

  lemma AnswerIsLogged(s: State, w: WorkerId, ok: bool, reason: string)
    requires Inv(s) && Enabled(s, Respond(w, ok, reason))
    ensures var id, t := s.workers[w].id, DoRespond(s, w, ok, reason);
      && id in s.hist && id in t.hist && s.hist[id].posts != []
      && var n, last := |s.hist[id].posts| - 1, s.hist[id].posts[|s.hist[id].posts| - 1];
         t.hist[id].posts == s.hist[id].posts[..n]
           + [Post(last.start, last.due, if ok then Success else Failure, if ok then "" else reason)]
  {
    HolderHolds(s, w, s.workers[w].id);
  }

  // --- what was published ---

  lemma BornKept(s: State, a: Action, id: Id)
    requires Inv(s) && Enabled(s, a) && id in s.hist
    ensures id in Apply(s, a).hist && Apply(s, a).hist[id].born == s.hist[id].born
  {
    if MovedId(s, a) == id && !a.Publish? {
      HistoryMoves(s, a, id);
    } else {
      Keep(s, a);
      assert ViewOf(Apply(s, a), id).born == ViewOf(s, id).born;
    }
  }

  lemma {:induction false} BornForever(s: State, run: seq<Action>, id: Id)
    requires Inv(s) && Legal(s, run) && id in s.hist
    ensures Inv(Final(s, run)) && id in Final(s, run).hist && Final(s, run).hist[id].born == s.hist[id].born
    decreases |run|
  {
    if run != [] {
      BornKept(s, run[0], id);
      Keep(s, run[0]);
      BornForever(Apply(s, run[0]), run[1..], id);
    }
  }

  lemma PublishEffect(s: State, id: Id, m: Msg)
    ensures DoPublish(s, id, m).hist == s.hist[id := History(m, [], 0, Publishing)]
  {
  }

  lemma SentIsBorn(s: State, w: WorkerId)
    requires Inv(s) && At(s, w) && StageOf(s, w).Sent?
    ensures s.workers[w].id in s.hist && SameMessage(StageOf(s, w).msg, s.hist[s.workers[w].id].born)
  {
    HolderHolds(s, w, s.workers[w].id);
  }

  /** Whenever a message is POSTed after it was published, it goes to the destination asked for, with its body. */
  lemma PostedAsPublished(s: State, id: Id, m: Msg, run: seq<Action>, w: WorkerId)
    requires Inv(s) && Enabled(s, Publish(id, m)) && Legal(Apply(s, Publish(id, m)), run)
    requires var t := Final(Apply(s, Publish(id, m)), run);
      At(t, w) && t.workers[w].id == id && StageOf(t, w).Sent?
    ensures var t := Final(Apply(s, Publish(id, m)), run);
      && StageOf(t, w).msg.destination == m.destination && StageOf(t, w).msg.body == m.body
      && StageOf(t, w).msg.maxRetries == m.maxRetries && StageOf(t, w).msg.createdAt == m.createdAt
      && id in t.hist && t.hist[id].born == m
  {
    PublishEffect(s, id, m);
    KeepPublish(s, id, m);
    BornForever(Apply(s, Publish(id, m)), run, id);
    SentIsBorn(Final(Apply(s, Publish(id, m)), run), w);
  }

  // --- the store ---

  /** A claimed id can always be loaded: the early return after a failed GET is never taken. */
  lemma ClaimedCanBeLoaded(s: State, w: WorkerId)
    requires Reachable(s) && At(s, w) && StageOf(s, w).Claimed?
    ensures s.workers[w].id in s.records && s.records[s.workers[w].id].expireAt == None
  {
    ReachableOk(s);
    Extract(s, s.workers[w].id);
  }

  lemma QueuedHasRecord(s: State, id: Id)
    requires Reachable(s) && id in s.queue
    ensures id in s.records && s.records[id].expireAt == None
    ensures s.queue[id] == s.records[id].msg.notBefore
    ensures s.records[id].msg.phase == Queued || s.records[id].msg.phase == Retrying
  {
    ReachableOk(s);
    Extract(s, id);
  }

  /** Only finished messages are ever given a TTL. */
  lemma OnlyFinishedExpire(s: State, id: Id)
    requires Reachable(s) && id in s.records && s.records[id].expireAt.Some?
    ensures s.records[id].msg.phase == Delivered || s.records[id].msg.phase == Failed
    ensures !Held(s, id) && id !in s.queue
  {
    ReachableOk(s);
    Extract(s, id);
  }

  const HOUR: int := 3_600_000_000_000 // in nanoseconds

  lemma HeldIsStored(s: State, w: WorkerId)
    requires Inv(s) && At(s, w)
    ensures s.workers[w].id in s.records && s.records[s.workers[w].id].expireAt == None
  {
    HolderHolds(s, w, s.workers[w].id);
  }

  /** The EXPIRE that ends a delivery or gives a message up leaves its record an hour. */
  lemma ExpireLeavesAnHour(s: State, w: WorkerId)
    requires Inv(s) && Enabled(s, Expire(w))
    ensures var id, t := s.workers[w].id, DoExpire(s, w);
      && id in s.records && id in t.records && t.clock == s.clock
      && t.records[id] == Record(s.records[id].msg, Some(s.clock + HOUR))
  {
    HeldIsStored(s, w);
    ExpireEffect(s, w);
  }

  lemma ExpireEffect(s: State, w: WorkerId)
    requires Enabled(s, Expire(w)) && s.workers[w].id in s.records
    ensures var id, t := s.workers[w].id, DoExpire(s, w);
      id in t.records && t.clock == s.clock && t.records[id] == Record(s.records[id].msg, Some(s.clock + HOUR))
  {
  }

  /** ... and when the hour is over, the record can go, and then it is gone. */
  lemma ExpiredCanGo(s: State, id: Id)
    requires id in s.records && s.records[id].expireAt.Some?
    ensures Enabled(s, Evict(id)) <==> s.clock >= s.records[id].expireAt.value
    ensures Enabled(s, Evict(id)) ==> Apply(s, Evict(id)).records == s.records - {id}
  {
  }

  lemma ListedView(id: Id, v: View, crashes: nat)
    requires PlaceOk(id, v, crashes) && v.inDlq
    ensures v.place == Dead || v.place.HeldBy?
    ensures AllFailed(v.posts) && |v.posts| == if v.born.urlOk then v.born.maxRetries + 1 else 0
    ensures v.record.Some? ==>
      && v.record.value.msg.phase == Failed
      && v.record.value.msg.lastError ==
           if v.born.urlOk then v.posts[v.born.maxRetries].error else "invalid destination"
  {
  }

  /** The DLQ: no id twice, and each one used up its attempts; its record says so until it expires. */
  lemma DlqIntegrity(s: State, id: Id)
    requires Reachable(s) && id in s.dlq
    ensures NoDuplicates(s.dlq) && id in s.hist
    ensures AllFailed(s.hist[id].posts)
    ensures |s.hist[id].posts| == if s.hist[id].born.urlOk then s.hist[id].born.maxRetries + 1 else 0
    ensures id in s.records ==>
      && s.records[id].msg.phase == Failed
      && s.records[id].msg.lastError ==
           if s.hist[id].born.urlOk then s.hist[id].posts[s.hist[id].born.maxRetries].error else "invalid destination"
    ensures id !in s.queue && id !in s.pubs
  {
    ReachableOk(s);
    Extract(s, id);
    ListedView(id, ViewOf(s, id), s.crashes);
  }

  ghost predicate EndsIn(f: seq<Id>, q: seq<Id>) {
    |q| <= |f| && f[|f| - |q|..] == q
  }

  lemma EndsInTwice(f: seq<Id>, t: seq<Id>, q: seq<Id>)
    requires EndsIn(f, t) && EndsIn(t, q)
    ensures EndsIn(f, q)
  {
    assert f[|f| - |q|..] == f[|f| - |t|..][|t| - |q|..];
  }

  lemma DlqStep(s: State, a: Action)
    requires Enabled(s, a)
    ensures EndsIn(Apply(s, a).dlq, s.dlq)
  {
    if a.Enlist? && !StageOf(s, a.w).AddRetry? {
      assert Apply(s, a).dlq == [s.workers[a.w].id] + s.dlq;
    }
  }

  /** LPUSH only ever adds at the head: older entries keep their order for ever. */
  lemma {:induction false} DlqGrowsAtTheHead(s: State, run: seq<Action>)
    requires Legal(s, run)
    ensures EndsIn(Final(s, run).dlq, s.dlq)
    decreases |run|
  {
    if run != [] {
      DlqStep(s, run[0]);
      DlqGrowsAtTheHead(Apply(s, run[0]), run[1..]);
      EndsInTwice(Final(s, run).dlq, Apply(s, run[0]).dlq, s.dlq);
    }
  }

  // --- time ---

  lemma DeliveryTakesNoTime(s: State, a: Action)
    requires Enabled(s, a) && (a.Load? || a.Send? || a.Respond? || a.Save? || a.Enlist? || a.Expire?)
    ensures Apply(s, a).clock == s.clock
  {
  }

  lemma SchedulingTakesNoTime(s: State, w: WorkerId, next: int)
    requires Enabled(s, Schedule(w))
    ensures ScheduleAt(s, w, next).clock == s.clock
  {
  }

  lemma OnlyTimePasses(s: State, a: Action)
    requires Enabled(s, a) && !a.Schedule?
    requires !a.Load? && !a.Send? && !a.Respond? && !a.Save? && !a.Enlist? && !a.Expire?
    ensures s.clock <= Apply(s, a).clock
  {
  }

  lemma ClockAdvances(s: State, a: Action)
    requires Enabled(s, a)
    ensures s.clock <= Apply(s, a).clock
  {
    if a.Schedule? {
      SchedulingTakesNoTime(s, a.w, NextAttempt(s.clock, StageOf(s, a.w).msg.retries + 1));
    } else if a.Load? || a.Send? || a.Respond? || a.Save? || a.Enlist? || a.Expire? {
      DeliveryTakesNoTime(s, a);
    } else {
      OnlyTimePasses(s, a);
    }
  }

  // --- how much work there can be ---

  /** Claims still available to the messages listed in `q`. */
  function Fuel(q: seq<Id>, hist: map<Id, History>): int {
    if q == [] then 0
    else
      (if q[0] in hist then hist[q[0]].born.maxRetries + 1 - hist[q[0]].claims else 0) + Fuel(q[1..], hist)
  }

  lemma {:induction false} FuelUpdate(q: seq<Id>, hist: map<Id, History>, id: Id, h: History)
    requires NoDuplicates(q) && id in hist && h.born == hist[id].born
    ensures Fuel(q, hist[id := h]) == Fuel(q, hist) - (if id in q then h.claims - hist[id].claims else 0)
  {
    if q != [] {
      assert NoDuplicates(q[1..]);
      FuelUpdate(q[1..], hist, id, h);
      assert id in q <==> id == q[0] || id in q[1..];
    }
  }

  lemma {:induction false} FuelAppend(q: seq<Id>, hist: map<Id, History>, id: Id, h: History)
    requires id !in q && id !in hist
    ensures Fuel(q + [id], hist[id := h]) == Fuel(q, hist) + h.born.maxRetries + 1 - h.claims
  {
    if q == [] {
      assert q + [id] == [id] && [id][1..] == [];
    } else {
      assert (q + [id])[1..] == q[1..] + [id];
      FuelAppend(q[1..], hist, id, h);
    }
  }

  lemma {:induction false} FuelNonNegative(q: seq<Id>, hist: map<Id, History>)
    requires forall id :: id in q && id in hist ==> hist[id].claims <= hist[id].born.maxRetries + 1
    ensures Fuel(q, hist) >= 0
  {
    if q != [] {
      FuelNonNegative(q[1..], hist);
    }
  }

  /** What a single action does to the fuel: a claim burns one unit, publishing adds MaxRetries + 1. */
  function Burn(s: State, a: Action): int
    requires Enabled(s, a)
  {
    match a
    case Publish(_, m) => -(m.maxRetries + 1)
    case Claim(_, id) => if id in s.queue then 1 else 0
    case _ => 0
  }

  lemma FuelFalls(s: State, a: Action)
    requires Inv(s) && Enabled(s, a)
    ensures Fuel(Apply(s, a).issued, Apply(s, a).hist) == Fuel(s.issued, s.hist) - Burn(s, a)
  {
    var t := Apply(s, a);
    if a.Publish? {
      FuelAppend(s.issued, s.hist, a.id, t.hist[a.id]);
    } else {
      var id := MovedId(s, a);
      if id in s.hist {
        HistoryMoves(s, a, id);
        FuelUpdate(s.issued, s.hist, id, t.hist[id]);
      }
    }
  }

  lemma HistoryMoves(s: State, a: Action, id: Id)
    requires Enabled(s, a) && !a.Publish? && id == MovedId(s, a) && id in s.hist
    ensures id in Apply(s, a).hist && Apply(s, a).issued == s.issued
    ensures Apply(s, a).hist == s.hist[id := Apply(s, a).hist[id]]
    ensures Apply(s, a).hist[id].born == s.hist[id].born
    ensures Apply(s, a).hist[id].claims == s.hist[id].claims + Burn(s, a)
  {
    assert s.hist == s.hist[id := s.hist[id]];
  }

  /** Number of deliveries started in a run, and the number its publications allow. */
  ghost function Delivers(s: State, run: seq<Action>): nat
    requires Legal(s, run)
    decreases |run|
  {
    if run == [] then 0
    else (if run[0].Claim? && Burn(s, run[0]) == 1 then 1 else 0) + Delivers(Apply(s, run[0]), run[1..])
  }

  function Allowed(run: seq<Action>): nat {
    if run == [] then 0
    else (if run[0].Publish? then run[0].msg.maxRetries + 1 else 0) + Allowed(run[1..])
  }

  lemma {:induction false} FuelAccounts(s: State, run: seq<Action>)
    requires Inv(s) && Legal(s, run)
    ensures Fuel(Final(s, run).issued, Final(s, run).hist) == Fuel(s.issued, s.hist) + Allowed(run) - Delivers(s, run)
    decreases |run|
  {
    if run != [] {
      FuelFalls(s, run[0]);
      Keep(s, run[0]);
      FuelAccounts(Apply(s, run[0]), run[1..]);
    }
  }

  lemma ClaimsBounded(s: State, id: Id)
    requires Inv(s) && id in s.hist
    ensures s.hist[id].claims <= s.hist[id].born.maxRetries + 1
  {
    Extract(s, id);
  }

  /** Any run starts at most one delivery per published message and permitted attempt. */
  lemma DeliveriesAreBounded(clock: int, run: seq<Action>)
    requires Legal(Init(clock), run)
    ensures Delivers(Init(clock), run) <= Allowed(run)
  {
    InitOk(clock);
    FuelAccounts(Init(clock), run);
    KeepRun(Init(clock), run);
    var s := Final(Init(clock), run);
    forall id | id in s.issued && id in s.hist ensures s.hist[id].claims <= s.hist[id].born.maxRetries + 1 {
      ClaimsBounded(s, id);
    }
    FuelNonNegative(s.issued, s.hist);
  }
}
