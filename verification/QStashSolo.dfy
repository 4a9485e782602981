/**
 * One delivery loop at a time, as the server starts it: no POST is early, attempts keep
 * their distance, and what the overflowing back-off does to a message with many retries.
 */
module QStashSolo {
  import opened GoInt
  import opened Backoff
  import opened QStashModel
  import opened QStashSafety
  import opened QStashTiming

  ghost predicate Solo(s: State) {
    forall v, w :: v in s.workers && w in s.workers ==> v == w
  }

  ghost predicate SoloRun(s: State, run: seq<Action>)
    decreases |run|
  {
    Solo(s) && (run == [] || (Enabled(s, run[0]) && SoloRun(Apply(s, run[0]), run[1..])))
  }

  lemma {:induction false} SoloRunIsLegal(s: State, run: seq<Action>)
    requires SoloRun(s, run)
    ensures Legal(s, run)
    decreases |run|
  {
    if run != [] {
      SoloRunIsLegal(Apply(s, run[0]), run[1..]);
    }
  }

  ghost predicate SoloReachable(s: State) {
    exists clock: int, run: seq<Action> ::
      SoloRun(Init(clock), run) && Legal(Init(clock), run) && Final(Init(clock), run) == s
  }

  lemma WorkersOnlyLeave(s: State, a: Action)
    requires Enabled(s, a) && !a.Start?
    ensures forall w :: w in Apply(s, a).workers ==> w in s.workers
  {
  }

  // --- the rest of a pass ---

  /** Ids still to be claimed in this pass: each queued, due, once, in score order. */
  ghost predicate PassOk(queue: map<Id, int>, now: int, todo: seq<Id>) {
    && NoDuplicates(todo)
    && (forall id :: id in todo ==> id in queue && 0 <= queue[id] <= now)
    && (forall i, j :: 0 <= i < j < |todo| ==> todo[i] in queue && todo[j] in queue && queue[todo[i]] <= queue[todo[j]])
  }

  ghost predicate WorkerPrompt(queue: map<Id, int>, clock: int, wk: Worker) {
    match wk
    case Idle => true
    case Polling(now) => now <= UnixMilli(clock)
    case Scanning(now, todo) => now <= UnixMilli(clock) && PassOk(queue, now, todo)
    case Busy(now, todo, _, _) => now <= UnixMilli(clock) && PassOk(queue, now, todo)
  }

  /** No POST was sent before its due time, nor will the one being prepared be. */
  ghost predicate Prompt(v: View) {
    && (forall k :: 0 <= k < |v.posts| ==> 0 <= v.posts[k].due <= UnixMilli(v.posts[k].start))
    && (v.place.HeldBy? && v.holder.Some? && v.holder.value.Busy? ==>
          var now := v.holder.value.now;
          match v.holder.value.stage
          case Claimed => v.record.Some? ==> 0 <= v.record.value.msg.notBefore <= now
          case Loaded(m) => 0 <= m.notBefore <= now
          case _ => true)
  }

  ghost predicate LoopPrompt(s: State) {
    forall w :: w in s.workers ==> WorkerPrompt(s.queue, s.clock, s.workers[w])
  }

  ghost predicate AllPrompt(s: State) {
    forall id :: id in s.hist ==> Prompt(ViewOf(s, id))
  }

  ghost predicate SoloInv(s: State) {
    Inv(s) && Solo(s) && LoopPrompt(s) && AllPrompt(s)
  }

  lemma PassAfterClaim(queue: map<Id, int>, now: int, todo: seq<Id>)
    requires PassOk(queue, now, todo) && todo != []
    ensures todo[0] in queue && PassOk(queue - {todo[0]}, now, todo[1..])
  {
    forall id | id in todo[1..] ensures id in queue - {todo[0]} {
      assert id in todo;
    }
  }

  lemma PassWhileAdding(queue: map<Id, int>, now: int, todo: seq<Id>, id: Id, score: int)
    requires PassOk(queue, now, todo) && id !in queue
    ensures PassOk(queue[id := score], now, todo)
  {
  }

  lemma UnixMilliMonotonic(a: int, b: int)
    requires a <= b
    ensures UnixMilli(a) <= UnixMilli(b)
  {
  }

  lemma LoopEnlist(s: State, w: WorkerId)
    requires LoopPrompt(s) && Solo(s) && Enabled(s, Enlist(w)) && s.workers[w].id !in s.queue
    ensures LoopPrompt(DoEnlist(s, w))
  {
    var wk := s.workers[w];
    if wk.stage.AddRetry? {
      PassWhileAdding(s.queue, wk.now, wk.todo, wk.id, wk.stage.msg.notBefore);
    } else {
      assert WorkerPrompt(s.queue, s.clock, wk);
    }
  }

  lemma LoopPublishAdd(s: State, id: Id)
    requires LoopPrompt(s) && Enabled(s, PublishAdd(id)) && id !in s.queue
    ensures LoopPrompt(DoPublishAdd(s, id))
  {
    forall w | w in s.workers ensures WorkerPrompt(DoPublishAdd(s, id).queue, s.clock, s.workers[w]) {
      assert WorkerPrompt(s.queue, s.clock, s.workers[w]);
      if s.workers[w].Scanning? || s.workers[w].Busy? {
        PassWhileAdding(s.queue, s.workers[w].now, s.workers[w].todo, id, s.pubs[id].msg.notBefore);
      }
    }
  }

  /** With a single loop every claim succeeds: nothing in its snapshot was taken by anyone else. */
  lemma LoopClaim(s: State, w: WorkerId)
    requires LoopPrompt(s) && Solo(s) && CanClaim(s, w)
    ensures LoopPrompt(DoClaim(s, w)) && s.workers[w].todo[0] in s.queue
    ensures 0 <= s.queue[s.workers[w].todo[0]] <= s.workers[w].now
  {
    PassAfterClaim(s.queue, s.workers[w].now, s.workers[w].todo);
  }

  lemma LoopTick(s: State, a: Action)
    requires LoopPrompt(s) && Enabled(s, a)
    requires a.Advance? || a.Evict? || a.Publish? || a.PublishSave? || a.PublishCrash? || a.Start? || a.Finish?
             || a.Poll? || a.Snapshot? || a.Crash?
    ensures LoopPrompt(Apply(s, a))
  {
    var t := Apply(s, a);
    UnixMilliMonotonic(s.clock, t.clock);
    forall w | w in t.workers ensures WorkerPrompt(t.queue, t.clock, t.workers[w]) {
      if w in s.workers {
        assert WorkerPrompt(s.queue, s.clock, s.workers[w]);
      }
    }
  }

  lemma LoopInside(s: State, a: Action)
    requires LoopPrompt(s) && Enabled(s, a)
    requires a.Load? || a.Send? || a.Respond? || a.Schedule? || a.Save? || a.Expire?
    ensures LoopPrompt(Apply(s, a))
  {
    var w, t := a.w, Apply(s, a);
    if a.Schedule? {
      ScheduleKeepsPass(s, w, NextAttempt(s.clock, StageOf(s, w).msg.retries + 1));
    } else if a.Save? || a.Expire? {
      StoreKeepsPass(s, a);
    } else {
      AttemptKeepsPass(s, a);
    }
    forall v | v in t.workers ensures WorkerPrompt(t.queue, t.clock, t.workers[v]) {
      assert WorkerPrompt(s.queue, s.clock, s.workers[v]);
    }
  }

  /** The pass of worker `w`, its queue and the clock are as before. */
  ghost predicate SamePass(s: State, t: State, w: WorkerId) {
    && t.queue == s.queue && t.clock == s.clock
    && w in s.workers && w in t.workers && t.workers == s.workers[w := t.workers[w]]
    && s.workers[w].Busy? && (t.workers[w].Busy? || t.workers[w].Scanning?)
    && t.workers[w].now == s.workers[w].now && t.workers[w].todo == s.workers[w].todo
  }

  lemma LoadKeepsPass(s: State, w: WorkerId)
    requires Enabled(s, Load(w))
    ensures SamePass(s, DoLoad(s, w), w)
  {
  }

  lemma SendKeepsPass(s: State, w: WorkerId)
    requires Enabled(s, Send(w))
    ensures SamePass(s, DoSend(s, w), w)
  {
  }

  lemma RespondKeepsPass(s: State, w: WorkerId, ok: bool, reason: string)
    requires Enabled(s, Respond(w, ok, reason))
    ensures SamePass(s, DoRespond(s, w, ok, reason), w)
  {
  }

  lemma AttemptKeepsPass(s: State, a: Action)
    requires Enabled(s, a) && (a.Load? || a.Send? || a.Respond?)
    ensures SamePass(s, Apply(s, a), a.w)
  {
    if a.Load? {
      LoadKeepsPass(s, a.w);
    } else if a.Send? {
      SendKeepsPass(s, a.w);
    } else {
      RespondKeepsPass(s, a.w, a.ok, a.reason);
    }
  }

  lemma ScheduleKeepsPass(s: State, w: WorkerId, next: int)
    requires Enabled(s, Schedule(w))
    ensures SamePass(s, ScheduleAt(s, w, next), w)
  {
  }

  lemma StoreKeepsPass(s: State, a: Action)
    requires Enabled(s, a) && (a.Save? || a.Expire?)
    ensures SamePass(s, Apply(s, a), a.w)
  {
  }

  lemma LoopKeep(s: State, a: Action)
    requires Inv(s) && LoopPrompt(s) && Solo(s) && Enabled(s, a)
    ensures LoopPrompt(Apply(s, a))
  {
    if a.Claim? {
      LoopClaim(s, a.w);
    } else if a.Enlist? {
      HolderHolds(s, a.w, s.workers[a.w].id);
      LoopEnlist(s, a.w);
    } else if a.PublishAdd? {
      LoopPublishAdd(s, a.id);
    } else if a.Load? || a.Send? || a.Respond? || a.Schedule? || a.Save? || a.Expire? {
      LoopInside(s, a);
    } else {
      LoopTick(s, a);
    }
  }

  // --- no POST is early ---

  lemma PromptElsewhere(s: State, a: Action)
    requires Inv(s) && AllPrompt(s) && Enabled(s, a)
    requires MovedId(s, a) in Apply(s, a).hist ==> Prompt(ViewOf(Apply(s, a), MovedId(s, a)))
    ensures AllPrompt(Apply(s, a))
  {
    var t := Apply(s, a);
    Keep(s, a);
    forall x | x in t.hist ensures Prompt(ViewOf(t, x)) {
      if x != MovedId(s, a) {
        assert ViewOf(t, x) == ViewOf(s, x);
      }
    }
  }

  /** The log is the same and no attempt has come closer. */
  ghost predicate Quieter(v: View, n: View) {
    n.posts == v.posts && !(n.place.HeldBy? && n.holder.Some? && n.holder.value.Busy?
                            && (n.holder.value.stage.Claimed? || n.holder.value.stage.Loaded?))
  }

  lemma PromptClaim(s: State, w: WorkerId)
    requires Inv(s) && SoloInv(s) && CanClaim(s, w)
    ensures Prompt(ViewOf(DoClaim(s, w), s.workers[w].todo[0]))
  {
    var id := s.workers[w].todo[0];
    LoopClaim(s, w);
    Extract(s, id);
    assert Prompt(ViewOf(s, id));
  }

  lemma PromptLoad(s: State, w: WorkerId, id: Id)
    requires Enabled(s, Load(w)) && Holds(s, w, id) && Prompt(ViewOf(s, id))
    ensures Prompt(ViewOf(DoLoad(s, w), id))
  {
  }

  lemma PromptSend(s: State, w: WorkerId, id: Id)
    requires Enabled(s, Send(w)) && Holds(s, w, id) && Prompt(ViewOf(s, id))
    requires s.workers[w].now <= UnixMilli(s.clock)
    ensures Prompt(ViewOf(DoSend(s, w), id))
  {
  }

  lemma PromptRespond(s: State, w: WorkerId, id: Id, ok: bool, reason: string)
    requires Enabled(s, Respond(w, ok, reason)) && Holds(s, w, id) && Prompt(ViewOf(s, id))
    ensures Prompt(ViewOf(DoRespond(s, w, ok, reason), id))
  {
    var ps, qs := s.hist[id].posts, DoRespond(s, w, ok, reason).hist[id].posts;
    assert |qs| == |ps| && forall i :: 0 <= i < |ps| ==> qs[i].start == ps[i].start && qs[i].due == ps[i].due;
  }

  lemma PromptAfterResponse(s: State, a: Action, w: WorkerId, id: Id)
    requires Enabled(s, a) && Holds(s, w, id) && Prompt(ViewOf(s, id))
    requires a == Schedule(w) || a == Save(w) || a == Enlist(w) || a == Expire(w) || a == Crash(w)
    ensures id in Apply(s, a).hist && Prompt(ViewOf(Apply(s, a), id))
  {
    var t := Apply(s, a);
    assert id in t.hist && Quieter(ViewOf(s, id), ViewOf(t, id));
  }

  lemma PromptUnmoved(s: State, t: State)
    requires AllPrompt(s) && NothingMoved(s, t)
    ensures AllPrompt(t)
  {
    forall x | x in t.hist ensures Prompt(ViewOf(t, x)) {
      assert ViewOf(t, x) == ViewOf(s, x);
    }
  }

  lemma PromptOutside(s: State, a: Action)
    requires Inv(s) && AllPrompt(s) && Enabled(s, a)
    requires a.Advance? || a.Start? || a.Poll? || a.Snapshot? || a.Finish? || (a.Crash? && !At(s, a.w))
    ensures AllPrompt(Apply(s, a))
  {
    if a.Advance? {
      KeepAdvance(s, a.dt);
    } else if a.Crash? {
      KeepIdleCrash(s, a.w);
    } else {
      LoopStepsAreNotBusy(s, a);
      KeepLoop(s, a.w, Apply(s, a).workers[a.w]);
    }
    PromptUnmoved(s, Apply(s, a));
  }

  lemma LoopStepsAreNotBusy(s: State, a: Action)
    requires Enabled(s, a) && (a.Start? || a.Poll? || a.Snapshot? || a.Finish?)
    ensures a.w in Apply(s, a).workers && !Apply(s, a).workers[a.w].Busy? && !At(s, a.w)
    ensures Apply(s, a) == SetWorker(s, a.w, Apply(s, a).workers[a.w])
  {
  }

  lemma PromptPublisher(s: State, a: Action)
    requires Inv(s) && AllPrompt(s) && Enabled(s, a)
    requires a.PublishSave? || a.PublishAdd? || a.PublishCrash?
    ensures AllPrompt(Apply(s, a))
  {
    Extract(s, a.id);
    PromptElsewhere(s, a);
  }

  lemma PromptEvict(s: State, a: Action)
    requires Inv(s) && AllPrompt(s) && Enabled(s, a) && a.Evict?
    ensures AllPrompt(Apply(s, a))
  {
    Extract(s, a.id);
    assert Prompt(ViewOf(s, a.id));
    PromptElsewhere(s, a);
  }

  lemma PromptAfterLoad(s: State, w: WorkerId)
    requires Inv(s) && LoopPrompt(s) && AllPrompt(s) && Enabled(s, Load(w))
    ensures AllPrompt(Apply(s, Load(w)))
  {
    var id := s.workers[w].id;
    HolderHolds(s, w, id);
    assert Prompt(ViewOf(s, id)) && WorkerPrompt(s.queue, s.clock, s.workers[w]);
    PromptLoad(s, w, id);
    PromptElsewhere(s, Load(w));
  }

  lemma PromptAfterSend(s: State, w: WorkerId)
    requires Inv(s) && LoopPrompt(s) && AllPrompt(s) && Enabled(s, Send(w))
    ensures AllPrompt(Apply(s, Send(w)))
  {
    var id := s.workers[w].id;
    HolderHolds(s, w, id);
    assert Prompt(ViewOf(s, id)) && WorkerPrompt(s.queue, s.clock, s.workers[w]);
    PromptSend(s, w, id);
    PromptElsewhere(s, Send(w));
  }

  lemma PromptAfterReply(s: State, w: WorkerId, ok: bool, reason: string)
    requires Inv(s) && LoopPrompt(s) && AllPrompt(s) && Enabled(s, Respond(w, ok, reason))
    ensures AllPrompt(Apply(s, Respond(w, ok, reason)))
  {
    var id := s.workers[w].id;
    HolderHolds(s, w, id);
    assert Prompt(ViewOf(s, id)) && WorkerPrompt(s.queue, s.clock, s.workers[w]);
    PromptRespond(s, w, id, ok, reason);
    PromptElsewhere(s, Respond(w, ok, reason));
  }

  lemma PromptAttempt(s: State, a: Action)
    requires Inv(s) && LoopPrompt(s) && AllPrompt(s) && Enabled(s, a) && (a.Load? || a.Send? || a.Respond?)
    ensures AllPrompt(Apply(s, a))
  {
    if a.Load? {
      PromptAfterLoad(s, a.w);
    } else if a.Send? {
      PromptAfterSend(s, a.w);
    } else {
      PromptAfterReply(s, a.w, a.ok, a.reason);
    }
  }

  lemma PromptSettle(s: State, a: Action)
    requires Inv(s) && AllPrompt(s) && Enabled(s, a)
    requires a.Schedule? || a.Save? || a.Enlist? || a.Expire? || (a.Crash? && At(s, a.w))
    ensures AllPrompt(Apply(s, a))
  {
    var id := s.workers[a.w].id;
    HolderHolds(s, a.w, id);
    assert Prompt(ViewOf(s, id));
    PromptAfterResponse(s, a, a.w, id);
    PromptElsewhere(s, a);
  }

  lemma PromptKeep(s: State, a: Action)
    requires SoloInv(s) && Enabled(s, a)
    ensures AllPrompt(Apply(s, a))
  {
    if a.Publish? {
      PromptElsewhere(s, a);
    } else if a.Claim? {
      PromptClaim(s, a.w);
      PromptElsewhere(s, a);
    } else if a.Evict? {
      PromptEvict(s, a);
    } else if a.PublishSave? || a.PublishAdd? || a.PublishCrash? {
      PromptPublisher(s, a);
    } else if a.Advance? || a.Start? || a.Poll? || a.Snapshot? || a.Finish? || (a.Crash? && !At(s, a.w)) {
      PromptOutside(s, a);
    } else if a.Load? || a.Send? || a.Respond? {
      PromptAttempt(s, a);
    } else {
      PromptSettle(s, a);
    }
  }

  lemma {:induction false} SoloKeepRun(s: State, run: seq<Action>)
    requires SoloInv(s) && SoloRun(s, run) && Legal(s, run)
    ensures SoloInv(Final(s, run))
    decreases |run|
  {
    if run != [] {
      SoloKeep(s, run[0]);
      SoloKeepRun(Apply(s, run[0]), run[1..]);
    }
  }

  lemma SoloKeep(s: State, a: Action)
    requires SoloInv(s) && Enabled(s, a) && Solo(Apply(s, a))
    ensures SoloInv(Apply(s, a))
  {
    Keep(s, a);
    LoopKeep(s, a);
    PromptKeep(s, a);
  }

  lemma SoloReachableOk(s: State)
    requires SoloReachable(s)
    ensures SoloInv(s) && TimedInv(s)
  {
    var clock: int, run: seq<Action> :|
      SoloRun(Init(clock), run) && Legal(Init(clock), run) && Final(Init(clock), run) == s;
    InitOk(clock);
    SoloKeepRun(Init(clock), run);
    KeepTimedRun(Init(clock), run);
  }

  // --- the guarantees ---

  /** No POST is sent before the message's NotBefore at that moment. */
  lemma NeverEarly(s: State, id: Id, k: nat)
    requires SoloReachable(s) && id in s.hist && k < |s.hist[id].posts|
    ensures 0 <= s.hist[id].posts[k].due <= UnixMilli(s.hist[id].posts[k].start)
  {
    SoloReachableOk(s);
    assert Prompt(ViewOf(s, id));
  }

  /** So no message is POSTed before the time asked for when it was published. */
  lemma DelayIsHonoured(s: State, id: Id, k: nat)
    requires SoloReachable(s) && id in s.hist && k < |s.hist[id].posts|
    ensures UnixMilli(s.hist[id].posts[0].start) >= s.hist[id].born.notBefore >= 0
    ensures s.hist[id].posts[k].start >= s.hist[id].posts[0].start
  {
    NeverEarly(s, id, 0);
    SoloReachableOk(s);
    assert Timed(ViewOf(s, id), s.clock);
    LaterPosts(s.hist[id].posts, s.clock, k);
  }

  lemma {:induction false} LaterPosts(ps: seq<Post>, clock: int, k: nat)
    requires LogTimed(ps, clock) && k < |ps|
    ensures ps[k].start >= ps[0].start
    decreases k
  {
    if k > 0 {
      LaterPosts(ps, clock, k - 1);
      assert DueFrom(ps[k - 1].start, ps[k].start, ps[k].due, k);
    }
  }

  /** A pass handles each id of its snapshot at most once, by ascending score, and claims every one. */
  lemma PassInScoreOrder(s: State, w: WorkerId)
    requires SoloReachable(s) && w in s.workers && s.workers[w].Scanning?
    ensures NoDuplicates(s.workers[w].todo)
    ensures forall id :: id in s.workers[w].todo ==> id in s.queue && 0 <= s.queue[id] <= s.workers[w].now
    ensures forall i, j :: 0 <= i < j < |s.workers[w].todo| ==>
              s.workers[w].todo[i] in s.queue && s.workers[w].todo[j] in s.queue
              && s.queue[s.workers[w].todo[i]] <= s.queue[s.workers[w].todo[j]]
    ensures s.workers[w].now <= UnixMilli(s.clock)
  {
    PassIsOk(s, w);
  }

  lemma PassIsOk(s: State, w: WorkerId)
    requires SoloReachable(s) && w in s.workers && s.workers[w].Scanning?
    ensures PassOk(s.queue, s.workers[w].now, s.workers[w].todo) && s.workers[w].now <= UnixMilli(s.clock)
  {
    SoloReachableOk(s);
    assert WorkerPrompt(s.queue, s.clock, s.workers[w]);
  }

  lemma Gap(ps: seq<Post>, clock: int, k: nat)
    requires LogTimed(ps, clock) && 1 <= k < |ps| && k <= 33
    requires ps[k].due <= UnixMilli(ps[k].start)
    ensures UnixMilli(ps[k].start) >= UnixMilli(ps[k - 1].start) + 1000 * IntendedSeconds(k)
  {
    var lo, hi, due := ps[k - 1].start, ps[k].start, ps[k].due;
    assert DueFrom(lo, hi, due, k);
    var r: int :| lo <= r <= hi && due == NextAttempt(r, k);
    NextAttemptExact(r, k);
    UnixMilliMonotonic(lo, r);
  }

  /** Attempt `n + 1` comes at least the first `n` back-offs after the first attempt. */
  lemma {:induction false} Spacing(s: State, id: Id, n: nat)
    requires SoloReachable(s) && id in s.hist && n < |s.hist[id].posts| && n <= 33
    ensures UnixMilli(s.hist[id].posts[n].start) - UnixMilli(s.hist[id].posts[0].start) >= 1000 * TotalSeconds(n)
  {
    if n > 0 {
      Spacing(s, id, n - 1);
      SoloReachableOk(s);
      assert Timed(ViewOf(s, id), s.clock);
      NeverEarly(s, id, n);
      Gap(s.hist[id].posts, s.clock, n);
    }
  }

  /** A message in the DLQ with n retries, n <= 33, was tried for at least that long. */
  lemma DeadLetterTakes(s: State, id: Id)
    requires SoloReachable(s) && id in s.dlq && id in s.hist && s.hist[id].born.urlOk
    requires s.hist[id].born.maxRetries <= 33
    ensures var n, ps := s.hist[id].born.maxRetries, s.hist[id].posts;
            && |ps| == n + 1
            && UnixMilli(ps[n].start) - UnixMilli(ps[0].start) >= 1000 * TotalSeconds(n)
            && (n <= 5 ==> TotalSeconds(n) == Pow2(n + 1) - 2)
            && (n >= 5 ==> TotalSeconds(n) == 62 + 60 * (n - 5))
  {
    SoloReachableOk(s);
    Extract(s, id);
    Spacing(s, id, s.hist[id].born.maxRetries);
    TotalSecondsClosedForm(s.hist[id].born.maxRetries);
  }

  /**
   * Before April 2050, no message is POSTed more than 35 times: after the 35th failure the
   * overflowing back-off gives it a due time below 0, which no snapshot from 0 upwards contains.
   */
  lemma AtMost35Posts(s: State, id: Id)
    requires SoloReachable(s) && id in s.hist && s.clock < LAST_STRANDING_CLOCK
    ensures |s.hist[id].posts| <= 35
  {
    var ps := s.hist[id].posts;
    if |ps| > 35 {
      SoloReachableOk(s);
      assert Timed(ViewOf(s, id), s.clock);
      NeverEarly(s, id, 35);
      var lo, hi, due := ps[34].start, ps[35].start, ps[35].due;
      assert DueFrom(lo, hi, due, 35);
      var r: int :| lo <= r <= hi && due == NextAttempt(r, 35);
      ThirtyFifthRetryIsNegative(r);
    }
  }

  /** So a message that may be retried 35 times or more never reaches the DLQ by exhausting its retries. */
  lemma NeverDeadLettered(s: State, id: Id)
    requires SoloReachable(s) && id in s.hist && s.clock < LAST_STRANDING_CLOCK
    requires s.hist[id].born.urlOk && s.hist[id].born.maxRetries >= 35
    ensures id !in s.dlq && s.hist[id].place != Dead
  {
    AtMost35Posts(s, id);
    SoloReachableOk(s);
    Extract(s, id);
  }
}
