/**
 * What can still happen: a started delivery can always be completed, and a message queued with a
 * negative score stays where it is.
 */
module QStashLiveness {
  import opened Wrappers
  import opened Backoff
  import opened QStashModel
  import opened QStashSafety

  ghost predicate Runs(s: State, run: seq<Action>, t: State) {
    Legal(s, run) && Final(s, run) == t
  }

  lemma RunNothing(s: State)
    ensures Runs(s, [], s)
  {
  }

  lemma RunFirst(s: State, a: Action, run: seq<Action>, t: State)
    requires Enabled(s, a) && Runs(Apply(s, a), run, t)
    ensures Runs(s, [a] + run, t)
  {
    assert ([a] + run)[0] == a && ([a] + run)[1..] == run;
  }

  lemma RunOne(s: State, a: Action, t: State)
    requires Enabled(s, a) && t == Apply(s, a)
    ensures Runs(s, [a], t)
  {
    RunNothing(t);
    RunFirst(s, a, [], t);
    assert [a] + [] == [a];
  }

  lemma RunThen(s: State, run: seq<Action>, t: State, more: seq<Action>, u: State)
    requires Runs(s, run, t) && Runs(t, more, u)
    ensures Runs(s, run + more, u)
  {
    RunsCompose(s, run, more);
  }

  lemma RunTwo(s: State, a: Action, t: State, b: Action, u: State)
    requires Runs(s, [a], t) && Runs(t, [b], u)
    ensures Runs(s, [a, b], u)
  {
    RunThen(s, [a], t, [b], u);
    assert [a] + [b] == [a, b];
  }

  lemma RunThree(s: State, a: Action, t: State, b: Action, u: State, c: Action, v: State)
    requires Runs(s, [a], t) && Runs(t, [b], u) && Runs(u, [c], v)
    ensures Runs(s, [a, b, c], v)
  {
    RunTwo(t, b, u, c, v);
    RunThen(s, [a], t, [b, c], v);
    assert [a] + [b, c] == [a, b, c];
  }

  // --- completing a delivery ---

  /** How a delivery ends, for a destination that answers every POST the same way. */
  datatype Fate = Delivers | GivesUp | Requeues(due: int)

  function AfterFailure(m: Msg, clock: int): Fate {
    if m.retries + 1 > m.maxRetries then GivesUp else Requeues(NextAttempt(clock, m.retries + 1))
  }

  function AfterPost(m: Msg, clock: int, ok: bool): Fate {
    if ok then Delivers else AfterFailure(m, clock)
  }

  function FateOf(g: Stage, rec: Option<Record>, clock: int, ok: bool): Fate {
    match g
    case Claimed =>
      if rec.None? || !rec.value.msg.urlOk then GivesUp else AfterPost(rec.value.msg, clock, ok)
    case Loaded(m) => if m.urlOk then AfterPost(m, clock, ok) else GivesUp
    case Sent(m) => AfterPost(m, clock, ok)
    case Rejected(m, _) => AfterFailure(m, clock)
    case SaveDelivered(_) => Delivers
    case ExpireDelivered => Delivers
    case SaveRetry(m) => Requeues(m.notBefore)
    case AddRetry(m) => Requeues(m.notBefore)
    case SaveFailed(_) => GivesUp
    case PushFailed => GivesUp
    case ExpireFailed => GivesUp
  }

  function StepsLeft(g: Stage): nat {
    match g
    case Claimed => 7
    case Loaded(_) => 6
    case Sent(_) => 5
    case Rejected(_, _) => 4
    case SaveDelivered(_) => 3
    case SaveRetry(_) => 3
    case SaveFailed(_) => 3
    case PushFailed => 2
    case AddRetry(_) => 1
    case ExpireDelivered => 1
    case ExpireFailed => 1
  }

  function NextAction(w: WorkerId, g: Stage, ok: bool): Action {
    match g
    case Claimed => Load(w)
    case Loaded(_) => Send(w)
    case Sent(_) => Respond(w, ok, "")
    case Rejected(_, _) => Schedule(w)
    case SaveDelivered(_) => Save(w)
    case ExpireDelivered => Expire(w)
    case SaveRetry(_) => Save(w)
    case AddRetry(_) => Enlist(w)
    case SaveFailed(_) => Save(w)
    case PushFailed => Enlist(w)
    case ExpireFailed => Expire(w)
  }

  /** Worker `w`'s own progress: everybody else, the clock and the publishers stay put. */
  ghost predicate Alone(s: State, t: State, w: WorkerId, id: Id) {
    && t.clock == s.clock && t.pubs == s.pubs && t.crashes == s.crashes
    && w in t.workers && t.workers == s.workers[w := t.workers[w]]
    && (forall x :: x != id ==> (x in t.queue <==> x in s.queue) && (x in s.queue ==> t.queue[x] == s.queue[x]))
    && (forall x :: x in s.hist ==> x in t.hist)
    && (forall x :: x in s.hist && x in t.hist && x != id ==> t.hist[x] == s.hist[x])
    && (id in s.hist && id in t.hist ==> t.hist[id].claims == s.hist[id].claims && t.hist[id].born == s.hist[id].born)
  }

  /** One step of `deliver`: either it goes on with fewer steps left, or it has ended as foretold. */
  ghost predicate Advances(s: State, t: State, w: WorkerId, id: Id, ok: bool)
    requires At(s, w)
  {
    var wk := s.workers[w];
    var fate := FateOf(wk.stage, Lookup(s.records, id), s.clock, ok);
    && Alone(s, t, w, id)
    && (if At(t, w) then
          && t.workers[w].id == id && t.workers[w].now == wk.now && t.workers[w].todo == wk.todo
          && StepsLeft(t.workers[w].stage) < StepsLeft(wk.stage)
          && FateOf(t.workers[w].stage, Lookup(t.records, id), t.clock, ok) == fate
          && (id in t.queue <==> id in s.queue)
        else
          t.workers[w] == Scanning(wk.now, wk.todo) && Ended(s, t, id, fate))
  }

  ghost predicate Ended(s: State, t: State, id: Id, fate: Fate) {
    && id in t.hist
    && match fate
       case Delivers => t.hist[id].place == Done && id !in t.queue
       case GivesUp => t.hist[id].place == Dead && id in t.dlq && id !in t.queue
       case Requeues(due) => t.hist[id].place == InQueue && id in t.queue && t.queue[id] == due
  }

  lemma LoadAdvances(s: State, w: WorkerId, id: Id, ok: bool)
    requires Holds(s, w, id) && s.workers[w].stage.Claimed?
    ensures Advances(s, DoLoad(s, w), w, id, ok)
  {
  }

  lemma SendAdvances(s: State, w: WorkerId, id: Id, ok: bool)
    requires Holds(s, w, id) && s.workers[w].stage.Loaded?
    ensures Advances(s, DoSend(s, w), w, id, ok)
  {
    SendAlone(s, w, id);
  }

  lemma SendAlone(s: State, w: WorkerId, id: Id)
    requires Enabled(s, Send(w)) && s.workers[w].id == id
    ensures Alone(s, DoSend(s, w), w, id)
  {
  }

  lemma RespondAdvances(s: State, w: WorkerId, id: Id, ok: bool)
    requires Holds(s, w, id) && s.workers[w].stage.Sent?
    ensures Advances(s, DoRespond(s, w, ok, ""), w, id, ok)
  {
  }

  lemma ScheduleAdvances(s: State, w: WorkerId, id: Id, ok: bool)
    requires Holds(s, w, id) && s.workers[w].stage.Rejected?
    ensures Advances(s, DoSchedule(s, w), w, id, ok)
  {
    ScheduleAtAdvances(s, w, id, ok, NextAttempt(s.clock, s.workers[w].stage.msg.retries + 1));
  }

  lemma ScheduleAtAdvances(s: State, w: WorkerId, id: Id, ok: bool, next: int)
    requires Holds(s, w, id) && s.workers[w].stage.Rejected?
    requires next == NextAttempt(s.clock, s.workers[w].stage.msg.retries + 1)
    ensures Advances(s, ScheduleAt(s, w, next), w, id, ok)
  {
    ScheduleAlone(s, w, id, next);
  }

  lemma ScheduleAlone(s: State, w: WorkerId, id: Id, next: int)
    requires Enabled(s, Schedule(w)) && s.workers[w].id == id
    ensures Alone(s, ScheduleAt(s, w, next), w, id)
  {
  }

  lemma SaveAdvances(s: State, w: WorkerId, id: Id, ok: bool)
    requires Holds(s, w, id) && Enabled(s, Save(w))
    ensures Advances(s, DoSave(s, w), w, id, ok)
  {
  }

  lemma EnlistAdvances(s: State, w: WorkerId, id: Id, ok: bool)
    requires Holds(s, w, id) && Enabled(s, Enlist(w))
    ensures Advances(s, DoEnlist(s, w), w, id, ok)
  {
  }

  lemma ExpireAdvances(s: State, w: WorkerId, id: Id, ok: bool)
    requires Holds(s, w, id) && Enabled(s, Expire(w))
    ensures Advances(s, DoExpire(s, w), w, id, ok)
  {
  }

  lemma AttemptAdvances(s: State, w: WorkerId, id: Id, ok: bool)
    requires Holds(s, w, id) && StepsLeft(s.workers[w].stage) >= 4
    ensures Enabled(s, NextAction(w, s.workers[w].stage, ok))
    ensures Advances(s, Apply(s, NextAction(w, s.workers[w].stage, ok)), w, id, ok)
  {
    match s.workers[w].stage
    case Claimed => LoadAdvances(s, w, id, ok);
    case Loaded(_) => SendAdvances(s, w, id, ok);
    case Sent(_) => RespondAdvances(s, w, id, ok);
    case Rejected(_, _) => ScheduleAdvances(s, w, id, ok);
  }

  lemma StoreAdvances(s: State, w: WorkerId, id: Id, ok: bool)
    requires Holds(s, w, id) && StepsLeft(s.workers[w].stage) < 4
    ensures Enabled(s, NextAction(w, s.workers[w].stage, ok))
    ensures Advances(s, Apply(s, NextAction(w, s.workers[w].stage, ok)), w, id, ok)
  {
    var g := s.workers[w].stage;
    if StepsLeft(g) == 3 {
      SaveAdvances(s, w, id, ok);
    } else if g.AddRetry? || g.PushFailed? {
      EnlistAdvances(s, w, id, ok);
    } else {
      ExpireAdvances(s, w, id, ok);
    }
  }

  lemma StepAdvances(s: State, w: WorkerId, id: Id, ok: bool)
    requires Holds(s, w, id)
    ensures Enabled(s, NextAction(w, s.workers[w].stage, ok))
    ensures Advances(s, Apply(s, NextAction(w, s.workers[w].stage, ok)), w, id, ok)
  {
    if StepsLeft(s.workers[w].stage) >= 4 {
      AttemptAdvances(s, w, id, ok);
    } else {
      StoreAdvances(s, w, id, ok);
    }
  }

  lemma AloneTwice(s: State, t: State, u: State, w: WorkerId, id: Id)
    requires Alone(s, t, w, id) && Alone(t, u, w, id) && w in s.workers
    ensures Alone(s, u, w, id)
  {
  }

  /** Neither a fault nor another delivery loop. */
  predicate Plain(a: Action) {
    !a.Start? && !a.Crash? && !a.PublishCrash?
  }

  lemma StepOnce(s: State, w: WorkerId, id: Id, ok: bool) returns (a: Action, t: State)
    requires Inv(s) && At(s, w) && s.workers[w].id == id
    ensures Runs(s, [a], t) && Inv(t) && Advances(s, t, w, id, ok) && Plain(a)
  {
    a := NextAction(w, s.workers[w].stage, ok);
    HolderHolds(s, w, id);
    StepAdvances(s, w, id, ok);
    t := Apply(s, a);
    Keep(s, a);
    RunOne(s, a, t);
  }

  /** From any point inside `deliver`, the worker can finish alone, and ends as its stage foretells. */
  lemma {:induction false} FinishDeliver(s: State, w: WorkerId, id: Id, ok: bool)
    returns (run: seq<Action>, t: State)
    requires Inv(s) && At(s, w) && s.workers[w].id == id
    ensures Runs(s, run, t) && Inv(t) && Alone(s, t, w, id)
    ensures t.workers[w] == Scanning(s.workers[w].now, s.workers[w].todo)
    ensures forall a <- run :: Plain(a)
    ensures Ended(s, t, id, FateOf(s.workers[w].stage, Lookup(s.records, id), s.clock, ok))
    decreases StepsLeft(s.workers[w].stage)
  {
    var a, u := StepOnce(s, w, id, ok);
    run, t := [a], u;
    if At(u, w) {
      var rest;
      rest, t := FinishDeliver(u, w, id, ok);
      AloneTwice(s, u, t, w, id);
      RunThen(s, [a], u, rest, t);
      run := [a] + rest;
    }
  }

  // --- below zero ---

  /** The id is in the remaining snapshot of some worker. */
  ghost predicate Listed(s: State, id: Id) {
    exists w :: w in s.workers && ((s.workers[w].Scanning? || s.workers[w].Busy?) && id in s.workers[w].todo)
  }

  ghost predicate Claims(s: State, run: seq<Action>, id: Id)
    requires id in s.hist
  {
    Legal(s, run) && id in Final(s, run).hist && Final(s, run).hist[id].claims > s.hist[id].claims
  }

  /** Queued below zero and in nobody's snapshot. */
  ghost predicate Stranded(s: State, id: Id) {
    id in s.queue && s.queue[id] < 0 && id in s.hist && !Listed(s, id)
  }

  /** Only a snapshot makes lists, and it skips scores below zero. */
  lemma UnlistedStays(s: State, a: Action, id: Id)
    requires Enabled(s, a) && (id in s.queue ==> s.queue[id] < 0) && !Listed(s, id)
    ensures !Listed(Apply(s, a), id)
  {
    var t := Apply(s, a);
    forall w | w in t.workers && (t.workers[w].Scanning? || t.workers[w].Busy?) ensures id !in t.workers[w].todo {
      TodoOrigin(s, a, w);
    }
  }

  /** Where a worker's remaining ids come from. */
  ghost predicate TodoFrom(s: State, a: Action, t: State, w: WorkerId) {
    w in t.workers && (t.workers[w].Scanning? || t.workers[w].Busy?) ==>
      || (a.Snapshot? && a.w == w && t.workers[w].todo == a.ids)
      || (w in s.workers && (s.workers[w].Scanning? || s.workers[w].Busy?)
          && forall x :: x in t.workers[w].todo ==> x in s.workers[w].todo)
  }

  lemma TodoOrigin(s: State, a: Action, w: WorkerId)
    requires Enabled(s, a)
    ensures TodoFrom(s, a, Apply(s, a), w)
  {
    if a.Load? || a.Send? || a.Respond? {
      AttemptTodo(s, a, w);
    } else if a.Save? || a.Enlist? || a.Expire? {
      StoreTodo(s, a, w);
    } else if a.Schedule? {
      ScheduleTodo(s, a.w, w, NextAttempt(s.clock, StageOf(s, a.w).msg.retries + 1));
    } else {
      LoopTodo(s, a, w);
    }
  }

  lemma AttemptTodo(s: State, a: Action, w: WorkerId)
    requires Enabled(s, a) && (a.Load? || a.Send? || a.Respond?)
    ensures TodoFrom(s, a, Apply(s, a), w)
  {
  }

  lemma ScheduleTodo(s: State, v: WorkerId, w: WorkerId, next: int)
    requires Enabled(s, Schedule(v))
    ensures TodoFrom(s, Schedule(v), ScheduleAt(s, v, next), w)
  {
  }

  lemma StoreTodo(s: State, a: Action, w: WorkerId)
    requires Enabled(s, a) && (a.Save? || a.Enlist? || a.Expire?)
    ensures TodoFrom(s, a, Apply(s, a), w)
  {
  }

  lemma LoopTodo(s: State, a: Action, w: WorkerId)
    requires Enabled(s, a) && !a.Load? && !a.Send? && !a.Respond? && !a.Schedule?
    requires !a.Save? && !a.Enlist? && !a.Expire?
    ensures TodoFrom(s, a, Apply(s, a), w)
  {
  }

  /** An unlisted queued id below zero is nobody's next step. */
  lemma StrandedUntouched(s: State, a: Action, id: Id)
    requires Inv(s) && Enabled(s, a) && Stranded(s, id)
    ensures id in Apply(s, a).hist && ViewOf(Apply(s, a), id) == ViewOf(s, id)
  {
    if a.Start? || a.Poll? || a.Snapshot? || a.Finish? {
      LoopStepsMoveNothing(s, a, id);
    } else if a.Advance? || (a.Crash? && !At(s, a.w)) {
      TimeMovesNothing(s, a, id);
    } else {
      Extract(s, id);
      StrandedNotMoved(s, a, id);
      Keep(s, a);
    }
  }

  lemma TimeMovesNothing(s: State, a: Action, id: Id)
    requires Enabled(s, a) && (a.Advance? || (a.Crash? && !At(s, a.w)))
    requires id in s.hist && s.hist[id].place == InQueue
    ensures id in Apply(s, a).hist && ViewOf(Apply(s, a), id) == ViewOf(s, id)
  {
  }

  lemma StrandedNotMoved(s: State, a: Action, id: Id)
    requires Shape(s) && Enabled(s, a) && Stranded(s, id)
    requires id in s.records ==> s.records[id].expireAt.None?
    requires !a.Start? && !a.Poll? && !a.Snapshot? && !a.Finish? && !a.Advance? && (a.Crash? ==> At(s, a.w))
    ensures MovedId(s, a) != id
  {
    assert s.hist[id].place == InQueue;
    assert a.Claim? ==> s.workers[a.w].todo[0] in s.workers[a.w].todo;
  }

  lemma LoopStepsMoveNothing(s: State, a: Action, id: Id)
    requires Enabled(s, a) && (a.Start? || a.Poll? || a.Snapshot? || a.Finish?)
    requires id in s.hist && s.hist[id].place == InQueue
    ensures id in Apply(s, a).hist && ViewOf(Apply(s, a), id) == ViewOf(s, id)
  {
  }

  lemma StrandedStays(s: State, a: Action, id: Id)
    requires Inv(s) && Enabled(s, a) && Stranded(s, id)
    ensures Stranded(Apply(s, a), id) && ViewOf(Apply(s, a), id) == ViewOf(s, id)
  {
    StrandedUntouched(s, a, id);
    UnlistedStays(s, a, id);
    assert ViewOf(Apply(s, a), id).score == ViewOf(s, id).score;
  }

  /** A stranded message stays queued, unclaimed and unsent through every possible future. */
  lemma {:induction false} StrandedForever(s: State, run: seq<Action>, id: Id)
    requires Inv(s) && Legal(s, run) && Stranded(s, id)
    ensures Stranded(Final(s, run), id) && ViewOf(Final(s, run), id) == ViewOf(s, id)
    decreases |run|
  {
    if run != [] {
      Keep(s, run[0]);
      StrandedStays(s, run[0], id);
      StrandedForever(Apply(s, run[0]), run[1..], id);
    }
  }

  // --- what Redis answers ---

  /** Any ids can be listed in score order. */
  lemma {:induction false} Sorted(queue: map<Id, int>, due: set<Id>) returns (ids: seq<Id>)
    requires due <= queue.Keys
    ensures NoDuplicates(ids) && (forall id :: id in ids <==> id in due)
    ensures forall i, j :: 0 <= i < j < |ids| ==>
              ids[i] in queue && ids[j] in queue && queue[ids[i]] <= queue[ids[j]]
    decreases |due|
  {
    if due == {} {
      ids := [];
    } else {
      var m := Smallest(queue, due);
      var rest := Sorted(queue, due - {m});
      ids := [m] + rest;
      forall i, j | 0 <= i < j < |ids|
        ensures ids[i] in queue && ids[j] in queue && queue[ids[i]] <= queue[ids[j]] && ids[i] != ids[j] {
        assert ids[j] == rest[j - 1] && ids[j] in rest;
        if i > 0 {
          assert ids[i] == rest[i - 1];
        }
      }
    }
  }

  lemma {:induction false} Smallest(queue: map<Id, int>, due: set<Id>) returns (m: Id)
    requires due <= queue.Keys && due != {}
    ensures m in due && forall id :: id in due ==> queue[m] <= queue[id]
    decreases |due|
  {
    m :| m in due;
    if due != {m} {
      var r := Smallest(queue, due - {m});
      if queue[r] < queue[m] {
        m := r;
      }
    }
  }

  /** So ZRANGEBYSCORE always has an answer. */
  lemma SnapshotExists(s: State, now: int) returns (ids: seq<Id>)
    ensures SnapshotOk(s, now, ids)
  {
    ids := Sorted(s.queue, set id | id in s.queue && 0 <= s.queue[id] <= now);
  }
}
