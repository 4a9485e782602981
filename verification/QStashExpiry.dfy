/**
 * What becomes of the records of finished messages: each has an hour left from its last EXPIRE on,
 * unless the worker that held it crashed before that call; then it stays for ever.
 */
module QStashExpiry {
  import opened Wrappers
  import opened Backoff
  import opened QStashModel
  import opened QStashSafety
  import opened QStashGuarantees
  import opened QStashLoss

  ghost predicate Finished(s: State, id: Id) {
    id in s.hist && (s.hist[id].place == Done || s.hist[id].place == Dead)
  }

  /** Delivered or given up, with a record that nothing will ever remove. */
  ghost predicate Lingers(s: State, id: Id) {
    Finished(s, id) && id in s.records && s.records[id].expireAt == None
  }

  /** The crash of the holder after the final SET and before the EXPIRE. */
  predicate SkipsExpire(s: State, a: Action, id: Id) {
    && a.Crash? && At(s, a.w) && s.workers[a.w].id == id
    && (StageOf(s, a.w).ExpireDelivered? || StageOf(s, a.w).PushFailed? || StageOf(s, a.w).ExpireFailed?)
  }

  ghost predicate SkippedIn(s: State, run: seq<Action>, id: Id)
    requires Legal(s, run)
    decreases |run|
  {
    run != [] && (SkipsExpire(s, run[0], id) || SkippedIn(Apply(s, run[0]), run[1..], id))
  }

  // --- messages at rest ---

  lemma OutsideKeepsRecords(s: State, a: Action)
    requires Enabled(s, a) && Outside(s, a)
    ensures Apply(s, a).records == s.records
  {
  }

  lemma UnqueuedClaimKeepsRecords(s: State, w: WorkerId)
    requires CanClaim(s, w)
    ensures DoClaim(s, w).records == s.records
  {
  }

  ghost predicate SameRecord(s: State, t: State, id: Id) {
    (id in t.records <==> id in s.records) && (id in s.records ==> t.records[id] == s.records[id])
  }

  lemma EvictKeepsLingering(s: State, id: Id)
    requires Enabled(s, Evict(id))
    ensures !Lingers(s, id) && !Lingers(Apply(s, Evict(id)), id)
  {
  }

  lemma SameViewSameRecord(s: State, t: State, id: Id)
    requires id in s.hist && id in t.hist && ViewOf(t, id) == ViewOf(s, id)
    ensures SameRecord(s, t, id)
  {
    assert ViewOf(t, id).record == ViewOf(s, id).record;
  }

  /** Nothing but the end of its TTL changes the record of a message at rest. */
  lemma RestRecord(s: State, a: Action, id: Id)
    requires Inv(s) && Enabled(s, a) && AtRest(s, id) && a != Evict(id)
    ensures SameRecord(s, Apply(s, a), id)
  {
    if Outside(s, a) {
      OutsideKeepsRecords(s, a);
    } else if MovedId(s, a) != id {
      Keep(s, a);
      SameViewSameRecord(s, Apply(s, a), id);
    } else {
      OwnRestRecord(s, a, id);
    }
  }

  lemma OwnRestRecord(s: State, a: Action, id: Id)
    requires Inv(s) && Enabled(s, a) && AtRest(s, id) && a != Evict(id) && !Outside(s, a) && MovedId(s, a) == id
    ensures Apply(s, a).records == s.records
  {
    OthersMove(s, a, id);
    UnqueuedClaimKeepsRecords(s, a.w);
  }

  lemma SameLingering(s: State, t: State, id: Id)
    requires SameEnd(s, t, id) && SameRecord(s, t, id)
    ensures Lingers(t, id) <==> Lingers(s, id)
  {
  }

  lemma SkipIsByHolder(s: State, a: Action, id: Id)
    requires Inv(s) && Enabled(s, a) && SkipsExpire(s, a, id)
    ensures !AtRest(s, id) && MovedId(s, a) == id && !Outside(s, a) && id in s.hist
  {
    HolderHolds(s, a.w, id);
  }

  lemma RestLingers(s: State, a: Action, id: Id)
    requires Inv(s) && Enabled(s, a) && AtRest(s, id)
    ensures Lingers(Apply(s, a), id) <==> Lingers(s, id)
  {
    if a == Evict(id) {
      EvictKeepsLingering(s, id);
    } else {
      RestStep(s, a, id);
      RestRecord(s, a, id);
      SameLingering(s, Apply(s, a), id);
    }
  }

  // --- messages in somebody's hands ---

  lemma CrashLingers(s: State, w: WorkerId, id: Id)
    requires Holds(s, w, id)
    ensures Lingers(DoCrash(s, w), id) <==> SkipsExpire(s, Crash(w), id)
  {
  }

  lemma ExpireEndsLingering(s: State, w: WorkerId, id: Id)
    requires Enabled(s, Expire(w)) && s.workers[w].id == id && id in s.records
    ensures !Lingers(DoExpire(s, w), id)
  {
    ExpireEffect(s, w);
  }

  lemma AttemptIsUnfinished(s: State, a: Action, id: Id)
    requires Enabled(s, a) && (a.Load? || a.Send? || a.Respond? || a.Save? || a.Enlist?)
    requires Holds(s, a.w, id)
    ensures !Finished(Apply(s, a), id)
  {
  }

  lemma ScheduleIsUnfinished(s: State, w: WorkerId, id: Id, next: int)
    requires Enabled(s, Schedule(w)) && Holds(s, w, id)
    ensures !Finished(ScheduleAt(s, w, next), id)
  {
  }

  lemma PublisherIsUnfinished(s: State, a: Action, id: Id)
    requires Enabled(s, a) && id in s.hist && !AtRest(s, id)
    requires a == PublishSave(id) || a == PublishAdd(id) || a == PublishCrash(id) || a == Evict(id)
             || (a.Claim? && a.id == id)
    ensures !Finished(Apply(s, a), id)
  {
  }

  lemma WorkLingers(s: State, a: Action, id: Id)
    requires Enabled(s, a)
    requires a.Load? || a.Send? || a.Respond? || a.Schedule? || a.Save? || a.Enlist?
    requires Holds(s, a.w, id)
    ensures !Lingers(Apply(s, a), id)
  {
    if a.Schedule? {
      ScheduleIsUnfinished(s, a.w, id, NextAttempt(s.clock, StageOf(s, a.w).msg.retries + 1));
    } else {
      AttemptIsUnfinished(s, a, id);
    }
  }

  lemma HoldingLingers(s: State, a: Action, id: Id)
    requires Enabled(s, a)
    requires a.Load? || a.Send? || a.Respond? || a.Schedule? || a.Save? || a.Enlist? || a.Expire? || a.Crash?
    requires Holds(s, a.w, id) && id in s.records
    ensures Lingers(Apply(s, a), id) <==> SkipsExpire(s, a, id)
  {
    if a.Crash? {
      CrashLingers(s, a.w, id);
    } else if a.Expire? {
      ExpireEndsLingering(s, a.w, id);
    } else {
      WorkLingers(s, a, id);
    }
  }

  lemma HolderLingers(s: State, a: Action, id: Id)
    requires Inv(s) && Enabled(s, a)
    requires a.Load? || a.Send? || a.Respond? || a.Schedule? || a.Save? || a.Enlist? || a.Expire? || a.Crash?
    requires At(s, a.w) && s.workers[a.w].id == id
    ensures Lingers(Apply(s, a), id) <==> SkipsExpire(s, a, id)
  {
    HolderHolds(s, a.w, id);
    HoldingLingers(s, a, id);
  }

  lemma OthersLeaveUnfinished(s: State, a: Action, id: Id)
    requires Inv(s) && Enabled(s, a) && id in s.hist && !AtRest(s, id) && (Outside(s, a) || MovedId(s, a) != id)
    ensures !Finished(Apply(s, a), id)
  {
    if Outside(s, a) {
      HistoriesKept(s, a, id);
    } else {
      Keep(s, a);
      SameViewSameEnd(s, Apply(s, a), id);
    }
  }

  lemma MovedLingers(s: State, a: Action, id: Id)
    requires Inv(s) && Enabled(s, a) && id in s.hist && !AtRest(s, id) && MovedId(s, a) == id && !Outside(s, a)
    ensures Lingers(Apply(s, a), id) <==> SkipsExpire(s, a, id)
  {
    if a.PublishSave? || a.PublishAdd? || a.PublishCrash? || a.Evict? || a.Claim? {
      PublisherIsUnfinished(s, a, id);
    } else {
      HolderLingers(s, a, id);
    }
  }

  lemma LingersStep(s: State, a: Action, id: Id)
    requires Inv(s) && Enabled(s, a)
    ensures Lingers(Apply(s, a), id) <==> Lingers(s, id) || SkipsExpire(s, a, id)
  {
    if SkipsExpire(s, a, id) {
      SkipIsByHolder(s, a, id);
    }
    if id !in s.hist {
      NewIsUnfinished(s, a, id);
    } else if AtRest(s, id) {
      RestLingers(s, a, id);
    } else if Outside(s, a) || MovedId(s, a) != id {
      OthersLeaveUnfinished(s, a, id);
    } else {
      MovedLingers(s, a, id);
    }
  }

  lemma NewIsUnfinished(s: State, a: Action, id: Id)
    requires Inv(s) && Enabled(s, a) && id !in s.hist
    ensures !Finished(Apply(s, a), id)
  {
    if a.Publish? {
      PublishEffect(s, a.id, a.msg);
    } else {
      NoNewId(s, a, id);
    }
  }

  /** A finished message keeps its record for ever exactly if a crash came between its final SET and its EXPIRE. */
  lemma {:induction false} LingersIff(s: State, run: seq<Action>, id: Id)
    requires Inv(s) && Legal(s, run)
    ensures Lingers(Final(s, run), id) <==> Lingers(s, id) || SkippedIn(s, run, id)
    decreases |run|
  {
    if run != [] {
      LingersStep(s, run[0], id);
      Keep(s, run[0]);
      LingersIff(Apply(s, run[0]), run[1..], id);
    }
  }

  /** Otherwise it has a TTL, at the end of which the record can go, or is gone. */
  lemma FinishedExpires(clock: int, run: seq<Action>, id: Id)
    requires Legal(Init(clock), run) && Finished(Final(Init(clock), run), id)
    ensures var s := Final(Init(clock), run);
      (id in s.records ==> s.records[id].expireAt.Some?) <==> !SkippedIn(Init(clock), run, id)
  {
    InitOk(clock);
    LingersIff(Init(clock), run, id);
  }
}
