/**
 * That deliveries happen: with a single loop that stops only between passes, every pass that finds a
 * message due claims it and POSTs it once, and as many such passes as it has attempts settle it.
 */
module QStashPasses {
  import opened Backoff
  import opened QStashModel
  import opened QStashSafety
  import opened QStashGuarantees
  import opened QStashSolo
  import opened QStashLiveness
  import opened QStashLoss

  /** A pass takes its snapshot while `id` is due at its clock reading. */
  ghost predicate FindsDue(s: State, a: Action, id: Id) {
    && a.Snapshot? && a.w in s.workers && s.workers[a.w].Polling?
    && id in s.queue && 0 <= s.queue[id] <= s.workers[a.w].now
  }

  ghost function DuePasses(s: State, run: seq<Action>, id: Id): nat
    requires Legal(s, run)
    decreases |run|
  {
    if run == [] then 0
    else Bit(FindsDue(s, run[0], id)) + DuePasses(Apply(s, run[0]), run[1..], id)
  }

  /** The claims of `id` so far, and the one that the pass under way is still to make. */
  ghost function Tally(s: State, id: Id): nat {
    if id in s.hist then s.hist[id].claims + Bit(Listed(s, id)) else 0
  }

  // --- what a step does to the rest of a pass ---

  ghost predicate HasTodo(s: State, w: WorkerId) {
    w in s.workers && (s.workers[w].Scanning? || s.workers[w].Busy?)
  }

  lemma SoloLists(s: State, w: WorkerId, id: Id)
    requires Solo(s) && w in s.workers
    ensures Listed(s, id) <==> HasTodo(s, w) && id in s.workers[w].todo
  {
  }

  ghost predicate SameTodo(s: State, t: State, w: WorkerId) {
    && w in s.workers && HasTodo(s, w) && HasTodo(t, w)
    && t.workers[w].todo == s.workers[w].todo
  }

  lemma EnlistKeepsTodo(s: State, w: WorkerId)
    requires Enabled(s, Enlist(w))
    ensures SameTodo(s, DoEnlist(s, w), w)
  {
  }

  lemma DeliveryKeepsTodo(s: State, a: Action)
    requires Enabled(s, a)
    requires a.Load? || a.Send? || a.Respond? || a.Schedule? || a.Save? || a.Enlist? || a.Expire?
    ensures SameTodo(s, Apply(s, a), a.w)
  {
    if a.Load? || a.Send? || a.Respond? {
      AttemptKeepsPass(s, a);
    } else if a.Schedule? {
      ScheduleKeepsPass(s, a.w, NextAttempt(s.clock, StageOf(s, a.w).msg.retries + 1));
    } else if a.Enlist? {
      EnlistKeepsTodo(s, a.w);
    } else {
      StoreKeepsPass(s, a);
    }
  }

  lemma PublishersKeepWorkers(s: State, a: Action)
    requires Enabled(s, a)
    requires a.Advance? || a.Evict? || a.Publish? || a.PublishSave? || a.PublishAdd? || a.PublishCrash?
    ensures Apply(s, a).workers == s.workers
  {
  }

  /** A loop that is stopped waits for its next tick first. */
  ghost predicate Gentle(s: State, a: Action) {
    a.Crash? ==> a.w in s.workers && s.workers[a.w].Idle?
  }

  lemma StopLeavesNobody(s: State, w: WorkerId, id: Id)
    requires Solo(s) && Enabled(s, Crash(w))
    ensures !Listed(DoCrash(s, w), id)
  {
    assert forall v :: v in DoCrash(s, w).workers ==> v in s.workers && v != w;
  }

  /** Steps inside a delivery and steps of everybody else leave the list as it is. */
  lemma ListKept(s: State, a: Action, id: Id)
    requires Enabled(s, a) && Solo(s) && Solo(Apply(s, a))
    requires !a.Start? && !a.Poll? && !a.Snapshot? && !a.Claim? && !a.Finish? && Gentle(s, a)
    ensures Listed(Apply(s, a), id) <==> Listed(s, id)
  {
    if a.Advance? || a.Evict? || a.Publish? || a.PublishSave? || a.PublishAdd? || a.PublishCrash? {
      PublishersKeepWorkers(s, a);
    } else if a.Crash? {
      SoloLists(s, a.w, id);
      StopLeavesNobody(s, a.w, id);
    } else {
      DeliveryKeepsTodo(s, a);
      SoloLists(s, a.w, id);
      SoloLists(Apply(s, a), a.w, id);
    }
  }

  lemma SecondIsNotSolo(s: State, v: WorkerId, w: WorkerId)
    requires v in s.workers && Enabled(s, Start(w))
    ensures !Solo(Apply(s, Start(w)))
  {
    var t := Apply(s, Start(w));
    assert v in t.workers && w in t.workers && v != w;
  }

  lemma FirstIsAlone(s: State, w: WorkerId)
    requires Enabled(s, Start(w)) && Solo(Apply(s, Start(w)))
    ensures s.workers == map[]
  {
    if s.workers != map[] {
      var v :| v in s.workers;
      SecondIsNotSolo(s, v, w);
    }
  }

  /** Between passes nothing is listed; a snapshot lists exactly what is due. */
  lemma ListBetween(s: State, a: Action, id: Id)
    requires Enabled(s, a) && Solo(s) && Solo(Apply(s, a))
    requires a.Start? || a.Poll? || a.Snapshot? || a.Finish?
    ensures !Listed(s, id) && (Listed(Apply(s, a), id) <==> FindsDue(s, a, id))
  {
    SoloLists(Apply(s, a), a.w, id);
    if a.Start? {
      FirstIsAlone(s, a.w);
    } else {
      SoloLists(s, a.w, id);
    }
  }

  lemma ListAfterClaim(s: State, w: WorkerId, id: Id)
    requires LoopPrompt(s) && Solo(s) && CanClaim(s, w) && Solo(DoClaim(s, w))
    ensures s.workers[w].todo[0] in s.queue
    ensures Listed(s, id) <==> Listed(DoClaim(s, w), id) || id == s.workers[w].todo[0]
    ensures !Listed(DoClaim(s, w), s.workers[w].todo[0])
  {
    var todo := s.workers[w].todo;
    assert WorkerPrompt(s.queue, s.clock, s.workers[w]);
    LoopClaim(s, w);
    SoloLists(s, w, id);
    SoloLists(DoClaim(s, w), w, id);
    SoloLists(DoClaim(s, w), w, todo[0]);
    assert id in todo <==> id == todo[0] || id in todo[1..];
  }

  // --- the tally ---

  lemma ClaimsAfter(s: State, a: Action, id: Id)
    requires Inv(s) && Enabled(s, a) && id in s.hist
    ensures id in Apply(s, a).hist
    ensures Apply(s, a).hist[id].claims
      == s.hist[id].claims + Bit(a.Claim? && a.id == id && id in s.queue)
    ensures Apply(s, a).hist[id].born == s.hist[id].born
  {
    if MovedId(s, a) == id && !a.Publish? {
      HistoryMoves(s, a, id);
    } else {
      Keep(s, a);
      assert ViewOf(Apply(s, a), id).claims == ViewOf(s, id).claims;
      assert ViewOf(Apply(s, a), id).born == ViewOf(s, id).born;
    }
  }

  lemma ListedIsKnown(s: State, id: Id)
    requires Inv(s) && LoopPrompt(s) && Listed(s, id)
    ensures id in s.queue && id in s.hist
  {
    var w :| w in s.workers && ((s.workers[w].Scanning? || s.workers[w].Busy?) && id in s.workers[w].todo);
    assert WorkerPrompt(s.queue, s.clock, s.workers[w]);
  }

  lemma TallyOfKnown(s: State, a: Action, id: Id)
    requires SoloInv(s) && Enabled(s, a) && Solo(Apply(s, a)) && Gentle(s, a) && id in s.hist
    ensures Tally(Apply(s, a), id) == Tally(s, id) + Bit(FindsDue(s, a, id))
  {
    ClaimsAfter(s, a, id);
    if a.Start? || a.Poll? || a.Snapshot? || a.Finish? {
      ListBetween(s, a, id);
    } else if a.Claim? {
      ListAfterClaim(s, a.w, id);
    } else {
      ListKept(s, a, id);
    }
  }

  lemma NewHasNoClaims(s: State, id: Id, m: Msg)
    requires Enabled(s, Publish(id, m)) && !Listed(s, id)
    ensures Tally(DoPublish(s, id, m), id) == 0
  {
    assert DoPublish(s, id, m).workers == s.workers;
  }

  lemma TallyOfNew(s: State, a: Action, id: Id)
    requires SoloInv(s) && Enabled(s, a) && id !in s.hist
    ensures Tally(Apply(s, a), id) == 0 && !FindsDue(s, a, id)
  {
    if Listed(s, id) {
      ListedIsKnown(s, id);
    }
    if !a.Publish? {
      NoNewId(s, a, id);
    } else if a.id == id {
      NewHasNoClaims(s, id, a.msg);
    }
  }

  /** The tally goes up by one with every pass that finds the message due, and in no other way. */
  lemma TallyStep(s: State, a: Action, id: Id)
    requires SoloInv(s) && Enabled(s, a) && Solo(Apply(s, a)) && Gentle(s, a)
    ensures Tally(Apply(s, a), id) == Tally(s, id) + Bit(FindsDue(s, a, id))
  {
    if id in s.hist {
      TallyOfKnown(s, a, id);
    } else {
      TallyOfNew(s, a, id);
    }
  }

  /** A run with one loop at a time, which may be stopped and started again, but does not crash. */
  ghost predicate Steady(s: State, run: seq<Action>)
    decreases |run|
  {
    Solo(s)
    && (run == [] || (Enabled(s, run[0]) && Gentle(s, run[0]) && Steady(Apply(s, run[0]), run[1..])))
  }

  lemma {:induction false} TallyRun(s: State, run: seq<Action>, id: Id)
    requires SoloInv(s) && Steady(s, run) && Legal(s, run)
    ensures SoloInv(Final(s, run)) && Tally(Final(s, run), id) == Tally(s, id) + DuePasses(s, run, id)
    decreases |run|
  {
    if run != [] {
      assert Steady(Apply(s, run[0]), run[1..]);
      SoloKeep(s, run[0]);
      TallyStep(s, run[0], id);
      TallyRun(Apply(s, run[0]), run[1..], id);
    }
  }

  // --- the guarantees ---

  /** A pass that has listed a message and has gone past it has claimed it. */
  lemma PassClaimsWhatItLists(s: State, run: seq<Action>, id: Id)
    requires SoloInv(s) && Steady(s, run) && Legal(s, run) && Listed(s, id) && !Listed(Final(s, run), id)
    ensures id in s.hist && id in Final(s, run).hist
    ensures Final(s, run).hist[id].claims == s.hist[id].claims + 1 + DuePasses(s, run, id)
  {
    ListedIsKnown(s, id);
    TallyRun(s, run, id);
  }

  lemma InitSolo(clock: int)
    ensures SoloInv(Init(clock))
  {
    InitOk(clock);
  }

  /** A message is claimed once by each pass that finds it due, and at most MaxRetries + 1 passes do. */
  lemma OneClaimPerDuePass(clock: int, run: seq<Action>, id: Id)
    requires Steady(Init(clock), run) && Legal(Init(clock), run) && id in Final(Init(clock), run).hist
    ensures var s := Final(Init(clock), run);
      && DuePasses(Init(clock), run, id) == s.hist[id].claims + Bit(Listed(s, id))
      && DuePasses(Init(clock), run, id) <= FailedClaims(s.hist[id].born)
  {
    InitSolo(clock);
    TallyRun(Init(clock), run, id);
    TallyBounded(Final(Init(clock), run), id);
  }

  lemma ViewClaims(id: Id, v: View, crashes: nat)
    requires PlaceOk(id, v, crashes)
    ensures v.claims <= FailedClaims(v.born) && (v.place == InQueue ==> v.claims < FailedClaims(v.born))
  {
  }

  lemma TallyBounded(s: State, id: Id)
    requires Inv(s) && LoopPrompt(s) && id in s.hist
    ensures Tally(s, id) <= FailedClaims(s.hist[id].born)
  {
    Extract(s, id);
    ViewClaims(id, ViewOf(s, id), s.crashes);
    if Listed(s, id) {
      ListedIsKnown(s, id);
    }
  }

  lemma {:induction false} NotHarmed(s: State, run: seq<Action>, id: Id)
    requires Legal(s, run) && Steady(s, run) && PublishCrash(id) !in run
    ensures !HarmedIn(s, run, id)
    decreases |run|
  {
    if run != [] {
      assert run[0] in run && run[0] != PublishCrash(id) && PublishCrash(id) !in run[1..];
      NotHarmed(Apply(s, run[0]), run[1..], id);
    }
  }

  /** What is neither wasted nor in anybody's hands has been POSTed once per claim. */
  lemma PostsAtRest(s: State, id: Id)
    requires Inv(s) && id in s.hist && !Wasted(s, id) && !Held(s, id)
    ensures |s.hist[id].posts| == if s.hist[id].born.urlOk then s.hist[id].claims else 0
    ensures s.hist[id].claims == FailedClaims(s.hist[id].born) ==> Settled(s, id)
  {
    Extract(s, id);
    if s.hist[id].place.HeldBy? {
      HolderIsBusy(s, id, s.hist[id].place.w);
    }
  }

  /**
   * Between passes, a message has had one POST for every pass that found it due; and once MaxRetries
   * + 1 passes did, it has been delivered or is in the DLQ.
   */
  lemma SettledByPasses(clock: int, run: seq<Action>, id: Id)
    requires Steady(Init(clock), run) && Legal(Init(clock), run) && PublishCrash(id) !in run
    requires var s := Final(Init(clock), run); id in s.hist && !Listed(s, id) && !Held(s, id)
    ensures var s, n := Final(Init(clock), run), DuePasses(Init(clock), run, id);
      && |s.hist[id].posts| == (if s.hist[id].born.urlOk then n else 0)
      && (n == FailedClaims(s.hist[id].born) ==> Settled(s, id))
  {
    OneClaimPerDuePass(clock, run, id);
    InitOk(clock);
    NotHarmed(Init(clock), run, id);
    WastedIff(Init(clock), run, id);
    PostsAtRest(Final(Init(clock), run), id);
  }
}
