/** Looking at the dead-letter queue while everybody else goes on: one LRANGE, then one GET per id. */
module QStashDlq {
  import opened Wrappers
  import opened Backoff
  import opened QStashModel
  import opened QStashSafety
  import opened QStashLiveness
  import opened QStashGuarantees

  /** GET finds a record until its TTL has run out. */
  predicate Unexpired(s: State, id: Id) {
    && id in s.records
    && (s.records[id].expireAt.Some? ==> s.clock < s.records[id].expireAt.value)
  }

  ghost predicate Follows(s: State, t: State) {
    exists run: seq<Action> :: Runs(s, run, t)
  }

  // --- dead-lettered records only disappear ---

  /** The record of a listed id is the same, or has got its TTL since, or is gone. */
  ghost predicate RecordFades(s: State, t: State, id: Id) {
    && id in t.dlq
    && (id in t.records ==>
          && id in s.records && t.records[id].msg == s.records[id].msg
          && (t.records[id].expireAt == s.records[id].expireAt || s.records[id].expireAt == None))
  }

  ghost predicate DlqFades(s: State, t: State) {
    s.clock <= t.clock && forall id :: id in s.dlq ==> RecordFades(s, t, id)
  }

  lemma OwnMoveFades(s: State, a: Action, id: Id)
    requires Inv(s) && Enabled(s, a) && id in s.dlq && MovedId(s, a) == id
    requires a.Evict? || a.Claim? || a.Expire? || a.Crash?
    ensures RecordFades(s, Apply(s, a), id)
  {
    if a.Expire? {
      HeldHasNoTtl(s, a.w, id);
      ExpireFades(s, a.w, id);
    } else if a.Crash? {
      CrashFades(s, a.w, id);
    } else if a.Claim? {
      ClaimFades(s, a.w, id);
    }
  }

  lemma HeldHasNoTtl(s: State, w: WorkerId, id: Id)
    requires Inv(s) && At(s, w) && s.workers[w].id == id
    ensures id in s.records ==> s.records[id].expireAt == None
  {
    HolderHolds(s, w, id);
  }

  lemma CrashFades(s: State, w: WorkerId, id: Id)
    requires Enabled(s, Crash(w)) && id in s.dlq
    ensures RecordFades(s, DoCrash(s, w), id)
  {
  }

  lemma ClaimFades(s: State, w: WorkerId, id: Id)
    requires CanClaim(s, w) && id in s.dlq
    ensures RecordFades(s, DoClaim(s, w), id)
  {
  }

  lemma ExpireFades(s: State, w: WorkerId, id: Id)
    requires Enabled(s, Expire(w)) && id in s.dlq && s.workers[w].id == id
    requires id in s.records ==> s.records[id].expireAt == None
    ensures RecordFades(s, DoExpire(s, w), id)
  {
  }

  lemma LoopMoveFades(s: State, a: Action, id: Id)
    requires Enabled(s, a) && id in s.dlq
    requires a.Advance? || a.Start? || a.Poll? || a.Snapshot? || a.Finish?
    ensures RecordFades(s, Apply(s, a), id)
  {
  }

  /** No other step can be about a listed id. */
  lemma ListedMoves(s: State, a: Action, id: Id)
    requires Inv(s) && Enabled(s, a) && id in s.dlq && MovedId(s, a) == id
    requires !a.Evict? && !a.Claim? && !a.Expire? && !a.Crash?
    ensures a.Advance? || a.Start? || a.Poll? || a.Snapshot? || a.Finish?
  {
    Extract(s, id);
  }

  lemma DlqStepFades(s: State, a: Action, id: Id)
    requires Inv(s) && Enabled(s, a) && id in s.dlq
    ensures RecordFades(s, Apply(s, a), id)
  {
    if a.Advance? || a.Start? || a.Poll? || a.Snapshot? || a.Finish? {
      LoopMoveFades(s, a, id);
    } else if MovedId(s, a) == id {
      if !a.Evict? && !a.Claim? && !a.Expire? && !a.Crash? {
        ListedMoves(s, a, id);
      } else {
        OwnMoveFades(s, a, id);
      }
    } else {
      Keep(s, a);
      assert ViewOf(Apply(s, a), id).record == ViewOf(s, id).record;
      assert ViewOf(Apply(s, a), id).inDlq;
    }
  }

  lemma {:induction false} DlqRunFades(s: State, run: seq<Action>)
    requires Inv(s) && Legal(s, run)
    ensures Inv(Final(s, run)) && DlqFades(s, Final(s, run))
    decreases |run|
  {
    if run != [] {
      var t, u := Apply(s, run[0]), Final(s, run);
      Keep(s, run[0]);
      ClockAdvances(s, run[0]);
      DlqRunFades(t, run[1..]);
      forall id | id in s.dlq ensures RecordFades(s, u, id) {
        DlqStepFades(s, run[0], id);
        assert RecordFades(t, u, id);
      }
    }
  }

  predicate GivenUp(m: Msg) {
    m.phase == Failed && (m.urlOk ==> m.retries == m.maxRetries + 1)
  }

  lemma ListedViewIsGivenUp(id: Id, v: View, crashes: nat)
    requires PlaceOk(id, v, crashes) && v.inDlq && v.record.Some?
    ensures GivenUp(v.record.value.msg)
  {
  }

  lemma ListedIsGivenUp(s: State, id: Id)
    requires Inv(s) && id in s.dlq && id in s.records
    ensures GivenUp(s.records[id].msg)
  {
    Extract(s, id);
    ListedViewIsGivenUp(id, ViewOf(s, id), s.crashes);
  }

  /** What a later look finds was there before, with the same contents, and was given up on. */
  lemma SeenBefore(s: State, t: State, id: Id)
    requires Inv(s) && Follows(s, t) && id in s.dlq && Unexpired(t, id)
    ensures Unexpired(s, id) && t.records[id].msg == s.records[id].msg && GivenUp(t.records[id].msg)
  {
    var run: seq<Action> :| Runs(s, run, t);
    DlqRunFades(s, run);
    assert RecordFades(s, t, id);
    ListedIsGivenUp(s, id);
  }

  // --- the listing ---

  /** The messages found by looking for ids[i] in state looks[i]. */
  function Found(ids: seq<Id>, looks: seq<State>): seq<Msg>
    requires |ids| == |looks|
  {
    if ids == [] then []
    else
      var n := |ids| - 1;
      Found(ids[..n], looks[..n]) + if Unexpired(looks[n], ids[n]) then [looks[n].records[ids[n]].msg] else []
  }

  function FoundIds(ids: seq<Id>, looks: seq<State>): seq<Id>
    requires |ids| == |looks|
  {
    if ids == [] then []
    else
      var n := |ids| - 1;
      FoundIds(ids[..n], looks[..n]) + if Unexpired(looks[n], ids[n]) then [ids[n]] else []
  }

  lemma FoundSnoc(ids: seq<Id>, looks: seq<State>, id: Id, look: State)
    requires |ids| == |looks|
    ensures Found(ids + [id], looks + [look]) ==
      Found(ids, looks) + if Unexpired(look, id) then [look.records[id].msg] else []
    ensures FoundIds(ids + [id], looks + [look]) == FoundIds(ids, looks) + if Unexpired(look, id) then [id] else []
  {
    assert (ids + [id])[..|ids|] == ids && (looks + [look])[..|ids|] == looks;
  }

  function LastOf(start: State, looks: seq<State>): State {
    if looks == [] then start else looks[|looks| - 1]
  }

  /** Each look comes after the one before it, the first one after `start`. */
  ghost predicate Chain(start: State, looks: seq<State>) {
    looks == [] ||
    var n := |looks| - 1;
    Chain(start, looks[..n]) && Follows(LastOf(start, looks[..n]), looks[n])
  }

  lemma ChainSnoc(start: State, looks: seq<State>, look: State)
    requires Chain(start, looks) && Follows(LastOf(start, looks), look)
    ensures Chain(start, looks + [look]) && LastOf(start, looks + [look]) == look
  {
    assert (looks + [look])[..|looks|] == looks;
  }

  /** So far these ids have been looked for, in these states, with this result. */
  ghost predicate Reading(listed: State, ids: seq<Id>, looks: seq<State>, messages: seq<Msg>) {
    |looks| == |ids| && messages == Found(ids, looks) && Chain(listed, looks)
  }

  lemma ReadingOn(listed: State, ids: seq<Id>, looks: seq<State>, messages: seq<Msg>, id: Id, look: State)
    requires Reading(listed, ids, looks, messages) && Follows(LastOf(listed, looks), look)
    ensures LastOf(listed, looks + [look]) == look
    ensures Reading(listed, ids + [id], looks + [look],
      if Unexpired(look, id) then messages + [look.records[id].msg] else messages)
  {
    ChainSnoc(listed, looks, look);
    FoundSnoc(ids, looks, id, look);
  }

  class Reader {
    var s: State

    constructor (s: State)
      ensures this.s == s
    {
      this.s := s;
    }

    /** Any number of steps by anybody, and time passing. */
    method Wait()
      requires Inv(s)
      modifies this
      ensures Inv(s) && Follows(old(s), s)
    {
      RunNothing(s);
      assert Follows(s, s);
      var k: int := *;
      var n := if k < 0 then 0 else k;
      for i := 0 to n
        invariant Inv(s) && Follows(old(s), s)
      {
        var a: Action := *;
        if Enabled(s, a) {
          Keep(s, a);
          FollowsStep(old(s), s, a);
          s := Apply(s, a);
        }
      }
    }

    /** One GET, after a pause; what it finds is appended. */
    method Get(id: Id, messages: seq<Msg>, ghost listed: State, ghost ids: seq<Id>, ghost looks: seq<State>)
      returns (more: seq<Msg>, ghost looked: seq<State>)
      requires Inv(s) && s == LastOf(listed, looks) && Reading(listed, ids, looks, messages)
      modifies this
      ensures Inv(s) && s == LastOf(listed, looked) && Reading(listed, ids + [id], looked, more)
    {
      Wait();
      ReadingOn(listed, ids, looks, messages, id, s);
      looked := looks + [s];
      if Unexpired(s, id) {
        more := messages + [s.records[id].msg];
      } else {
        more := messages;
      }
    }

    /** The ids of one LRANGE, then a GET for each; the states at these calls are those of one run. */
    method HandleDlq() returns (messages: seq<Msg>, ghost listed: State, ghost looks: seq<State>)
      requires Inv(s)
      modifies this
      ensures Inv(listed) && Follows(old(s), listed) && Chain(listed, looks) && s == LastOf(listed, looks)
      ensures |looks| == |listed.dlq| && messages == Found(listed.dlq, looks)
    {
      Wait();
      listed := s;
      var ids := s.dlq;
      messages, looks := [], [];
      for i := 0 to |ids|
        invariant Inv(s) && s == LastOf(listed, looks) && Reading(listed, ids[..i], looks, messages)
      {
        assert ids[..i + 1] == ids[..i] + [ids[i]];
        messages, looks := Get(ids[i], messages, listed, ids[..i], looks);
      }
      assert ids[..|ids|] == ids;
    }
  }

  lemma FollowsStep(s: State, t: State, a: Action)
    requires Follows(s, t) && Enabled(t, a)
    ensures Follows(s, Apply(t, a))
  {
    var run: seq<Action> :| Runs(s, run, t);
    RunOne(t, a, Apply(t, a));
    RunThen(s, run, t, [a], Apply(t, a));
  }

  lemma FollowsOn(s: State, t: State, u: State)
    requires Follows(s, t) && Follows(t, u)
    ensures Follows(s, u)
  {
    var run: seq<Action> :| Runs(s, run, t);
    var more: seq<Action> :| Runs(t, more, u);
    RunThen(s, run, t, more, u);
  }

  lemma {:induction false} LooksFollow(start: State, looks: seq<State>, i: nat)
    requires Chain(start, looks) && i < |looks|
    ensures Follows(start, looks[i])
    decreases |looks|
  {
    var n := |looks| - 1;
    if i < n {
      LooksFollow(start, looks[..n], i);
    } else if n > 0 {
      LooksFollow(start, looks[..n], n - 1);
      FollowsOn(start, looks[n - 1], looks[n]);
    }
  }

  // --- what the listing says ---

  predicate AllUnexpired(s: State, ids: seq<Id>) {
    forall i :: 0 <= i < |ids| ==> Unexpired(s, ids[i])
  }

  /** The messages stored for the given ids, in their order. */
  function StoredAt(s: State, ids: seq<Id>): seq<Msg>
    requires AllUnexpired(s, ids)
  {
    seq(|ids|, i requires 0 <= i < |ids| => s.records[ids[i]].msg)
  }

  lemma StoredSnoc(s: State, ids: seq<Id>, id: Id)
    requires AllUnexpired(s, ids) && Unexpired(s, id)
    ensures AllUnexpired(s, ids + [id]) && StoredAt(s, ids + [id]) == StoredAt(s, ids) + [s.records[id].msg]
  {
  }

  predicate AllGivenUp(ms: seq<Msg>) {
    forall i :: 0 <= i < |ms| ==> GivenUp(ms[i])
  }

  /** What was found is what was stored, in order, under ids that had not expired, all given up on. */
  ghost predicate TrueListing(listed: State, ids: seq<Id>, looks: seq<State>)
    requires |ids| == |looks|
  {
    && AllUnexpired(listed, FoundIds(ids, looks))
    && Found(ids, looks) == StoredAt(listed, FoundIds(ids, looks)) && AllGivenUp(Found(ids, looks))
  }

  /** If a later look finds the record, it is as it was when the id was listed. */
  ghost predicate SeenAs(listed: State, look: State, id: Id) {
    Unexpired(look, id) ==>
      Unexpired(listed, id) && look.records[id].msg == listed.records[id].msg && GivenUp(look.records[id].msg)
  }

  lemma TrueListingSnoc(listed: State, ids: seq<Id>, looks: seq<State>, id: Id, look: State)
    requires |ids| == |looks| && TrueListing(listed, ids, looks) && SeenAs(listed, look, id)
    ensures TrueListing(listed, ids + [id], looks + [look])
  {
    FoundSnoc(ids, looks, id, look);
    if Unexpired(look, id) {
      StoredSnoc(listed, FoundIds(ids, looks), id);
    }
  }

  lemma {:induction false} FoundAsSeen(listed: State, ids: seq<Id>, looks: seq<State>)
    requires |ids| == |looks| && forall i :: 0 <= i < |ids| ==> SeenAs(listed, looks[i], ids[i])
    ensures TrueListing(listed, ids, looks)
    decreases |ids|
  {
    if ids != [] {
      var n := |ids| - 1;
      FoundAsSeen(listed, ids[..n], looks[..n]);
      assert ids == ids[..n] + [ids[n]] && looks == looks[..n] + [looks[n]];
      assert SeenAs(listed, looks[n], ids[n]);
      TrueListingSnoc(listed, ids[..n], looks[..n], ids[n], looks[n]);
    }
  }

  lemma FoundAt(listed: State, ids: seq<Id>, looks: seq<State>)
    requires |ids| == |looks| && Inv(listed)
    requires forall i :: 0 <= i < |ids| ==> ids[i] in listed.dlq && Follows(listed, looks[i])
    ensures TrueListing(listed, ids, looks)
  {
    forall i | 0 <= i < |ids| ensures SeenAs(listed, looks[i], ids[i]) {
      if Unexpired(looks[i], ids[i]) {
        SeenBefore(listed, looks[i], ids[i]);
      }
    }
    FoundAsSeen(listed, ids, looks);
  }

  /**
   * Whatever happens between the calls, the listing consists of the messages that were in the DLQ at
   * the LRANGE, as they were then, in its order, without those that had expired by their own GET;
   * and each one was given up on.
   */
  lemma DlqListing(listed: State, looks: seq<State>)
    requires Inv(listed) && |looks| == |listed.dlq| && Chain(listed, looks)
    ensures TrueListing(listed, listed.dlq, looks)
  {
    forall i | 0 <= i < |looks| ensures Follows(listed, looks[i]) {
      LooksFollow(listed, looks, i);
    }
    FoundAt(listed, listed.dlq, looks);
  }

  /** A listed message is shown unless its record is gone or past its TTL when it is asked for. */
  lemma {:induction false} StoredIsShown(ids: seq<Id>, looks: seq<State>, i: nat)
    requires i < |ids| == |looks| && ids[i] in looks[i].records
    requires var at := looks[i].records[ids[i]].expireAt; at == None || looks[i].clock < at.value
    ensures looks[i].records[ids[i]].msg in Found(ids, looks)
    decreases |ids|
  {
    var n := |ids| - 1;
    if i < n {
      StoredIsShown(ids[..n], looks[..n], i);
    }
  }

  /** Nothing else is shown, and the rest keeps its order. */
  lemma ShownInOrder(ids: seq<Id>, looks: seq<State>, id: Id, look: State)
    requires |ids| == |looks|
    ensures Found([], []) == []
    ensures Found(ids + [id], looks + [look]) ==
      if id in look.records && (look.records[id].expireAt == None || look.clock < look.records[id].expireAt.value)
      then Found(ids, looks) + [look.records[id].msg] else Found(ids, looks)
  {
    FoundSnoc(ids, looks, id, look);
  }
}
