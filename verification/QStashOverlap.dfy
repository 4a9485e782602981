/** Why the timing guarantees need a single loop: two workers with overlapping snapshots. */
module QStashOverlap {
  import opened Wrappers
  import opened GoInt
  import opened Backoff
  import opened QStashModel
  import opened QStashLiveness
  import opened QStashSolo

  /** Some POST of `id` was sent before the due time its message carried. */
  ghost predicate SentEarly(s: State, id: Id) {
    id in s.hist && exists k :: 0 <= k < |s.hist[id].posts|
                                && UnixMilli(s.hist[id].posts[k].start) < s.hist[id].posts[k].due
  }

  lemma Goes(s: State, a: Action, t: State)
    requires Enabled(s, a)
    requires var u := Apply(s, a);
             && u.clock == t.clock && u.records == t.records && u.queue == t.queue && u.dlq == t.dlq
             && u.pubs == t.pubs && u.workers == t.workers && u.hist == t.hist
             && u.issued == t.issued && u.crashes == t.crashes
    ensures Runs(s, [a], t)
  {
    RunOne(s, a, t);
  }

  // --- a concrete run: one message, two workers, no time passing ---

  const MESSAGE: Msg := Msg("http://example.com", "", true, 0, 0, 3, Queued, 0, "")
  const RETRIED: Msg := Msg("http://example.com", "", true, 0, 1, 3, Retrying, 2000, "refused")

  function Published(workers: map<WorkerId, Worker>): State {
    State(0, map[0 := Record(MESSAGE, None)], map[0 := 0], [], map[], workers,
          map[0 := History(MESSAGE, [], 0, InQueue)], [0], 0)
  }

  lemma PublishIt()
    ensures Runs(Init(0), [Publish(0, MESSAGE), PublishSave(0), PublishAdd(0)], Published(map[]))
  {
    var s1 := Apply(Init(0), Publish(0, MESSAGE));
    var s2 := Apply(s1, PublishSave(0));
    Goes(Init(0), Publish(0, MESSAGE), s1);
    Goes(s1, PublishSave(0), s2);
    Goes(s2, PublishAdd(0), Published(map[]));
    RunThree(Init(0), Publish(0, MESSAGE), s1, PublishSave(0), s2, PublishAdd(0), Published(map[]));
  }

  /** A worker starts, reads the clock and lists the message. */
  lemma ListIt(ws: map<WorkerId, Worker>, w: WorkerId)
    requires w !in ws
    ensures Runs(Published(ws), [Start(w), Poll(w), Snapshot(w, [0])], Published(ws[w := Scanning(0, [0])]))
  {
    var s1, s2 := Published(ws[w := Idle]), Published(ws[w := Polling(0)]);
    var s3 := Published(ws[w := Scanning(0, [0])]);
    Goes(Published(ws), Start(w), s1);
    Goes(s1, Poll(w), s2);
    Goes(s2, Snapshot(w, [0]), s3);
    RunThree(Published(ws), Start(w), s1, Poll(w), s2, Snapshot(w, [0]), s3);
  }

  function Both(): State {
    Published(map[1 := Scanning(0, [0]), 2 := Scanning(0, [0])])
  }

  /** Worker 1 inside `deliver` while worker 2 still lists the message. */
  function Working(g: Stage, rec: Msg, posts: seq<Post>): State {
    State(0, map[0 := Record(rec, None)], map[], [], map[],
          map[1 := Busy(0, [], 0, g), 2 := Scanning(0, [0])], map[0 := History(MESSAGE, posts, 1, HeldBy(1))], [0], 0)
  }

  const PENDING: seq<Post> := [Post(0, 0, Pending, "")]
  const REFUSED: seq<Post> := [Post(0, 0, Failure, "refused")]

  lemma GoClaim()
    ensures Runs(Both(), [Claim(1, 0)], Working(Claimed, MESSAGE, []))
  {
    assert [0][1..] == [];
    Goes(Both(), Claim(1, 0), Working(Claimed, MESSAGE, []));
  }

  lemma GoLoad()
    ensures Runs(Working(Claimed, MESSAGE, []), [Load(1)], Working(Loaded(MESSAGE), MESSAGE, []))
  {
    Goes(Working(Claimed, MESSAGE, []), Load(1), Working(Loaded(MESSAGE), MESSAGE, []));
  }

  lemma GoSend()
    ensures Runs(Working(Loaded(MESSAGE), MESSAGE, []), [Send(1)], Working(Sent(MESSAGE), MESSAGE, PENDING))
  {
    var none: seq<Post> := [];
    assert none + [Post(0, 0, Pending, "")] == PENDING;
    Goes(Working(Loaded(MESSAGE), MESSAGE, none), Send(1), Working(Sent(MESSAGE), MESSAGE, PENDING));
  }

  const ANSWER: Action := Respond(1, false, "refused")

  lemma GoAnswer()
    ensures Runs(Working(Sent(MESSAGE), MESSAGE, PENDING), [ANSWER],
                 Working(Rejected(MESSAGE, "refused"), MESSAGE, REFUSED))
  {
    assert Resolve(PENDING, Failure, "refused") == REFUSED;
    Goes(Working(Sent(MESSAGE), MESSAGE, PENDING), ANSWER, Working(Rejected(MESSAGE, "refused"), MESSAGE, REFUSED));
  }

  lemma GoSchedule()
    ensures Runs(Working(Rejected(MESSAGE, "refused"), MESSAGE, REFUSED), [Schedule(1)],
                 Working(SaveRetry(RETRIED), MESSAGE, REFUSED))
  {
    NextAttemptExact(0, 1);
    assert Pow2(1) == 2;
    Goes(Working(Rejected(MESSAGE, "refused"), MESSAGE, REFUSED), Schedule(1),
         Working(SaveRetry(RETRIED), MESSAGE, REFUSED));
  }

  lemma GoSave()
    ensures Runs(Working(SaveRetry(RETRIED), MESSAGE, REFUSED), [Save(1)],
                 Working(AddRetry(RETRIED), RETRIED, REFUSED))
  {
    Goes(Working(SaveRetry(RETRIED), MESSAGE, REFUSED), Save(1), Working(AddRetry(RETRIED), RETRIED, REFUSED));
  }

  /** Worker 1 puts the message back for two seconds later ... */
  function Requeued(): State {
    State(0, map[0 := Record(RETRIED, None)], map[0 := 2000], [], map[],
          map[1 := Scanning(0, []), 2 := Scanning(0, [0])], map[0 := History(MESSAGE, REFUSED, 1, InQueue)], [0], 0)
  }

  lemma GoEnlist()
    ensures Runs(Working(AddRetry(RETRIED), RETRIED, REFUSED), [Enlist(1)], Requeued())
  {
    Goes(Working(AddRetry(RETRIED), RETRIED, REFUSED), Enlist(1), Requeued());
  }

  /** ... and worker 2, with its old snapshot, takes it at once. */
  function Second(g: Stage, posts: seq<Post>): State {
    State(0, map[0 := Record(RETRIED, None)], map[], [], map[],
          map[1 := Scanning(0, []), 2 := Busy(0, [], 0, g)], map[0 := History(MESSAGE, posts, 2, HeldBy(2))], [0], 0)
  }

  const EARLY: seq<Post> := [Post(0, 0, Failure, "refused"), Post(0, 2000, Pending, "")]

  lemma GoClaimAgain()
    ensures Runs(Requeued(), [Claim(2, 0)], Second(Claimed, REFUSED))
  {
    assert [0][1..] == [];
    Goes(Requeued(), Claim(2, 0), Second(Claimed, REFUSED));
  }

  lemma GoLoadAgain()
    ensures Runs(Second(Claimed, REFUSED), [Load(2)], Second(Loaded(RETRIED), REFUSED))
  {
    Goes(Second(Claimed, REFUSED), Load(2), Second(Loaded(RETRIED), REFUSED));
  }

  lemma GoSendAgain()
    ensures Runs(Second(Loaded(RETRIED), REFUSED), [Send(2)], Second(Sent(RETRIED), EARLY))
  {
    assert REFUSED + [Post(0, 2000, Pending, "")] == EARLY;
    Goes(Second(Loaded(RETRIED), REFUSED), Send(2), Second(Sent(RETRIED), EARLY));
  }

  lemma TakeItEarly()
    ensures Runs(Requeued(), [Claim(2, 0), Load(2), Send(2)], Second(Sent(RETRIED), EARLY))
    ensures SentEarly(Second(Sent(RETRIED), EARLY), 0)
  {
    GoClaimAgain(); GoLoadAgain(); GoSendAgain();
    RunThree(Requeued(), Claim(2, 0), Second(Claimed, REFUSED), Load(2), Second(Loaded(RETRIED), REFUSED),
             Send(2), Second(Sent(RETRIED), EARLY));
    var t := Second(Sent(RETRIED), EARLY);
    assert t.hist[0].posts[1] == Post(0, 2000, Pending, "");
  }

  lemma FromBothToRequeued()
    ensures Runs(Both(), [Claim(1, 0), Load(1), Send(1)] + ([ANSWER, Schedule(1), Save(1)] + [Enlist(1)]), Requeued())
  {
    var s1, s2 := Working(Claimed, MESSAGE, []), Working(Loaded(MESSAGE), MESSAGE, []);
    var s3, s4 := Working(Sent(MESSAGE), MESSAGE, PENDING), Working(Rejected(MESSAGE, "refused"), MESSAGE, REFUSED);
    var s5, s6 := Working(SaveRetry(RETRIED), MESSAGE, REFUSED), Working(AddRetry(RETRIED), RETRIED, REFUSED);
    GoClaim(); GoLoad(); GoSend(); GoAnswer(); GoSchedule(); GoSave(); GoEnlist();
    RunThree(Both(), Claim(1, 0), s1, Load(1), s2, Send(1), s3);
    RunThree(s3, ANSWER, s4, Schedule(1), s5, Save(1), s6);
    RunThen(s3, [ANSWER, Schedule(1), Save(1)], s6, [Enlist(1)], Requeued());
    RunThen(Both(), [Claim(1, 0), Load(1), Send(1)], s3, [ANSWER, Schedule(1), Save(1)] + [Enlist(1)], Requeued());
  }

  // --- how many workers a run has ---

  /** A run in which there are never more than `n` workers. */
  ghost predicate RunWithin(n: nat, s: State, run: seq<Action>)
    decreases |run|
  {
    |s.workers| <= n && (run == [] || (Enabled(s, run[0]) && RunWithin(n, Apply(s, run[0]), run[1..])))
  }

  ghost predicate ReachableWith(n: nat, s: State) {
    exists clock: int, run: seq<Action> ::
      RunWithin(n, Init(clock), run) && Legal(Init(clock), run) && Final(Init(clock), run) == s
  }

  function Starts(run: seq<Action>): nat {
    if run == [] then 0 else (if run[0].Start? then 1 else 0) + Starts(run[1..])
  }

  lemma {:induction false} StartsConcat(a: seq<Action>, b: seq<Action>)
    ensures Starts(a + b) == Starts(a) + Starts(b)
    decreases |a|
  {
    if a == [] {
      assert a + b == b;
    } else {
      assert (a + b)[0] == a[0] && (a + b)[1..] == a[1..] + b;
      StartsConcat(a[1..], b);
    }
  }

  lemma {:induction false} SubsetSize(a: set<WorkerId>, b: set<WorkerId>)
    requires a <= b
    ensures |a| <= |b|
    decreases |a|
  {
    if a != {} {
      var x :| x in a;
      SubsetSize(a - {x}, b - {x});
    }
  }

  /** Only Start adds a worker. */
  lemma WorkersAfter(s: State, a: Action)
    requires Enabled(s, a)
    ensures |Apply(s, a).workers| <= |s.workers| + if a.Start? then 1 else 0
  {
    var m, t := s.workers, Apply(s, a).workers;
    assert |m.Keys| == |m| && |t.Keys| == |t|;
    if a.Start? {
      assert t.Keys == m.Keys + {a.w};
    } else {
      WorkersOnlyLeave(s, a);
      SubsetSize(t.Keys, m.Keys);
    }
  }

  lemma {:induction false} StartsBound(n: nat, s: State, run: seq<Action>)
    requires Legal(s, run) && |s.workers| + Starts(run) <= n
    ensures RunWithin(n, s, run)
    decreases |run|
  {
    if run != [] {
      WorkersAfter(s, run[0]);
      StartsBound(n, Apply(s, run[0]), run[1..]);
    }
  }

  lemma AtMostOneIsSolo(s: State)
    requires |s.workers| <= 1
    ensures Solo(s)
  {
    forall v, w | v in s.workers && w in s.workers ensures v == w {
      if v != w {
        assert |s.workers.Keys| == |s.workers|;
        assert {v, w} <= s.workers.Keys && |{v, w}| == 2;
        SubsetSize({v, w}, s.workers.Keys);
      }
    }
  }

  lemma {:induction false} WithinOneIsSolo(s: State, run: seq<Action>, n: nat)
    requires RunWithin(n, s, run) && n <= 1
    ensures SoloRun(s, run)
    decreases |run|
  {
    AtMostOneIsSolo(s);
    if run != [] {
      WithinOneIsSolo(Apply(s, run[0]), run[1..], n);
    }
  }

  // --- exactly from two workers on ---

  lemma FromInitToBoth() returns (run: seq<Action>)
    ensures Runs(Init(0), run, Both()) && Starts(run) == 2
  {
    var one := map[1 := Scanning(0, [0])];
    PublishIt();
    ListIt(map[], 1);
    ListIt(one, 2);
    assert map[][1 := Scanning(0, [0])] == one;
    assert one[2 := Scanning(0, [0])] == map[1 := Scanning(0, [0]), 2 := Scanning(0, [0])];
    var first, second := [Start(1), Poll(1), Snapshot(1, [0])], [Start(2), Poll(2), Snapshot(2, [0])];
    var publish := [Publish(0, MESSAGE), PublishSave(0), PublishAdd(0)];
    RunThen(Published(map[]), first, Published(one), second, Both());
    RunThen(Init(0), publish, Published(map[]), first + second, Both());
    run := publish + (first + second);
    StartsOfThree(Publish(0, MESSAGE), PublishSave(0), PublishAdd(0));
    StartsOfThree(Start(1), Poll(1), Snapshot(1, [0]));
    StartsOfThree(Start(2), Poll(2), Snapshot(2, [0]));
    StartsConcat(first, second);
    StartsConcat(publish, first + second);
  }

  lemma StartsOfThree(a: Action, b: Action, c: Action)
    requires !b.Start? && !c.Start?
    ensures Starts([a, b, c]) == if a.Start? then 1 else 0
  {
    assert [a, b, c][1..] == [b, c] && [b, c][1..] == [c] && [c][1..] == [];
    assert Starts([c]) == 0;
    assert Starts([b, c]) == 0;
  }

  /** Worker 2 takes the message from its old snapshot, two seconds before it is due. */
  lemma TwoWorkersCanBeEarly() returns (run: seq<Action>, t: State)
    ensures Runs(Init(0), run, t) && Starts(run) == 2 && SentEarly(t, 0)
  {
    var head := FromInitToBoth();
    FromBothToRequeued();
    TakeItEarly();
    t := Second(Sent(RETRIED), EARLY);
    var first, second := [Claim(1, 0), Load(1), Send(1)], [ANSWER, Schedule(1), Save(1)];
    var mid := first + (second + [Enlist(1)]);
    var rest := [Claim(2, 0), Load(2), Send(2)];
    RunThen(Both(), mid, Requeued(), rest, t);
    RunThen(Init(0), head, Both(), mid + rest, t);
    run := head + (mid + rest);
    StartsOfThree(Claim(1, 0), Load(1), Send(1));
    StartsOfThree(ANSWER, Schedule(1), Save(1));
    StartsOfThree(Claim(2, 0), Load(2), Send(2));
    StartsConcat(second, [Enlist(1)]);
    StartsConcat(first, second + [Enlist(1)]);
    StartsConcat(mid, rest);
    StartsConcat(head, mid + rest);
    assert [Enlist(1)][1..] == [] && Starts([Enlist(1)]) == 0;
  }

  /** With up to `n` workers at a time, no POST is ever early. */
  ghost predicate AlwaysPrompt(n: nat) {
    forall s: State, id: Id :: ReachableWith(n, s) ==> !SentEarly(s, id)
  }

  lemma NeverEarlyIffOneWorker(n: nat)
    ensures AlwaysPrompt(n) <==> n <= 1
  {
    if n <= 1 {
      forall s: State, id: Id | ReachableWith(n, s) ensures !SentEarly(s, id) {
        OneWorkerIsPrompt(n, s, id);
      }
      assert AlwaysPrompt(n);
    } else {
      TwoWorkersSuffice(n);
    }
  }

  lemma TwoWorkersSuffice(n: nat)
    requires n >= 2
    ensures !AlwaysPrompt(n)
  {
    var run, t := TwoWorkersCanBeEarly();
    assert Legal(Init(0), run) && Final(Init(0), run) == t && |Init(0).workers| == 0;
    StartsBound(n, Init(0), run);
    assert ReachableWith(n, t);
    assert SentEarly(t, 0);
  }

  lemma OneWorkerIsPrompt(n: nat, s: State, id: Id)
    requires n <= 1 && ReachableWith(n, s)
    ensures !SentEarly(s, id)
  {
    var clock: int, run: seq<Action> :|
      RunWithin(n, Init(clock), run) && Legal(Init(clock), run) && Final(Init(clock), run) == s;
    WithinOneIsSolo(Init(clock), run, n);
    assert SoloReachable(s);
    if id in s.hist {
      forall k | 0 <= k < |s.hist[id].posts|
        ensures UnixMilli(s.hist[id].posts[k].start) >= s.hist[id].posts[k].due
      {
        NeverEarly(s, id, k);
      }
    }
  }
}
