/** How transactions and pipelines of the same commands compare. */
module Transactions {
  import opened Wrappers
  import opened ReplyTree
  import opened Commands
  import opened Folds
  import Json

  // --- when nothing is refused ---

  predicate Refused<R, A>(w: World<R, A>, a: A, req: Request) {
    TransactionRefusal(w, a, req).Some?
  }

  predicate NoneRefused<R, A>(w: World<R, A>, a: A, reqs: seq<Request>) {
    forall i :: 0 <= i < |reqs| ==> !Refused(w, a, reqs[i])
  }

  /** Every connection the pipeline opens is up and accepts the login. */
  ghost predicate Connects<R, A>(w: World<R, A>, a: A, r: R, queue: seq<Command>) {
    forall k :: 0 <= k < |queue| ==>
      w.up(RunAll(w, a, r, queue[..k]).0) && Login(w, RunAll(w, a, r, queue[..k]).0, w.creds(a)).None?
  }

  predicate NoRestToken<R, A>(w: World<R, A>, queue: seq<Command>) {
    forall k :: 0 <= k < |queue| ==> !IsRestToken(w, queue[k])
  }

  lemma UnrefusedStep<R, A>(w: World<R, A>, a: A, s: State<R>, req: Request)
    requires req != [] && !Refused(w, a, req) && !IsRestToken(w, ToCommand(w, req))
    requires w.up(s.redis) && Login(w, s.redis, w.creds(a)).None?
    ensures var (t, answer) := PipelineStep(w, a, s, req);
      var (r, reply) := w.step(s.redis, w.creds(a), ToCommand(w, req));
      t.redis == r && answer == Answer(reply)
  {
  }

  /** A pipeline of unrefused commands runs them all and answers each reply. */
  lemma PipelineRunsAll<R(!new), A>(w: World<R, A>, a: A, s: State<R>, reqs: seq<Request>)
    requires NoEmpty(reqs) && NoneRefused(w, a, reqs)
    requires NoRestToken(w, ToCommands(w, reqs)) && Connects(w, a, s.redis, ToCommands(w, reqs))
    ensures var (t, answers) := Pipeline(w, a, s, reqs);
      var (r, replies) := RunAll(w, a, s.redis, ToCommands(w, reqs));
      t.redis == r && answers == Answers(replies)
  {
    var queue := ToCommands(w, reqs);
    var f, h := PipelineSteps(w, a), RedisSteps(w, a);
    forall t: State<R>, k | 0 <= k < |reqs| && RedisOf()(t) == Fold(h, s.redis, queue[..k]).0
      ensures RedisOf()(f(t, reqs[k]).0) == h(t.redis, queue[k]).0
      ensures f(t, reqs[k]).1 == Answer(h(t.redis, queue[k]).1)
    {
      assert t.redis == RunAll(w, a, s.redis, queue[..k]).0;
      assert queue[k] == ToCommand(w, reqs[k]);
      UnrefusedStep(w, a, t, reqs[k]);
    }
    FoldSimulates(f, h, RedisOf(), Answer, s, reqs, queue, |reqs|);
    assert reqs[..|reqs|] == reqs && queue[..|reqs|] == queue;
  }

  /** A transaction and a pipeline of the same commands leave the same data and give the same answers. */
  lemma TransactionRefinesPipeline<R(!new), A>(w: World<R, A>, a: A, s: State<R>, reqs: seq<Request>)
    requires reqs != [] && NoEmpty(reqs) && NoneRefused(w, a, reqs)
    requires FirstQueueError(w, a, s.redis, ToCommands(w, reqs)).None?
    requires NoRestToken(w, ToCommands(w, reqs)) && Connects(w, a, s.redis, ToCommands(w, reqs))
    ensures var (t, d) := MultiExec(w, a, s, reqs);
      var (p, answers) := Pipeline(w, a, s, reqs);
      t.redis == p.redis && d == Batch(answers)
  {
    var queue := ToCommands(w, reqs);
    UnrefusedNonEmpty(w, a, reqs);
    PipelineRunsAll(w, a, s, reqs);
    assert queue[..0] == [] && RunAll(w, a, s.redis, queue[..0]).0 == s.redis;
  }

  // --- when something is ---

  lemma {:induction false} FirstRefusalIsFirst<R, A>(w: World<R, A>, a: A, reqs: seq<Request>, i: nat)
    requires i < |reqs| && Refused(w, a, reqs[i])
    requires forall k :: 0 <= k < i ==> !Refused(w, a, reqs[k])
    ensures FirstRefusal(w, a, reqs) == TransactionRefusal(w, a, reqs[i])
    decreases i
  {
    if i > 0 {
      assert !Refused(w, a, reqs[0]);
      assert forall k :: 0 <= k < i - 1 ==> reqs[1..][k] == reqs[k + 1];
      FirstRefusalIsFirst(w, a, reqs[1..], i - 1);
    }
  }

  /** One refused command and the transaction sends, counts and records nothing. */
  lemma RefusedTransactionSendsNothing<R, A>(w: World<R, A>, a: A, s: State<R>, reqs: seq<Request>, i: nat)
    requires i < |reqs| && Refused(w, a, reqs[i])
    requires forall k :: 0 <= k < i ==> !Refused(w, a, reqs[k])
    ensures MultiExec(w, a, s, reqs) == (s, Failure(TransactionRefusal(w, a, reqs[i]).value))
  {
    FirstRefusalIsFirst(w, a, reqs, i);
  }

  function Kept<R, A>(w: World<R, A>, a: A): Request -> bool {
    req => !Refused(w, a, req)
  }

  /** What a pipeline answers to a request that a transaction would refuse. */
  function RefusalAnswer<R, A>(w: World<R, A>, a: A, req: Request): Data<Reply> {
    if req == [] then Failure(EMPTY_PIPELINE_COMMAND)
    else Failure(TransactionRefusal(w, a, req).GetOr([]))
  }

  /**
   * A pipeline answers every request. The refused ones get their error and change nothing at all;
   * the others are executed and answered as if they had been sent on their own.
   */
  lemma PipelineSkipsRefused<R(!new), A>(w: World<R, A>, a: A, s: State<R>, reqs: seq<Request>)
    ensures var (t, answers) := Pipeline(w, a, s, reqs);
      && |answers| == |reqs|
      && (t, Pick(Kept(w, a), reqs, answers)) == Pipeline(w, a, s, Filter(Kept(w, a), reqs))
      && forall i :: 0 <= i < |reqs| && Refused(w, a, reqs[i]) ==> answers[i] == RefusalAnswer(w, a, reqs[i])
  {
    var skipped := (req: Request) => RefusalAnswer(w, a, req);
    FoldSkips(PipelineSteps(w, a), s, reqs, Kept(w, a), skipped);
    forall i | 0 <= i < |reqs| && Refused(w, a, reqs[i])
      ensures Pipeline(w, a, s, reqs).1[i] == skipped(reqs[i])
    {
      assert !Kept(w, a)(reqs[i]);
    }
  }

  /** A transaction answers with one error exactly when it was stopped before EXEC, and then changed no data. */
  lemma TransactionFailsIff<R, A>(w: World<R, A>, a: A, s: State<R>, reqs: seq<Request>)
    ensures var (t, d) := MultiExec(w, a, s, reqs);
      && (d.Failure? <==>
        || reqs == []
        || (exists i :: 0 <= i < |reqs| && Refused(w, a, reqs[i]))
        || !w.up(s.redis)
        || Login(w, s.redis, w.creds(a)).Some?
        || exists i ::
             && 0 <= i < |reqs| && reqs[i] != []
             && w.queueError(s.redis, w.creds(a), ToCommand(w, reqs[i])).Some?)
      && (d.Failure? ==> t.redis == s.redis)
      && (!d.Failure? ==> d.Batch? && |d.answers| == |reqs|)
  {
    UnrefusedNonEmpty(w, a, reqs);
    if FirstRefusal(w, a, reqs).None? {
      var queue := ToCommands(w, reqs);
      QueueErrorIff(w, a, s.redis, queue);
      assert forall i :: 0 <= i < |reqs| ==> queue[i] == ToCommand(w, reqs[i]);
    } else {
      var i :| 0 <= i < |reqs| && !TransactionRefusal(w, a, reqs[i]).None?;
      assert Refused(w, a, reqs[i]);
    }
  }

  lemma {:induction false} QueueErrorIff<R, A>(w: World<R, A>, a: A, r: R, queue: seq<Command>)
    ensures FirstQueueError(w, a, r, queue).Some? <==>
      exists i :: 0 <= i < |queue| && w.queueError(r, w.creds(a), queue[i]).Some?
    decreases |queue|
  {
    if queue != [] {
      QueueErrorIff(w, a, r, queue[1..]);
      assert forall i :: 0 <= i < |queue[1..]| ==> queue[1..][i] == queue[i + 1];
      if i :| 1 <= i < |queue| && w.queueError(r, w.creds(a), queue[i]).Some? {
        assert queue[1..][i - 1] == queue[i];
      }
    }
  }

  // --- an error reply aborts nothing ---

  /**
   * In a transaction that is not stopped before EXEC, every command runs, whatever the others reply;
   * exactly the commands with an error reply are answered with an error. So a transaction is not
   * all-or-nothing, although docs/api/pipeline.mdx says that any error aborts it.
   */
  lemma ErrorsAbortNothing<R, A>(w: World<R, A>, a: A, s: State<R>, reqs: seq<Request>)
    requires NoEmpty(reqs) && MultiExec(w, a, s, reqs).1.Batch?
    ensures var (t, d) := MultiExec(w, a, s, reqs);
      var (r, replies) := RunAll(w, a, s.redis, ToCommands(w, reqs));
      && t.redis == r
      && |d.answers| == |replies| == |reqs|
      && forall i :: 0 <= i < |reqs| ==> (d.answers[i].Failure? <==> replies[i].Error?)
  {
    var queue := ToCommands(w, reqs);
    var replies := RunAll(w, a, s.redis, queue).1;
    UnrefusedNonEmpty(w, a, reqs);
    assert MultiExec(w, a, s, reqs).1 == Batch(Answers(replies));
    assert forall i :: 0 <= i < |reqs| ==> Answers(replies)[i] == Answer(replies[i]);
  }

  predicate Increments(c: Command) {
    c.name == Json.Runes("INCR")
  }

  /** A counter with one command that increments it; any other fails. */
  function CounterStep(r: int, u: Credentials, c: Command): (int, Reply) {
    if Increments(c) then (r + 1, Int(r + 1)) else (r, Error(Ascii("ERR")))
  }

  function Counter(): World<int, ()> {
    World(
      (a, name) => None, name => None, name => name, name => name, text => Json.Runes(text), text => false,
      body => None, body => None, n => Ok(""), a => DEFAULT_USER, r => true, (r, args) => None,
      CounterStep, (r, u, c) => None)
  }

  lemma {:induction false} CounterRuns(r: int, queue: seq<Command>)
    ensures var (q, replies) := RunAll(Counter(), (), r, queue);
      && q == r + |Filter(Increments, queue)|
      && forall i :: 0 <= i < |queue| ==> (replies[i].Error? <==> !Increments(queue[i]))
    decreases |queue|
  {
    if queue != [] {
      var n := |queue| - 1;
      CounterRuns(r, queue[..n]);
      assert queue == queue[..n] + [queue[n]];
      FoldSnoc(RedisSteps(Counter(), ()), r, queue[..n], queue[n]);
      FilterSnoc(Increments, queue[..n], queue[n]);
    }
  }

  /** For example, on this counter every increment counts, whichever of the other commands fail. */
  lemma IncrementsCount(s: State<int>, reqs: seq<Request>)
    requires reqs != [] && NoEmpty(reqs)
    ensures var (t, d) := MultiExec(Counter(), (), s, reqs);
      var queue := ToCommands(Counter(), reqs);
      && t.redis == s.redis + |Filter(Increments, queue)|
      && d.Batch? && |d.answers| == |reqs|
      && forall i :: 0 <= i < |reqs| ==> (d.answers[i].Failure? <==> !Increments(queue[i]))
  {
    var w := Counter();
    var queue := ToCommands(w, reqs);
    UnrefusedNonEmpty(w, (), reqs);
    QueueErrorIff(w, (), s.redis, queue);
    CounterRuns(s.redis, queue);
    ErrorsAbortNothing(w, (), s, reqs);
  }
}
