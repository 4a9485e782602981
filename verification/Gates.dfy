/**
 * What becomes of a request, in terms of the gates, the login and Redis themselves: who is stopped,
 * what reaches Redis, and what is counted, recorded and answered.
 */
module Gates {
  import opened Wrappers
  import opened ReplyTree
  import opened Commands
  import opened Folds
  import opened Transactions
  import Base64
  import Json

  // --- who is stopped ---

  /** The token's gate, or if that lets the name pass the gate for dangerous commands, answers `e`. */
  predicate Stops<R, A>(w: World<R, A>, a: A, name: GoString, e: Base64.Bytes) {
    || w.allowed(a, w.upper(name)) == Some(e)
    || (w.allowed(a, w.upper(name)) == None && w.blocked(w.upper(name)) == Some(e))
  }

  predicate LetsPass<R, A>(w: World<R, A>, a: A, name: GoString) {
    w.allowed(a, w.upper(name)) == None && w.blocked(w.upper(name)) == None
  }

  /** The name of a request's command. */
  function NameOf<R, A>(w: World<R, A>, req: Request): GoString
    requires req != []
  {
    match req[0]
    case Text(s) => s
    case Literal(t) => w.sprint(t)
  }

  /** A command that a gate stops changes nothing, and is answered with what the gate said. */
  lemma GateStops<R, A>(w: World<R, A>, a: A, s: State<R>, c: Command, e: Base64.Bytes)
    requires Stops(w, a, c.name, e)
    ensures Execute(w, a, s, c) == (s, Failure(e))
  {
  }

  lemma GateStopsBody<R, A>(w: World<R, A>, a: A, s: State<R>, body: string, req: Request, e: Base64.Bytes)
    requires w.decode(body) == Some(req) && req != [] && Stops(w, a, NameOf(w, req), e)
    ensures SingleBody(w, a, s, body) == (s, Failure(e))
  {
    GateStops(w, a, s, ToCommand(w, req), e);
  }

  lemma GateStopsPath<R, A>(w: World<R, A>, a: A, s: State<R>, segments: seq<GoString>, e: Base64.Bytes)
    requires segments != [] && Stops(w, a, segments[0], e)
    ensures PathRequest(w, a, s, segments) == (s, Failure(e))
  {
    GateStops(w, a, s, Command(segments[0], Texts(segments[1..])), e);
  }

  /** A request is refused exactly if it is empty or one of the gates stops its name. */
  lemma RefusedIff<R, A>(w: World<R, A>, a: A, req: Request)
    ensures Refused(w, a, req) <==> req == [] || !LetsPass(w, a, NameOf(w, req))
    ensures req != [] ==> forall e :: Stops(w, a, NameOf(w, req), e) ==> RefusalAnswer(w, a, req) == Failure(e)
    ensures req == [] ==> RefusalAnswer(w, a, req) == Failure(Ascii("ERR empty pipeline command"))
  {
  }

  /** In a pipeline, the stopped requests get what their gate said; if all are stopped nothing changes. */
  lemma GateStopsInPipeline<R(!new), A>(w: World<R, A>, a: A, s: State<R>, reqs: seq<Request>)
    ensures var (t, answers) := Pipeline(w, a, s, reqs);
      && |answers| == |reqs|
      && (forall i, e :: 0 <= i < |reqs| && reqs[i] != [] && Stops(w, a, NameOf(w, reqs[i]), e) ==>
            answers[i] == Failure(e))
      && ((forall i :: 0 <= i < |reqs| ==> reqs[i] == [] || !LetsPass(w, a, NameOf(w, reqs[i]))) ==> t == s)
  {
    PipelineSkipsRefused(w, a, s, reqs);
    forall i | 0 <= i < |reqs|
      ensures Refused(w, a, reqs[i]) <==> reqs[i] == [] || !LetsPass(w, a, NameOf(w, reqs[i]))
    {
      RefusedIff(w, a, reqs[i]);
    }
    if forall i :: 0 <= i < |reqs| ==> Refused(w, a, reqs[i]) {
      NothingKept(Kept(w, a), reqs);
    }
  }

  lemma {:induction false} NothingKept(keep: Request -> bool, reqs: seq<Request>)
    requires forall i :: 0 <= i < |reqs| ==> !keep(reqs[i])
    ensures Filter(keep, reqs) == []
    decreases |reqs|
  {
    if reqs != [] {
      NothingKept(keep, reqs[..|reqs| - 1]);
    }
  }

  /** A transaction is answered with the first empty or stopped request, and nothing is sent, counted or recorded. */
  lemma GateStopsTransaction<R, A>(w: World<R, A>, a: A, s: State<R>, reqs: seq<Request>, i: nat, e: Base64.Bytes)
    requires i < |reqs|
    requires forall k :: 0 <= k < i ==> reqs[k] != [] && LetsPass(w, a, NameOf(w, reqs[k]))
    requires if reqs[i] == [] then e == Ascii("ERR empty transaction command") else Stops(w, a, NameOf(w, reqs[i]), e)
    ensures MultiExec(w, a, s, reqs) == (s, Failure(e))
  {
    forall k | 0 <= k <= i ensures Refused(w, a, reqs[k]) <==> reqs[k] == [] || !LetsPass(w, a, NameOf(w, reqs[k])) {
      RefusedIff(w, a, reqs[k]);
    }
    RefusedTransactionSendsNothing(w, a, s, reqs, i);
  }

  // --- the login ---

  /** AUTH is sent unless there are no credentials, with the user before the password, and accepted. */
  predicate LogsIn<R, A>(w: World<R, A>, r: R, u: Credentials) {
    if u.password == [] then u.username == [] || w.auth(r, [u.username]) == None
    else w.auth(r, [u.username, u.password]) == None
  }

  lemma LoginIff<R, A>(w: World<R, A>, r: R, u: Credentials)
    ensures Login(w, r, u) == None <==> LogsIn(w, r, u)
    ensures u.password != [] ==> Login(w, r, u) == w.auth(r, [u.username, u.password])
    ensures u.password == [] && u.username != [] ==> Login(w, r, u) == w.auth(r, [u.username])
  {
  }

  // --- ACL RESTTOKEN ---

  predicate AsksForToken<R, A>(w: World<R, A>, c: Command) {
    && w.lower(c.name) == Json.Runes("acl")
    && c.args != [] && w.lower(NameOf(w, c.args)) == Json.Runes("resttoken")
  }

  /** The new token stands for the user and the password in the second and the third argument. */
  lemma TokenIssued<R, A>(w: World<R, A>, a: A, s: State<R>, c: Command, token: string)
    requires LetsPass(w, a, c.name) && AsksForToken(w, c) && |c.args| == 3
    requires var user := Credentials(NameOf(w, c.args[1..]), NameOf(w, c.args[2..]));
      LogsIn(w, s.redis, user) && w.random(s.drawn) == Ok(token)
    ensures var (t, d) := Execute(w, a, s, c);
      && t == s.(tokens := s.tokens[token := Credentials(NameOf(w, c.args[1..]), NameOf(w, c.args[2..]))],
                 drawn := s.drawn + 1)
      && d == Success(Text(Ascii(token)))
  {
  }

  /** Without three arguments, an accepted login and a random token none is issued, and no data changes. */
  lemma TokenRefused<R, A>(w: World<R, A>, a: A, s: State<R>, c: Command)
    requires LetsPass(w, a, c.name) && AsksForToken(w, c)
    ensures var (t, d) := Execute(w, a, s, c);
      && t.(drawn := s.drawn, tokens := s.tokens) == s
      && (|c.args| != 3 ==> d == Failure(Ascii("ERR invalid syntax. Usage: ACL RESTTOKEN username password")))
      && (d.Failure? ==> t.tokens == s.tokens)
      && (d.Failure? <==>
            || |c.args| != 3
            || !LogsIn(w, s.redis, Credentials(NameOf(w, c.args[1..]), NameOf(w, c.args[2..])))
            || w.random(s.drawn).Err?)
  {
  }

  // --- what reaches Redis ---

  /** A command that passes runs on Redis as its caller; it is counted, recorded and answered with the reply. */
  lemma CommandRuns<R, A>(w: World<R, A>, a: A, s: State<R>, c: Command)
    requires LetsPass(w, a, c.name) && !AsksForToken(w, c) && w.up(s.redis) && LogsIn(w, s.redis, w.creds(a))
    ensures var (t, d) := Execute(w, a, s, c);
      var (r, reply) := w.step(s.redis, w.creds(a), c);
      && t.redis == r
      && t.counted == s.counted + [w.upper(c.name)]
      && t.recorded == s.recorded + Json.Print([Json.Text(c.name)] + c.args) + "\n"
      && t.tokens == s.tokens && t.drawn == s.drawn
      && AnswersReply(reply, d, false)
  {
    AnswerAnswers(w.step(s.redis, w.creds(a), c).1);
  }

  /** Without Redis, or with a login that it rejects, it is counted and recorded, but no data changes. */
  lemma CommandFails<R, A>(w: World<R, A>, a: A, s: State<R>, c: Command)
    requires LetsPass(w, a, c.name) && !AsksForToken(w, c) && !(w.up(s.redis) && LogsIn(w, s.redis, w.creds(a)))
    ensures var (t, d) := Execute(w, a, s, c);
      && t == s.(counted := s.counted + [w.upper(c.name)],
                 recorded := s.recorded + Json.Print([Json.Text(c.name)] + c.args) + "\n")
      && d.Failure?
      && (!w.up(s.redis) ==> d.error == Ascii("ERR redis connection failed"))
      && (w.up(s.redis) ==> Some(d.error) == Login(w, s.redis, w.creds(a)))
  {
  }

  /** A body's request, a path: the first element names the command and the others are its arguments. */
  lemma RequestsAsCommands<R, A>(w: World<R, A>, a: A, s: State<R>, body: string, req: Request, path: seq<GoString>)
    requires w.decode(body) == Some(req) && req != []
    requires path != []
    ensures SingleBody(w, a, s, body) == Execute(w, a, s, Command(NameOf(w, req), req[1..]))
    ensures exists args ::
      && |args| == |path| - 1 && (forall i :: 0 <= i < |args| ==> args[i] == Json.Text(path[i + 1]))
      && PathRequest(w, a, s, path) == Execute(w, a, s, Command(path[0], args))
  {
    var args := Texts(path[1..]);
    assert forall i :: 0 <= i < |args| ==> args[i] == Json.Text(path[i + 1]);
    assert PathRequest(w, a, s, path) == Execute(w, a, s, Command(path[0], args));
  }

  lemma UnreadableRequests<R, A>(w: World<R, A>, a: A, s: State<R>, body: string)
    ensures w.decode(body) == None ==> SingleBody(w, a, s, body) == (s, Failure(Ascii("ERR failed to parse command")))
    ensures w.decode(body) == Some([]) ==> SingleBody(w, a, s, body) == (s, Failure(Ascii("ERR empty command")))
    ensures PathRequest(w, a, s, []) == (s, Failure(Ascii("ERR empty command")))
    ensures w.decodeAll(body) == None ==>
      && PipelineBody(w, a, s, body) == (s, Failure(Ascii("ERR failed to parse pipeline request")))
      && TransactionBody(w, a, s, body) == (s, Failure(Ascii("ERR failed to parse transaction request")))
    ensures w.decodeAll(body) == Some([]) ==>
      && PipelineBody(w, a, s, body) == (s, Failure(Ascii("ERR empty pipeline request")))
      && TransactionBody(w, a, s, body) == (s, Failure(Ascii("ERR empty transaction request")))
  {
  }

  /** The commands that a list of requests stands for. */
  predicate StandFor<R, A>(w: World<R, A>, reqs: seq<Request>, queue: seq<Command>) {
    |queue| == |reqs| && forall i :: 0 <= i < |reqs| ==>
      reqs[i] != [] && queue[i] == Command(NameOf(w, reqs[i]), reqs[i][1..])
  }

  /** A transaction that nothing stops runs all of them, in order, and answers each with its reply. */
  lemma TransactionRuns<R, A>(w: World<R, A>, a: A, s: State<R>, reqs: seq<Request>, queue: seq<Command>)
    requires reqs != [] && StandFor(w, reqs, queue) && w.up(s.redis) && LogsIn(w, s.redis, w.creds(a))
    requires forall i :: 0 <= i < |queue| ==>
      LetsPass(w, a, queue[i].name) && w.queueError(s.redis, w.creds(a), queue[i]) == None
    ensures var (t, d) := MultiExec(w, a, s, reqs);
      var (r, replies) := RunAll(w, a, s.redis, queue);
      && t == s.(redis := r, counted := s.counted + [Json.Runes("MULTI-EXEC")])
      && d.Batch? && |d.answers| == |replies|
      && forall i :: 0 <= i < |replies| ==> AnswersReply(replies[i], d.answers[i], false)
  {
    Unstopped(w, a, reqs, queue);
    QueueErrorIff(w, a, s.redis, queue);
    LoginIff(w, s.redis, w.creds(a));
    var replies := RunAll(w, a, s.redis, queue).1;
    assert MultiExec(w, a, s, reqs).1 == Batch(Answers(replies));
    forall i | 0 <= i < |replies| ensures AnswersReply(replies[i], Answers(replies)[i], false) {
      AnswerAnswers(replies[i]);
    }
  }

  lemma Unstopped<R, A>(w: World<R, A>, a: A, reqs: seq<Request>, queue: seq<Command>)
    requires StandFor(w, reqs, queue) && forall i :: 0 <= i < |queue| ==> LetsPass(w, a, queue[i].name)
    ensures FirstRefusal(w, a, reqs) == None && NoEmpty(reqs) && ToCommands(w, reqs) == queue
  {
    UnrefusedNonEmpty(w, a, reqs);
    forall i | 0 <= i < |reqs| ensures TransactionRefusal(w, a, reqs[i]) == None {
      assert LetsPass(w, a, queue[i].name);
    }
  }

  /** The first error while the commands are queued is the answer, and no data changes. */
  lemma QueueErrorStops<R, A>(
    w: World<R, A>, a: A, s: State<R>, reqs: seq<Request>, queue: seq<Command>, i: nat, e: Base64.Bytes)
    requires StandFor(w, reqs, queue) && i < |queue| && w.up(s.redis) && LogsIn(w, s.redis, w.creds(a))
    requires forall k :: 0 <= k < |queue| ==> LetsPass(w, a, queue[k].name)
    requires forall k :: 0 <= k < i ==> w.queueError(s.redis, w.creds(a), queue[k]) == None
    requires w.queueError(s.redis, w.creds(a), queue[i]) == Some(e)
    ensures MultiExec(w, a, s, reqs) == (s.(counted := s.counted + [Json.Runes("MULTI-EXEC")]), Failure(e))
  {
    Unstopped(w, a, reqs, queue);
    LoginIff(w, s.redis, w.creds(a));
    FirstIsFirst(w, a, s.redis, queue, i);
  }

  lemma {:induction false} FirstIsFirst<R, A>(w: World<R, A>, a: A, r: R, queue: seq<Command>, i: nat)
    requires i < |queue| && w.queueError(r, w.creds(a), queue[i]).Some?
    requires forall k :: 0 <= k < i ==> w.queueError(r, w.creds(a), queue[k]) == None
    ensures FirstQueueError(w, a, r, queue) == w.queueError(r, w.creds(a), queue[i])
    decreases i
  {
    if i > 0 {
      assert w.queueError(r, w.creds(a), queue[0]) == None;
      assert forall k :: 0 <= k < i - 1 ==> queue[1..][k] == queue[k + 1];
      FirstIsFirst(w, a, r, queue[1..], i - 1);
    }
  }

  /** Redis runs the commands one after the other, each on the data the one before it left. */
  lemma RunsInOrder<R, A>(w: World<R, A>, a: A, r: R, queue: seq<Command>, c: Command)
    ensures RunAll(w, a, r, []) == (r, [])
    ensures var (q, replies) := RunAll(w, a, r, queue);
      RunAll(w, a, r, queue + [c]) == (w.step(q, w.creds(a), c).0, replies + [w.step(q, w.creds(a), c).1])
  {
    FoldSnoc(RedisSteps(w, a), r, queue, c);
  }

  /** Error messages of the server are the characters of the message. */
  lemma AsciiIsText(s: string, i: nat)
    requires i < |s| && s[i] as int < 128
    ensures |Ascii(s)| == |s| && Ascii(s)[i] == s[i] as int
  {
  }
}
