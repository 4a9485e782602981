/**
 * Single commands, pipelines and transactions. Redis is an abstract deterministic machine with
 * states of type R; A is whoever is authenticated.
 */
module Commands {
  import opened Wrappers
  import opened Base64
  import opened ReplyTree
  import opened Folds
  import Json

  type GoString = Json.GoString
  type Request = seq<Json.Arg>

  datatype Command = Command(name: GoString, args: seq<Json.Arg>)

  /** The user a Redis connection is authenticated as; empty for the default one. */
  datatype Credentials = Credentials(username: GoString, password: GoString)

  const DEFAULT_USER := Credentials([], [])

  /**
   * What the server runs against: the gates, which answer with an error message or let a name pass;
   * Go's strings, printing and JSON; random tokens; and Redis. `canonical` holds of the texts that
   * the JSON encoder prints for values other than strings.
   */
  datatype World<!R, !A> = World(
    allowed: (A, GoString) -> Option<Bytes>,
    blocked: GoString -> Option<Bytes>,
    upper: GoString -> GoString,
    lower: GoString -> GoString,
    sprint: string -> GoString,
    canonical: string -> bool,
    decode: string -> Option<Request>,
    decodeAll: string -> Option<seq<Request>>,
    random: nat -> Result<string, Bytes>,
    creds: A -> Credentials,
    up: R -> bool,
    auth: (R, seq<GoString>) -> Option<Bytes>,
    step: (R, Credentials, Command) -> (R, Reply),
    queueError: (R, Credentials, Command) -> Option<Bytes>)

  /** The data in Redis, the log, the commands counted, the tokens issued, the random numbers drawn. */
  datatype State<R> = State(
    redis: R, recorded: string, counted: seq<GoString>, tokens: map<string, Credentials>, drawn: nat)

  function RedisOf<R>(): State<R> -> R {
    (s: State<R>) => s.redis
  }

  function Ascii(s: string): Bytes {
    seq(|s|, i requires 0 <= i < |s| => if s[i] as int < 128 then s[i] as int else 63)
  }

  const MULTI_EXEC: GoString := Json.Runes("MULTI-EXEC")
  const CONNECTION_FAILED: Bytes := Ascii("ERR redis connection failed")
  const EMPTY_COMMAND: Bytes := Ascii("ERR empty command")
  const BAD_COMMAND: Bytes := Ascii("ERR failed to parse command")
  const BAD_PIPELINE: Bytes := Ascii("ERR failed to parse pipeline request")
  const BAD_TRANSACTION: Bytes := Ascii("ERR failed to parse transaction request")
  const TOKEN_USAGE: Bytes := Ascii("ERR invalid syntax. Usage: ACL RESTTOKEN username password")
  const EMPTY_PIPELINE: Bytes := Ascii("ERR empty pipeline request")
  const EMPTY_PIPELINE_COMMAND: Bytes := Ascii("ERR empty pipeline command")
  const EMPTY_TRANSACTION: Bytes := Ascii("ERR empty transaction request")
  const EMPTY_TRANSACTION_COMMAND: Bytes := Ascii("ERR empty transaction command")

  // --- one command ---

  function Refusal<R, A>(w: World<R, A>, a: A, name: GoString): Option<Bytes> {
    var e := w.allowed(a, w.upper(name));
    if e.Some? then e else w.blocked(w.upper(name))
  }

  function Sprint<R, A>(w: World<R, A>, a: Json.Arg): GoString {
    if a.Text? then a.s else w.sprint(a.text)
  }

  function ToCommand<R, A>(w: World<R, A>, req: Request): Command
    requires req != []
  {
    Command(Sprint(w, req[0]), req[1..])
  }

  /** AUTH, if there are credentials at all. */
  function Login<R, A>(w: World<R, A>, r: R, c: Credentials): Option<Bytes> {
    if c == DEFAULT_USER then None
    else if c.password == [] then w.auth(r, [c.username])
    else w.auth(r, [c.username, c.password])
  }

  predicate IsRestToken<R, A>(w: World<R, A>, c: Command) {
    w.lower(c.name) == Json.Runes("acl") && c.args != [] && w.lower(Sprint(w, c.args[0])) == Json.Runes("resttoken")
  }

  /** ACL RESTTOKEN: if Redis accepts the credentials, a new token stands for them. */
  function RestToken<R, A>(w: World<R, A>, s: State<R>, c: Command): (State<R>, Data<Reply>) {
    if |c.args| != 3 then (s, Failure(TOKEN_USAGE))
    else
      var user := Credentials(Sprint(w, c.args[1]), Sprint(w, c.args[2]));
      var rejected := Login(w, s.redis, user);
      if rejected.Some? then (s, Failure(rejected.value))
      else
        var t := s.(drawn := s.drawn + 1);
        match w.random(s.drawn)
        case Err(e) => (t, Failure(e))
        case Ok(token) => (t.(tokens := t.tokens[token := user]), Success(Text(Ascii(token))))
  }

  /** The recorded form of a command, without its line break. */
  function Entry(c: Command): string {
    Json.Print([Json.Text(c.name)] + c.args)
  }

  function Execute<R, A>(w: World<R, A>, a: A, s: State<R>, c: Command): (State<R>, Data<Reply>) {
    var refused := Refusal(w, a, c.name);
    if refused.Some? then (s, Failure(refused.value))
    else if IsRestToken(w, c) then RestToken(w, s, c)
    else
      var t := s.(counted := s.counted + [w.upper(c.name)], recorded := s.recorded + Entry(c) + "\n");
      if !w.up(s.redis) then (t, Failure(CONNECTION_FAILED))
      else if Login(w, s.redis, w.creds(a)).Some? then (t, Failure(Login(w, s.redis, w.creds(a)).value))
      else
        var (r, reply) := w.step(s.redis, w.creds(a), c);
        (t.(redis := r), Answer(reply))
  }

  function SingleBody<R, A>(w: World<R, A>, a: A, s: State<R>, body: string): (State<R>, Data<Reply>) {
    var req := w.decode(body);
    if req.None? then (s, Failure(BAD_COMMAND))
    else if req.value == [] then (s, Failure(EMPTY_COMMAND))
    else Execute(w, a, s, ToCommand(w, req.value))
  }

  /** A request path: its first segment names the command. */
  function PathRequest<R, A>(w: World<R, A>, a: A, s: State<R>, segments: seq<GoString>): (State<R>, Data<Reply>) {
    if segments == [] then (s, Failure(EMPTY_COMMAND))
    else Execute(w, a, s, Command(segments[0], Texts(segments[1..])))
  }

  function Texts(segments: seq<GoString>): seq<Json.Arg> {
    seq(|segments|, i requires 0 <= i < |segments| => Json.Text(segments[i]))
  }

  // --- pipelines ---

  function PipelineStep<R, A>(w: World<R, A>, a: A, s: State<R>, req: Request): (State<R>, Data<Reply>) {
    if req == [] then (s, Failure(EMPTY_PIPELINE_COMMAND)) else Execute(w, a, s, ToCommand(w, req))
  }

  function PipelineSteps<R, A>(w: World<R, A>, a: A): (State<R>, Request) -> (State<R>, Data<Reply>) {
    (s, req) => PipelineStep(w, a, s, req)
  }

  /** The commands of a pipeline one after the other. */
  function Pipeline<R, A>(w: World<R, A>, a: A, s: State<R>, reqs: seq<Request>): (State<R>, seq<Data<Reply>>) {
    Fold(PipelineSteps(w, a), s, reqs)
  }

  function PipelineBody<R, A>(w: World<R, A>, a: A, s: State<R>, body: string): (State<R>, Data<Reply>) {
    var reqs := w.decodeAll(body);
    if reqs.None? then (s, Failure(BAD_PIPELINE))
    else if reqs.value == [] then (s, Failure(EMPTY_PIPELINE))
    else
      var (t, answers) := Pipeline(w, a, s, reqs.value);
      (t, Batch(answers))
  }

  // --- transactions ---

  function TransactionRefusal<R, A>(w: World<R, A>, a: A, req: Request): Option<Bytes> {
    if req == [] then Some(EMPTY_TRANSACTION_COMMAND) else Refusal(w, a, ToCommand(w, req).name)
  }

  function FirstRefusal<R, A>(w: World<R, A>, a: A, reqs: seq<Request>): Option<Bytes>
    decreases |reqs|
  {
    if reqs == [] then None
    else
      var e := TransactionRefusal(w, a, reqs[0]);
      if e.Some? then e else FirstRefusal(w, a, reqs[1..])
  }

  function FirstQueueError<R, A>(w: World<R, A>, a: A, r: R, queue: seq<Command>): Option<Bytes>
    decreases |queue|
  {
    if queue == [] then None
    else
      var e := w.queueError(r, w.creds(a), queue[0]);
      if e.Some? then e else FirstQueueError(w, a, r, queue[1..])
  }

  function RedisSteps<R, A>(w: World<R, A>, a: A): (R, Command) -> (R, Reply) {
    (r, c) => w.step(r, w.creds(a), c)
  }

  /** Redis runs commands in order; an error reply does not stop it. */
  function RunAll<R, A>(w: World<R, A>, a: A, r: R, queue: seq<Command>): (R, seq<Reply>) {
    Fold(RedisSteps(w, a), r, queue)
  }

  predicate NoEmpty(reqs: seq<Request>) {
    forall i :: 0 <= i < |reqs| ==> reqs[i] != []
  }

  function ToCommands<R, A>(w: World<R, A>, reqs: seq<Request>): seq<Command>
    requires NoEmpty(reqs)
  {
    seq(|reqs|, i requires 0 <= i < |reqs| => ToCommand(w, reqs[i]))
  }

  function Answers(replies: seq<Reply>): seq<Data<Reply>> {
    Map(Answer, replies)
  }

  lemma {:induction false} UnrefusedNonEmpty<R, A>(w: World<R, A>, a: A, reqs: seq<Request>)
    ensures FirstRefusal(w, a, reqs).None? <==>
      forall i :: 0 <= i < |reqs| ==> TransactionRefusal(w, a, reqs[i]).None?
    ensures FirstRefusal(w, a, reqs).None? ==> NoEmpty(reqs)
    decreases |reqs|
  {
    if reqs != [] {
      UnrefusedNonEmpty(w, a, reqs[1..]);
      if FirstRefusal(w, a, reqs).None? {
        forall i | 0 <= i < |reqs| ensures TransactionRefusal(w, a, reqs[i]).None? && reqs[i] != [] {
          assert i > 0 ==> reqs[i] == reqs[1..][i - 1];
        }
      } else if TransactionRefusal(w, a, reqs[0]).None? {
        var i :| 0 <= i < |reqs[1..]| && !TransactionRefusal(w, a, reqs[1..][i]).None?;
        assert reqs[1..][i] == reqs[i + 1];
      }
    }
  }

  function MultiExec<R, A>(w: World<R, A>, a: A, s: State<R>, reqs: seq<Request>): (State<R>, Data<Reply>) {
    if reqs == [] then (s, Failure(EMPTY_TRANSACTION))
    else if FirstRefusal(w, a, reqs).Some? then (s, Failure(FirstRefusal(w, a, reqs).value))
    else
      var t := s.(counted := s.counted + [MULTI_EXEC]);
      if !w.up(s.redis) then (t, Failure(CONNECTION_FAILED))
      else if Login(w, s.redis, w.creds(a)).Some? then (t, Failure(Login(w, s.redis, w.creds(a)).value))
      else
        UnrefusedNonEmpty(w, a, reqs);
        var queue := ToCommands(w, reqs);
        var e := FirstQueueError(w, a, s.redis, queue);
        if e.Some? then (t, Failure(e.value))
        else
          var (r, replies) := RunAll(w, a, s.redis, queue);
          (t.(redis := r), Batch(Answers(replies)))
  }

  function TransactionBody<R, A>(w: World<R, A>, a: A, s: State<R>, body: string): (State<R>, Data<Reply>) {
    var reqs := w.decodeAll(body);
    if reqs.None? then (s, Failure(BAD_TRANSACTION)) else MultiExec(w, a, s, reqs.value)
  }

  // --- the server ---

  class Server<R, A> {
    const world: World<R, A>
    var redis: R
    var recorded: string
    var counted: seq<GoString>
    var tokens: map<string, Credentials>
    var drawn: nat

    ghost function Now(): State<R>
      reads this
    {
      State(redis, recorded, counted, tokens, drawn)
    }

    constructor (world: World<R, A>, redis: R, recorded: string)
      ensures this.world == world && Now() == State(redis, recorded, [], map[], 0)
    {
      this.world, this.redis, this.recorded := world, redis, recorded;
      counted, tokens, drawn := [], map[], 0;
    }

    /** Metrics.Record and Recorder.Record, each with the arguments executeCommand gives them. */
    method Record(c: Command)
      modifies this`recorded
      ensures recorded == old(recorded) + Entry(c) + "\n"
    {
      recorded := recorded + Json.Print([Json.Text(c.name)] + c.args) + "\n";
    }

    method AuthRedisConn(c: Credentials) returns (rejected: Option<Bytes>)
      ensures rejected == Login(world, redis, c)
    {
      if c.username == [] && c.password == [] {
        return None;
      }
      if c.password == [] {
        return world.auth(redis, [c.username]);
      }
      rejected := world.auth(redis, [c.username, c.password]);
    }

    method AclRestToken(c: Command) returns (d: Data<Reply>)
      modifies this`tokens, this`drawn
      ensures (Now(), d) == RestToken(world, old(Now()), c)
    {
      if |c.args| != 3 {
        return Failure(TOKEN_USAGE);
      }
      var user := Credentials(Sprint(world, c.args[1]), Sprint(world, c.args[2]));
      var rejected := AuthRedisConn(user);
      if rejected.Some? {
        return Failure(rejected.value);
      }
      var buf := world.random(drawn);
      drawn := drawn + 1;
      match buf
      case Err(e) => d := Failure(e);
      case Ok(token) =>
        tokens := tokens[token := user];
        d := Success(Text(Ascii(token)));
    }

    method ExecuteCommand(a: A, c: Command) returns (d: Data<Reply>)
      modifies this
      ensures (Now(), d) == Execute(world, a, old(Now()), c)
      ensures world.allowed(a, world.upper(c.name)).Some? ==>
        Now() == old(Now()) && d == Failure(world.allowed(a, world.upper(c.name)).value)
      ensures world.allowed(a, world.upper(c.name)).None? && world.blocked(world.upper(c.name)).Some? ==>
        Now() == old(Now()) && d == Failure(world.blocked(world.upper(c.name)).value)
    {
      var refused := world.allowed(a, world.upper(c.name));
      if refused.Some? {
        return Failure(refused.value);
      }
      refused := world.blocked(world.upper(c.name));
      if refused.Some? {
        return Failure(refused.value);
      }
      if IsRestToken(world, c) {
        d := AclRestToken(c);
        return;
      }
      counted := counted + [world.upper(c.name)];
      Record(c);
      if !world.up(redis) {
        return Failure(CONNECTION_FAILED);
      }
      var rejected := AuthRedisConn(world.creds(a));
      if rejected.Some? {
        return Failure(rejected.value);
      }
      var (next, reply) := world.step(redis, world.creds(a), c);
      redis := next;
      if reply.Error? {
        return Failure(reply.message);
      }
      d := Success(Plain(reply, false));
    }

    method HandleSingleExecute(a: A, body: string) returns (d: Data<Reply>)
      modifies this
      ensures (Now(), d) == SingleBody(world, a, old(Now()), body)
    {
      var req := world.decode(body);
      if req.None? {
        return Failure(BAD_COMMAND);
      }
      if req.value == [] {
        return Failure(EMPTY_COMMAND);
      }
      d := ExecuteCommand(a, ToCommand(world, req.value));
    }

    method HandlePath(a: A, segments: seq<GoString>) returns (d: Data<Reply>)
      modifies this
      ensures (Now(), d) == PathRequest(world, a, old(Now()), segments)
    {
      if segments == [] {
        return Failure(EMPTY_COMMAND);
      }
      var args := MakeArgs(segments[1..]);
      d := ExecuteCommand(a, Command(segments[0], args));
    }

    static method MakeArgs(segments: seq<GoString>) returns (args: seq<Json.Arg>)
      ensures args == Texts(segments)
    {
      args := [];
      for i := 0 to |segments|
        invariant args == Texts(segments)[..i]
      {
        args := args + [Json.Text(segments[i])];
      }
    }

    method HandlePipelineExecute(a: A, body: string) returns (d: Data<Reply>)
      modifies this
      ensures (Now(), d) == PipelineBody(world, a, old(Now()), body)
    {
      var decoded := world.decodeAll(body);
      if decoded.None? {
        return Failure(BAD_PIPELINE);
      }
      var reqs := decoded.value;
      if reqs == [] {
        return Failure(EMPTY_PIPELINE);
      }
      var results := [];
      for i := 0 to |reqs|
        invariant (Now(), results) == Pipeline(world, a, old(Now()), reqs[..i])
      {
        FoldUpTo(PipelineSteps(world, a), old(Now()), reqs, i);
        if reqs[i] == [] {
          results := results + [Failure(EMPTY_PIPELINE_COMMAND)];
        } else {
          var answer := ExecuteCommand(a, ToCommand(world, reqs[i]));
          results := results + [answer];
        }
      }
      assert reqs[..|reqs|] == reqs;
      d := Batch(results);
    }

    /** Redis on EXEC: the queued commands run in order. */
    method Exec(a: A, queue: seq<Command>) returns (replies: seq<Reply>)
      modifies this`redis
      ensures (redis, replies) == RunAll(world, a, old(redis), queue)
    {
      replies := [];
      for i := 0 to |queue|
        invariant (redis, replies) == RunAll(world, a, old(redis), queue[..i])
      {
        FoldUpTo(RedisSteps(world, a), old(redis), queue, i);
        var (next, reply) := world.step(redis, world.creds(a), queue[i]);
        redis := next;
        replies := replies + [reply];
      }
      assert queue[..|queue|] == queue;
    }

    /** The gates are all passed before anything is sent. */
    method CheckTransaction(a: A, reqs: seq<Request>) returns (refused: Option<Bytes>)
      ensures refused == FirstRefusal(world, a, reqs)
      ensures refused.None? <==> forall i :: 0 <= i < |reqs| ==>
        && reqs[i] != []
        && world.allowed(a, world.upper(Sprint(world, reqs[i][0]))).None?
        && world.blocked(world.upper(Sprint(world, reqs[i][0]))).None?
    {
      UnrefusedNonEmpty(world, a, reqs);
      for i := 0 to |reqs|
        invariant FirstRefusal(world, a, reqs) == FirstRefusal(world, a, reqs[i..])
      {
        assert reqs[i..][1..] == reqs[i + 1..];
        if reqs[i] == [] {
          return Some(EMPTY_TRANSACTION_COMMAND);
        }
        refused := Refusal(world, a, ToCommand(world, reqs[i]).name);
        if refused.Some? {
          return;
        }
      }
      refused := None;
    }

    /** Sending between MULTI and EXEC queues the commands; the first queueing error is what EXEC reports. */
    method SendAll(a: A, reqs: seq<Request>) returns (queue: seq<Command>, failed: Option<Bytes>)
      requires NoEmpty(reqs)
      ensures queue == ToCommands(world, reqs)
      ensures failed == FirstQueueError(world, a, redis, queue)
    {
      ghost var all := ToCommands(world, reqs);
      queue, failed := [], None;
      for i := 0 to |reqs|
        invariant queue == all[..i]
        invariant FirstQueueError(world, a, redis, all) ==
          if failed.Some? then failed else FirstQueueError(world, a, redis, all[i..])
      {
        assert all[i..][1..] == all[i + 1..];
        var c := ToCommand(world, reqs[i]);
        queue := queue + [c];
        if failed.None? {
          failed := world.queueError(redis, world.creds(a), c);
        }
      }
    }

    /** EXEC and the list of answers made of its replies. */
    method Commit(a: A, queue: seq<Command>) returns (d: Data<Reply>)
      modifies this`redis
      ensures var (r, replies) := RunAll(world, a, old(redis), queue);
        redis == r && d == Batch(Answers(replies))
    {
      var values := Exec(a, queue);
      var results: seq<Data<Reply>> := [];
      for i := 0 to |values|
        invariant results == Answers(values)[..i]
      {
        assert Answers(values)[i] == Answer(values[i]);
        if values[i].Error? {
          results := results + [Failure(values[i].message)];
        } else {
          results := results + [Success(Plain(values[i], false))];
        }
      }
      d := Batch(results);
    }

    method ExecuteMultiExec(a: A, reqs: seq<Request>) returns (d: Data<Reply>)
      modifies this
      ensures (Now(), d) == MultiExec(world, a, old(Now()), reqs)
    {
      if reqs == [] {
        return Failure(EMPTY_TRANSACTION);
      }
      var refused := CheckTransaction(a, reqs);
      if refused.Some? {
        return Failure(refused.value);
      }
      counted := counted + [MULTI_EXEC];
      if !world.up(redis) {
        return Failure(CONNECTION_FAILED);
      }
      var rejected := AuthRedisConn(world.creds(a));
      if rejected.Some? {
        return Failure(rejected.value);
      }
      UnrefusedNonEmpty(world, a, reqs);
      var queue, failed := SendAll(a, reqs);
      if failed.Some? {
        return Failure(failed.value);
      }
      d := Commit(a, queue);
    }

    method HandleMultiExec(a: A, body: string) returns (d: Data<Reply>)
      modifies this
      ensures (Now(), d) == TransactionBody(world, a, old(Now()), body)
    {
      var reqs := world.decodeAll(body);
      if reqs.None? {
        return Failure(BAD_TRANSACTION);
      }
      d := ExecuteMultiExec(a, reqs.value);
    }
  }
}
