/** The command log: what a session writes to it and what replaying it does. */
module Replay {
  import opened Wrappers
  import opened ReplyTree
  import opened Commands
  import opened Folds
  import opened Lines
  import Json

  // --- sessions ---

  /** A request for commands: a path, with a body as its last segment, one command, a pipeline, a transaction. */
  datatype Call<A> =
    | Path(who: A, segments: seq<GoString>)
    | Single(who: A, body: string)
    | Pipe(who: A, body: string)
    | Multi(who: A, body: string)

  function CallStep<R, A>(w: World<R, A>, s: State<R>, call: Call<A>): (State<R>, Data<Reply>) {
    match call
    case Path(a, segments) => PathRequest(w, a, s, segments)
    case Single(a, body) => SingleBody(w, a, s, body)
    case Pipe(a, body) => PipelineBody(w, a, s, body)
    case Multi(a, body) => TransactionBody(w, a, s, body)
  }

  function Session<R, A>(w: World<R, A>): (State<R>, Call<A>) -> (State<R>, Data<Reply>) {
    (s, call) => CallStep(w, s, call)
  }

  /** What of a command reaches Redis, if Redis can be reached. */
  function SentOne<R, A>(w: World<R, A>, a: A, c: Command): seq<Command> {
    if Refusal(w, a, c.name).None? && !IsRestToken(w, c) then [c] else []
  }

  function SentPipe<R, A>(w: World<R, A>, a: A, reqs: seq<Request>): seq<Command>
    decreases |reqs|
  {
    if reqs == [] then []
    else
      var last := reqs[|reqs| - 1];
      SentPipe(w, a, reqs[..|reqs| - 1]) + if last == [] then [] else SentOne(w, a, ToCommand(w, last))
  }

  function SentCall<R, A>(w: World<R, A>, call: Call<A>): seq<Command> {
    match call
    case Path(a, segments) =>
      if segments == [] then [] else SentOne(w, a, Command(segments[0], Texts(segments[1..])))
    case Single(a, body) =>
      var req := w.decode(body);
      if req.None? || req.value == [] then [] else SentOne(w, a, ToCommand(w, req.value))
    case Pipe(a, body) =>
      var reqs := w.decodeAll(body);
      if reqs.None? then [] else SentPipe(w, a, reqs.value)
    case Multi(_, _) => []
  }

  /** The commands of a session outside of its transactions. */
  function Sent<R, A>(w: World<R, A>, calls: seq<Call<A>>): seq<Command>
    decreases |calls|
  {
    if calls == [] then []
    else Sent(w, calls[..|calls| - 1]) + SentCall(w, calls[|calls| - 1])
  }

  /** Redis is reachable and everybody uses its default user. */
  ghost predicate OneUser<R(!new), A(!new)>(w: World<R, A>) {
    && (forall r :: w.up(r))
    && (forall a :: w.creds(a) == DEFAULT_USER)
  }

  /** `full` passes every gate that somebody passes. */
  ghost predicate FullToken<R, A(!new)>(w: World<R, A>, full: A) {
    forall a, name :: Refusal(w, a, name).None? ==> Refusal(w, full, name).None?
  }

  predicate Canonical<R, A>(w: World<R, A>, req: Request) {
    forall i :: 0 <= i < |req| && req[i].Literal? ==> w.canonical(req[i].text)
  }

  /**
   * What is asked of Go's library. JSON values print on one line. What is decoded consists of valid
   * strings and printed values. From what is printed for such a request, it is decoded as itself, but
   * for U+FFFD where a string had stray bytes. Changing the case of a string does the same to those.
   */
  ghost predicate Decoder<R, A>(w: World<R, A>) {
    && (forall t :: w.canonical(t) ==> Json.OneLine(t) && Json.ValidUtf8(w.sprint(t)))
    && (forall body :: w.decode(body).Some? ==> Clean(w, w.decode(body).value))
    && (forall body, i :: w.decodeAll(body).Some? && 0 <= i < |w.decodeAll(body).value| ==>
          Clean(w, w.decodeAll(body).value[i]))
    && (forall req :: Canonical(w, req) ==> w.decode(Json.Print(req)) == Some(Json.CoerceArgs(req)))
    && (forall x :: w.upper(Json.Coerce(x)) == w.upper(x) && w.lower(Json.Coerce(x)) == w.lower(x))
  }

  predicate Clean<R, A>(w: World<R, A>, req: Request) {
    Canonical(w, req) && Json.ValidArgs(req)
  }

  // --- the log of a session ---

  function LogOf(sent: seq<Command>): string {
    File(Map(Entry, sent))
  }

  predicate Logged<R>(s: State<R>, t: State<R>, sent: seq<Command>) {
    t.recorded == s.recorded + LogOf(sent)
  }

  lemma LogConcat(x: seq<Command>, y: seq<Command>)
    ensures LogOf(x + y) == LogOf(x) + LogOf(y)
  {
    MapConcat(Entry, x, y);
    FileConcat(Map(Entry, x), Map(Entry, y));
  }

  lemma LoggedThen<R>(s: State<R>, t: State<R>, u: State<R>, x: seq<Command>, y: seq<Command>)
    requires Logged(s, t, x) && Logged(t, u, y)
    ensures Logged(s, u, x + y)
  {
    LogConcat(x, y);
    assert s.recorded + LogOf(x) + LogOf(y) == s.recorded + (LogOf(x) + LogOf(y));
  }

  lemma LoggedNothing<R>(s: State<R>)
    ensures Logged(s, s, [])
  {
    assert Map(Entry, []) == [];
  }

  lemma LoggedOne<R, A>(w: World<R, A>, a: A, s: State<R>, c: Command)
    ensures Logged(s, Execute(w, a, s, c).0, SentOne(w, a, c))
  {
    if SentOne(w, a, c) == [c] {
      assert Map(Entry, [c]) == [Entry(c)];
      assert File([Entry(c)]) == Entry(c) + "\n" + File([]);
      assert s.recorded + (Entry(c) + "\n") == s.recorded + Entry(c) + "\n";
    } else {
      LoggedNothing(s);
    }
  }

  lemma {:induction false} LoggedPipe<R, A>(w: World<R, A>, a: A, s: State<R>, reqs: seq<Request>)
    ensures Logged(s, Pipeline(w, a, s, reqs).0, SentPipe(w, a, reqs))
    decreases |reqs|
  {
    if reqs == [] {
      LoggedNothing(s);
    } else {
      var n := |reqs| - 1;
      var front, last := reqs[..n], reqs[n];
      var t := Pipeline(w, a, s, front).0;
      LoggedPipe(w, a, s, front);
      assert reqs == front + [last];
      FoldSnoc(PipelineSteps(w, a), s, front, last);
      if last == [] {
        assert SentPipe(w, a, reqs) == SentPipe(w, a, front);
      } else {
        var c := ToCommand(w, last);
        LoggedOne(w, a, t, c);
        LoggedThen(s, t, Execute(w, a, t, c).0, SentPipe(w, a, front), SentOne(w, a, c));
      }
    }
  }

  lemma LoggedCall<R, A>(w: World<R, A>, s: State<R>, call: Call<A>)
    ensures Logged(s, CallStep(w, s, call).0, SentCall(w, call))
  {
    LoggedNothing(s);
    match call
    case Path(a, segments) =>
      if segments != [] {
        LoggedOne(w, a, s, Command(segments[0], Texts(segments[1..])));
      }
    case Single(a, body) =>
      var req := w.decode(body);
      if req.Some? && req.value != [] {
        LoggedOne(w, a, s, ToCommand(w, req.value));
      }
    case Pipe(a, body) =>
      var reqs := w.decodeAll(body);
      if reqs.Some? {
        LoggedPipe(w, a, s, reqs.value);
      }
    case Multi(a, body) =>
      assert CallStep(w, s, call).0.recorded == s.recorded;
  }

  /** In every session, the log gets an entry for each command outside of transactions that passes the gates. */
  lemma {:induction false} LoggedSession<R, A>(w: World<R, A>, s: State<R>, calls: seq<Call<A>>)
    ensures Logged(s, Fold(Session(w), s, calls).0, Sent(w, calls))
    decreases |calls|
  {
    if calls == [] {
      LoggedNothing(s);
    } else {
      var n := |calls| - 1;
      var front, last := calls[..n], calls[n];
      var t := Fold(Session(w), s, front).0;
      LoggedSession(w, s, front);
      assert calls == front + [last];
      FoldSnoc(Session(w), s, front, last);
      LoggedCall(w, t, last);
      LoggedThen(s, t, CallStep(w, t, last).0, Sent(w, front), SentCall(w, last));
    }
  }

  // --- the data after a session without transactions ---

  /** From `s` to `t`, Redis ran exactly `sent`. */
  ghost predicate Ran<R, A>(w: World<R, A>, full: A, s: State<R>, t: State<R>, sent: seq<Command>) {
    t.redis == RunAll(w, full, s.redis, sent).0
  }

  lemma RanThen<R, A>(
    w: World<R, A>, full: A, s: State<R>, t: State<R>, u: State<R>, x: seq<Command>, y: seq<Command>)
    requires Ran(w, full, s, t, x) && Ran(w, full, t, u, y)
    ensures Ran(w, full, s, u, x + y)
  {
    FoldConcat(RedisSteps(w, full), s.redis, x, y);
  }

  lemma RanOne<R(!new), A(!new)>(w: World<R, A>, full: A, a: A, s: State<R>, c: Command)
    requires OneUser(w)
    ensures Ran(w, full, s, Execute(w, a, s, c).0, SentOne(w, a, c))
  {
    if SentOne(w, a, c) == [c] {
      var r := s.redis;
      assert w.up(r) && w.creds(a) == w.creds(full) == DEFAULT_USER;
      FoldSnoc(RedisSteps(w, full), r, [], c);
      assert [] + [c] == [c];
    }
  }

  lemma {:induction false} RanPipe<R(!new), A(!new)>(w: World<R, A>, full: A, a: A, s: State<R>, reqs: seq<Request>)
    requires OneUser(w)
    ensures Ran(w, full, s, Pipeline(w, a, s, reqs).0, SentPipe(w, a, reqs))
    decreases |reqs|
  {
    if reqs != [] {
      var n := |reqs| - 1;
      var front, last := reqs[..n], reqs[n];
      var t := Pipeline(w, a, s, front).0;
      RanPipe(w, full, a, s, front);
      assert reqs == front + [last];
      FoldSnoc(PipelineSteps(w, a), s, front, last);
      if last == [] {
        assert SentPipe(w, a, reqs) == SentPipe(w, a, front);
      } else {
        var c := ToCommand(w, last);
        RanOne(w, full, a, t, c);
        RanThen(w, full, s, t, Execute(w, a, t, c).0, SentPipe(w, a, front), SentOne(w, a, c));
      }
    }
  }

  lemma RanCall<R(!new), A(!new)>(w: World<R, A>, full: A, s: State<R>, call: Call<A>)
    requires OneUser(w) && !call.Multi?
    ensures Ran(w, full, s, CallStep(w, s, call).0, SentCall(w, call))
  {
    match call
    case Path(a, segments) =>
      if segments != [] {
        RanOne(w, full, a, s, Command(segments[0], Texts(segments[1..])));
      }
    case Single(a, body) =>
      var req := w.decode(body);
      if req.Some? && req.value != [] {
        RanOne(w, full, a, s, ToCommand(w, req.value));
      }
    case Pipe(a, body) =>
      var reqs := w.decodeAll(body);
      if reqs.Some? {
        RanPipe(w, full, a, s, reqs.value);
      }
    case Multi(a, body) =>
      assert false;
  }

  function Logging<A>(): Call<A> -> bool {
    (call: Call<A>) => !call.Multi?
  }

  /** Without its transactions, a session leaves the data that its commands outside of them leave. */
  lemma {:induction false} RanSession<R(!new), A(!new)>(w: World<R, A>, full: A, s: State<R>, calls: seq<Call<A>>)
    requires OneUser(w)
    ensures Ran(w, full, s, Fold(Session(w), s, Filter(Logging(), calls)).0, Sent(w, calls))
    decreases |calls|
  {
    if calls != [] {
      var n := |calls| - 1;
      var front, last := calls[..n], calls[n];
      var kept := Filter(Logging(), front);
      var t := Fold(Session(w), s, kept).0;
      RanSession(w, full, s, front);
      assert calls == front + [last];
      FilterSnoc(Logging(), front, last);
      if last.Multi? {
        assert Sent(w, calls) == Sent(w, front);
      } else {
        FoldSnoc(Session(w), s, kept, last);
        RanCall(w, full, t, last);
        RanThen(w, full, s, t, CallStep(w, t, last).0, Sent(w, front), SentCall(w, last));
      }
    }
  }

  // --- replaying ---

  /** One line of the log: decoded, encoded again as a request body, and executed. */
  function ReplayLine<R, A>(w: World<R, A>, a: A, s: State<R>, line: string): (State<R>, bool) {
    var req := w.decode(line);
    if req.None? then (s, false)
    else
      var (t, d) := SingleBody(w, a, s, Json.Print(req.value));
      (t, !d.Failure?)
  }

  function ReplaySteps<R, A>(w: World<R, A>, a: A): (State<R>, string) -> (State<R>, bool) {
    (s, line) => ReplayLine(w, a, s, line)
  }

  /** How many of the replayed lines succeeded. */
  function Successes(outcomes: seq<bool>): (n: nat)
    ensures n <= |outcomes|
    decreases |outcomes|
  {
    if outcomes == [] then 0
    else Successes(outcomes[..|outcomes| - 1]) + if outcomes[|outcomes| - 1] then 1 else 0
  }

  lemma SuccessesSnoc(outcomes: seq<bool>, good: bool)
    ensures Successes(outcomes + [good]) == Successes(outcomes) + if good then 1 else 0
  {
    assert (outcomes + [good])[..|outcomes|] == outcomes;
  }

  /** Replaying `entries` has led from `s` to `t` with these counts. */
  ghost predicate Replayed<R, A>(
    w: World<R, A>, a: A, s: State<R>, entries: seq<string>, t: State<R>, ok: nat, failed: nat)
  {
    var (u, outcomes) := Fold(ReplaySteps(w, a), s, entries);
    t == u && ok == Successes(outcomes) && ok + failed == |entries|
  }

  lemma ReplayedOne<R, A>(
    w: World<R, A>, a: A, s: State<R>, entries: seq<string>, t: State<R>, ok: nat, failed: nat, line: string)
    requires Replayed(w, a, s, entries, t, ok, failed)
    ensures var (u, good) := ReplayLine(w, a, t, line);
      if good then Replayed(w, a, s, entries + [line], u, ok + 1, failed)
      else Replayed(w, a, s, entries + [line], u, ok, failed + 1)
  {
    var (t', outcomes) := Fold(ReplaySteps(w, a), s, entries);
    FoldSnoc(ReplaySteps(w, a), s, entries, line);
    SuccessesSnoc(outcomes, ReplayLine(w, a, t, line).1);
  }

  /** Issues one line and counts it. */
  method Issue<R, A>(
    server: Server<R, A>, a: A, line: string, ok: nat, failed: nat, ghost s: State<R>, ghost entries: seq<string>)
    returns (okNow: nat, failedNow: nat)
    requires Replayed(server.world, a, s, entries, server.Now(), ok, failed)
    modifies server
    ensures Replayed(server.world, a, s, entries + [line], server.Now(), okNow, failedNow)
  {
    ReplayedOne(server.world, a, s, entries, server.Now(), ok, failed, line);
    okNow, failedNow := ok, failed;
    var req := server.world.decode(line);
    if req.None? {
      failedNow := failedNow + 1;
    } else {
      var d := server.HandleSingleExecute(a, Json.Print(req.value));
      if d.Failure? {
        failedNow := failedNow + 1;
      } else {
        okNow := okNow + 1;
      }
    }
  }

  /** The CLI's replay: every line that is not blank is issued, and counted as ok or failed. */
  method ReplayFile<R, A>(server: Server<R, A>, a: A, data: string) returns (ok: nat, failed: nat)
    modifies server
    ensures Replayed(server.world, a, old(server.Now()), Entries(Split(data)), server.Now(), ok, failed)
  {
    var lines := Split(TrimSpace(data));
    ok, failed := 0, 0;
    for i := 0 to |lines|
      invariant Replayed(server.world, a, old(server.Now()), Entries(lines[..i]), server.Now(), ok, failed)
    {
      EntriesUpTo(lines, i);
      var line := TrimSpace(lines[i]);
      if line != "" {
        ok, failed := Issue(server, a, line, ok, failed, old(server.Now()), Entries(lines[..i]));
      }
    }
    assert lines[..|lines|] == lines;
    TrimmingFileIsHarmless(data);
  }

  lemma EntriesUpTo(lines: seq<string>, i: nat)
    requires i < |lines|
    ensures Entries(lines[..i + 1]) ==
      if TrimSpace(lines[i]) == "" then Entries(lines[..i]) else Entries(lines[..i]) + [TrimSpace(lines[i])]
  {
    assert lines[..i + 1] == lines[..i] + [lines[i]];
    EntriesConcat(lines[..i], [lines[i]]);
    assert [lines[i]][1..] == [] && Entries([]) == [];
  }

  // --- record, then replay ---

  /** What the log says of a command: U+FFFD stands for a stray byte. */
  function CoerceCommand(c: Command): Command {
    Command(Json.Coerce(c.name), Json.CoerceArgs(c.args))
  }

  predicate ValidCommand(c: Command) {
    Json.ValidUtf8(c.name) && Json.ValidArgs(c.args)
  }

  predicate AllValid(cs: seq<Command>) {
    forall i :: 0 <= i < |cs| ==> ValidCommand(cs[i])
  }

  lemma CoerceFixesValid(cs: seq<Command>)
    ensures Map(CoerceCommand, cs) == cs <==> AllValid(cs)
  {
    forall i | 0 <= i < |cs| ensures CoerceCommand(cs[i]) == cs[i] <==> ValidCommand(cs[i]) {
      Json.CoerceFixes(cs[i].name);
      Json.CoerceArgsFixes(cs[i].args);
    }
    if Map(CoerceCommand, cs) == cs {
      forall i | 0 <= i < |cs| ensures ValidCommand(cs[i]) {
        assert Map(CoerceCommand, cs)[i] == CoerceCommand(cs[i]);
      }
    }
  }

  predicate Replayable<R, A>(w: World<R, A>, full: A, c: Command) {
    Canonical(w, c.args) && Refusal(w, full, c.name).None? && !IsRestToken(w, c)
  }

  predicate AllReplayable<R, A>(w: World<R, A>, full: A, cs: seq<Command>) {
    forall i :: 0 <= i < |cs| ==> Replayable(w, full, cs[i])
  }

  lemma OneReplayable<R, A(!new)>(w: World<R, A>, full: A, a: A, c: Command)
    requires FullToken(w, full) && Canonical(w, c.args)
    ensures AllReplayable(w, full, SentOne(w, a, c))
  {
  }

  lemma {:induction false} PipeReplayable<R, A(!new)>(w: World<R, A>, full: A, a: A, reqs: seq<Request>)
    requires FullToken(w, full) && forall i :: 0 <= i < |reqs| ==> Clean(w, reqs[i])
    ensures AllReplayable(w, full, SentPipe(w, a, reqs))
    decreases |reqs|
  {
    if reqs != [] {
      var last := reqs[|reqs| - 1];
      PipeReplayable(w, full, a, reqs[..|reqs| - 1]);
      if last != [] {
        OneReplayable(w, full, a, ToCommand(w, last));
      }
    }
  }

  lemma CallReplayable<R, A(!new)>(w: World<R, A>, full: A, call: Call<A>)
    requires FullToken(w, full) && Decoder(w)
    ensures AllReplayable(w, full, SentCall(w, call))
  {
    match call
    case Path(a, segments) =>
      if segments != [] {
        OneReplayable(w, full, a, Command(segments[0], Texts(segments[1..])));
      }
    case Single(a, body) =>
      var req := w.decode(body);
      if req.Some? && req.value != [] {
        assert Clean(w, req.value);
        OneReplayable(w, full, a, ToCommand(w, req.value));
      }
    case Pipe(a, body) =>
      var reqs := w.decodeAll(body);
      if reqs.Some? {
        PipeReplayable(w, full, a, reqs.value);
      }
    case Multi(_, _) =>
  }

  lemma {:induction false} SentReplayable<R, A(!new)>(w: World<R, A>, full: A, calls: seq<Call<A>>)
    requires FullToken(w, full) && Decoder(w)
    ensures AllReplayable(w, full, Sent(w, calls))
    decreases |calls|
  {
    if calls != [] {
      SentReplayable(w, full, calls[..|calls| - 1]);
      CallReplayable(w, full, calls[|calls| - 1]);
    }
  }

  lemma OneLineArgs<R, A>(w: World<R, A>, args: Request)
    requires Decoder(w) && Canonical(w, args)
    ensures Json.OnOneLine(args)
  {
    forall i | 0 <= i < |args| && args[i].Literal? ensures Json.OneLine(args[i].text) {
      assert w.canonical(args[i].text);
    }
  }

  lemma EntryFramed(c: Command)
    requires Json.OnOneLine(c.args)
    ensures Framed(Entry(c))
  {
    Json.PrintedIsOneLine([Json.Text(c.name)] + c.args);
  }

  lemma LogEntries<R, A>(w: World<R, A>, sent: seq<Command>)
    requires Decoder(w) && forall i :: 0 <= i < |sent| ==> Canonical(w, sent[i].args)
    ensures Entries(Split(LogOf(sent))) == Map(Entry, sent)
  {
    forall i | 0 <= i < |sent| ensures Framed(Map(Entry, sent)[i]) {
      OneLineArgs(w, sent[i].args);
      EntryFramed(sent[i]);
    }
    EntriesOfFile(Map(Entry, sent));
  }

  lemma CoerceArgsCons(a: Json.Arg, args: seq<Json.Arg>)
    ensures Json.CoerceArgs([a] + args) == [Json.CoerceArg(a)] + Json.CoerceArgs(args)
  {
  }

  /** What is decoded from a printed request is decoded again as the same. */
  lemma DecodedAgain<R, A>(w: World<R, A>, written: Request)
    requires Decoder(w) && Canonical(w, written)
    ensures var req := Json.CoerceArgs(written);
      w.decode(Json.Print(written)) == Some(req) && w.decode(Json.Print(req)) == Some(req)
  {
    var req := Json.CoerceArgs(written);
    assert w.decode(Json.Print(written)) == Some(req);
    assert Clean(w, w.decode(Json.Print(written)).value);
    Json.CoerceArgsFixes(req);
  }

  /** The entry of a command is decoded as what it says, and decoded again as the same. */
  lemma EntryDecoded<R, A>(w: World<R, A>, c: Command) returns (req: Request)
    requires Decoder(w) && Canonical(w, c.args)
    ensures w.decode(Entry(c)) == Some(req) && w.decode(Json.Print(req)) == Some(req)
    ensures req != [] && ToCommand(w, req) == CoerceCommand(c)
  {
    var written := [Json.Text(c.name)] + c.args;
    req := Json.CoerceArgs(written);
    DecodedAgain(w, written);
    CoerceArgsCons(Json.Text(c.name), c.args);
    assert req[1..] == Json.CoerceArgs(c.args);
  }

  /** The gates and ACL RESTTOKEN do not tell a command from its entry. */
  lemma CoercedReplayable<R, A>(w: World<R, A>, full: A, c: Command)
    requires Decoder(w) && Replayable(w, full, c)
    ensures var d := CoerceCommand(c); Refusal(w, full, d.name).None? && !IsRestToken(w, d)
  {
    var d := CoerceCommand(c);
    assert w.upper(d.name) == w.upper(c.name) && w.lower(d.name) == w.lower(c.name);
    if c.args != [] {
      assert d.args[0] == Json.CoerceArg(c.args[0]);
      assert w.lower(Sprint(w, d.args[0])) == w.lower(Sprint(w, c.args[0]));
    }
  }

  /** Replaying a logged command executes what its entry says. */
  lemma ReplayLogged<R(!new), A(!new)>(w: World<R, A>, full: A, s: State<R>, c: Command)
    requires OneUser(w) && Decoder(w) && Replayable(w, full, c)
    ensures var (t, ok) := ReplayLine(w, full, s, Entry(c));
      var (r, reply) := w.step(s.redis, w.creds(full), CoerceCommand(c));
      t.redis == r && ok == !reply.Error?
  {
    var req := EntryDecoded(w, c);
    CoercedReplayable(w, full, c);
    assert w.up(s.redis) && w.creds(full) == DEFAULT_USER;
  }

  function Fine(reply: Reply): bool {
    !reply.Error?
  }

  lemma ReplayOfLog<R(!new), A(!new)>(w: World<R, A>, full: A, start: State<R>, sent: seq<Command>)
    requires OneUser(w) && Decoder(w) && AllReplayable(w, full, sent)
    ensures Matches(ReplaySteps(w, full), RedisSteps(w, full), RedisOf(), Fine,
                    start, Map(Entry, sent), Map(CoerceCommand, sent))
  {
    var lines, again := Map(Entry, sent), Map(CoerceCommand, sent);
    var f, h := ReplaySteps(w, full), RedisSteps(w, full);
    forall x: State<R>, k | 0 <= k < |sent| && RedisOf()(x) == Fold(h, start.redis, again[..k]).0
      ensures RedisOf()(f(x, lines[k]).0) == h(x.redis, again[k]).0
      ensures f(x, lines[k]).1 == Fine(h(x.redis, again[k]).1)
    {
      assert Replayable(w, full, sent[k]);
      ReplayLogged(w, full, x, sent[k]);
    }
    FoldSimulates(f, h, RedisOf(), Fine, start, lines, again, |sent|);
    assert lines[..|sent|] == lines && again[..|sent|] == again;
  }

  /** The replay of what a session recorded into a new file. */
  ghost function Replaying<R, A>(
    w: World<R, A>, full: A, s: State<R>, calls: seq<Call<A>>, start: State<R>): (State<R>, seq<bool>)
  {
    Fold(ReplaySteps(w, full), start, Entries(Split(Fold(Session(w), s, calls).0.recorded)))
  }

  /**
   * Replaying a recorded session with the full token runs the commands that the session sent outside
   * of transactions, with U+FFFD for stray bytes; a line succeeds exactly if that command does.
   */
  lemma RecordThenReplay<R(!new), A(!new)>(
    w: World<R, A>, full: A, s: State<R>, calls: seq<Call<A>>, start: State<R>)
    requires OneUser(w) && FullToken(w, full) && Decoder(w)
    requires s.recorded == ""
    ensures var (u, outcomes) := Replaying(w, full, s, calls, start);
      var (r, replies) := RunAll(w, full, start.redis, Map(CoerceCommand, Sent(w, calls)));
      u.redis == r && outcomes == Map(Fine, replies)
  {
    var t, sent := Fold(Session(w), s, calls).0, Sent(w, calls);
    LoggedSession(w, s, calls);
    assert t.recorded == LogOf(sent);
    SentReplayable(w, full, calls);
    assert forall i :: 0 <= i < |sent| ==> Replayable(w, full, sent[i]);
    LogEntries(w, sent);
    ReplayOfLog(w, full, start, sent);
  }

  // --- which sessions are logged as they were ---

  /** A path whose command reaches Redis has only valid segments. */
  predicate ValidPath<R, A>(w: World<R, A>, call: Call<A>) {
    call.Path? && SentCall(w, call) != [] ==>
      forall i :: 0 <= i < |call.segments| ==> Json.ValidUtf8(call.segments[i])
  }

  lemma TextsValid(segments: seq<GoString>)
    ensures Json.ValidArgs(Texts(segments)) <==>
      forall i :: 0 <= i < |segments| ==> Json.ValidUtf8(segments[i])
  {
    forall i | 0 <= i < |segments| ensures Json.ValidArg(Texts(segments)[i]) <==> Json.ValidUtf8(segments[i]) {
      assert Texts(segments)[i] == Json.Text(segments[i]);
    }
  }

  lemma PathValid(segments: seq<GoString>)
    requires segments != []
    ensures ValidCommand(Command(segments[0], Texts(segments[1..]))) <==>
      forall i :: 0 <= i < |segments| ==> Json.ValidUtf8(segments[i])
  {
    TextsValid(segments[1..]);
    assert forall i :: 1 <= i < |segments| ==> segments[i] == segments[1..][i - 1];
  }

  lemma DecodedValid<R, A>(w: World<R, A>, a: A, req: Request)
    requires Decoder(w) && Clean(w, req) && req != []
    ensures AllValid(SentOne(w, a, ToCommand(w, req)))
  {
    assert Json.ValidArg(req[0]);
  }

  lemma {:induction false} PipeValid<R, A>(w: World<R, A>, a: A, reqs: seq<Request>)
    requires Decoder(w) && forall i :: 0 <= i < |reqs| ==> Clean(w, reqs[i])
    ensures AllValid(SentPipe(w, a, reqs))
    decreases |reqs|
  {
    if reqs != [] {
      var last := reqs[|reqs| - 1];
      PipeValid(w, a, reqs[..|reqs| - 1]);
      if last != [] {
        DecodedValid(w, a, last);
      }
    }
  }

  lemma CallValidIff<R, A>(w: World<R, A>, call: Call<A>)
    requires Decoder(w)
    ensures AllValid(SentCall(w, call)) <==> ValidPath(w, call)
  {
    match call
    case Path(a, segments) =>
      if segments != [] {
        var c := Command(segments[0], Texts(segments[1..]));
        PathValid(segments);
        assert SentCall(w, call) == SentOne(w, a, c);
        assert SentOne(w, a, c) == [c] ==> (AllValid([c]) <==> ValidCommand([c][0]));
      }
    case Single(a, body) =>
      var req := w.decode(body);
      if req.Some? && req.value != [] {
        DecodedValid(w, a, req.value);
      }
    case Pipe(a, body) =>
      var reqs := w.decodeAll(body);
      if reqs.Some? {
        PipeValid(w, a, reqs.value);
      }
    case Multi(_, _) =>
  }

  lemma AllValidConcat(x: seq<Command>, y: seq<Command>)
    ensures AllValid(x + y) <==> AllValid(x) && AllValid(y)
  {
    if AllValid(x + y) {
      assert forall i :: 0 <= i < |x| ==> x[i] == (x + y)[i];
      assert forall i :: 0 <= i < |y| ==> y[i] == (x + y)[|x| + i];
    }
  }

  predicate AllPathsValid<R, A>(w: World<R, A>, calls: seq<Call<A>>) {
    forall i :: 0 <= i < |calls| ==> ValidPath(w, calls[i])
  }

  lemma AllPathsValidSnoc<R, A>(w: World<R, A>, calls: seq<Call<A>>)
    requires calls != []
    ensures AllPathsValid(w, calls) <==>
      AllPathsValid(w, calls[..|calls| - 1]) && ValidPath(w, calls[|calls| - 1])
  {
    assert forall i :: 0 <= i < |calls| - 1 ==> calls[..|calls| - 1][i] == calls[i];
  }

  lemma SentSnocValid<R, A>(w: World<R, A>, calls: seq<Call<A>>)
    requires calls != []
    ensures AllValid(Sent(w, calls)) <==>
      AllValid(Sent(w, calls[..|calls| - 1])) && AllValid(SentCall(w, calls[|calls| - 1]))
  {
    AllValidConcat(Sent(w, calls[..|calls| - 1]), SentCall(w, calls[|calls| - 1]));
  }

  /** The commands of a session are valid exactly if all segments of its paths are; bodies always are. */
  lemma {:induction false} SessionValidIff<R, A>(w: World<R, A>, calls: seq<Call<A>>)
    requires Decoder(w)
    ensures AllValid(Sent(w, calls)) <==> AllPathsValid(w, calls)
    decreases |calls|
  {
    if calls != [] {
      SessionValidIff(w, calls[..|calls| - 1]);
      SentSnocValid(w, calls);
      AllPathsValidSnoc(w, calls);
      CallValidIff(w, calls[|calls| - 1]);
    }
  }

  /** POST /SET/k with the single byte 0xFF as its body: the log says U+FFFD, and so does the replay. */
  lemma StrayByteIsLost<R, A>(w: World<R, A>, a: A)
    requires Refusal(w, a, Json.Runes("SET")).None?
    requires !IsRestToken(w, Command(Json.Runes("SET"), Texts([Json.Runes("k"), [Json.Stray(0xFF)]])))
    ensures var call := Path(a, [Json.Runes("SET"), Json.Runes("k"), [Json.Stray(0xFF)]]);
      SentCall(w, call) != [] && !AllValid(SentCall(w, call))
  {
    var segments := [Json.Runes("SET"), Json.Runes("k"), [Json.Stray(0xFF)]];
    assert segments[1..] == [Json.Runes("k"), [Json.Stray(0xFF)]];
    var c := Command(segments[0], Texts(segments[1..]));
    PathValid(segments);
    assert segments[2][0] == Json.Stray(0xFF);
    assert SentCall(w, Path(a, segments)) == [c] && [c][0] == c;
  }

  /**
   * So, if the segments of its paths are valid UTF-8, a replay from the same data ends in the data
   * that the session would have left without its transactions.
   */
  lemma ReplayOfValidSession<R(!new), A(!new)>(
    w: World<R, A>, full: A, s: State<R>, calls: seq<Call<A>>, start: State<R>)
    requires OneUser(w) && FullToken(w, full) && Decoder(w)
    requires s.recorded == "" && start.redis == s.redis && AllPathsValid(w, calls)
    ensures Replaying(w, full, s, calls, start).0.redis == Fold(Session(w), s, Filter(Logging(), calls)).0.redis
  {
    RecordThenReplay(w, full, s, calls, start);
    SessionValidIff(w, calls);
    CoerceFixesValid(Sent(w, calls));
    RanSession(w, full, s, calls);
  }

  // --- exactly when ---

  /** A Redis that keeps all it was told. */
  ghost predicate Remembers<A>(w: World<seq<Command>, A>) {
    forall r, u, c :: w.step(r, u, c).0 == r + [c]
  }

  lemma {:induction false} RemembersAll<A>(w: World<seq<Command>, A>, a: A, r: seq<Command>, queue: seq<Command>)
    requires Remembers(w)
    ensures RunAll(w, a, r, queue).0 == r + queue
    decreases |queue|
  {
    if queue == [] {
      assert r + queue == r;
    } else {
      var n := |queue| - 1;
      RemembersAll(w, a, r, queue[..n]);
      assert queue == queue[..n] + [queue[n]];
      FoldSnoc(RedisSteps(w, a), r, queue[..n], queue[n]);
      assert (r + queue[..n]) + [queue[n]] == r + (queue[..n] + [queue[n]]);
    }
  }

  lemma SamePrefix<T>(r: seq<T>, x: seq<T>, y: seq<T>)
    ensures r + x == r + y <==> x == y
  {
    if r + x == r + y {
      assert (r + x)[|r|..] == x && (r + y)[|r|..] == y;
    }
  }

  /**
   * With a Redis that keeps all it was told, the replay agrees if and only if all segments of the
   * paths that reach it are valid.
   */
  lemma ReplayAgreesIff<A(!new)>(
    w: World<seq<Command>, A>, full: A, s: State<seq<Command>>, calls: seq<Call<A>>, start: State<seq<Command>>)
    requires OneUser(w) && FullToken(w, full) && Decoder(w) && Remembers(w)
    requires s.recorded == "" && start.redis == s.redis
    ensures Replaying(w, full, s, calls, start).0.redis == Fold(Session(w), s, Filter(Logging(), calls)).0.redis
      <==> AllPathsValid(w, calls)
  {
    var sent := Sent(w, calls);
    RecordThenReplay(w, full, s, calls, start);
    RanSession(w, full, s, calls);
    SessionValidIff(w, calls);
    RemembersAll(w, full, s.redis, sent);
    RemembersAll(w, full, s.redis, Map(CoerceCommand, sent));
    CoerceFixesValid(sent);
    SamePrefix(s.redis, Map(CoerceCommand, sent), sent);
  }

  // --- decoders that meet the requirements ---

  /**
   * The decoder of arrays of strings and of values that are read and printed as `values` says, with
   * printing and changing case as Go does them.
   */
  ghost predicate DecodesSimply<R, A>(w: World<R, A>, values: Json.Values) {
    && (forall t :: w.canonical(t) <==> Json.IsValue(t) && values(t) == Some(t))
    && (forall t :: Json.ValidUtf8(w.sprint(t)))
    && (forall body :: w.decode(body) == Json.Parse(values, body))
    && (forall body :: w.decodeAll(body) == Json.ParseAll(values, body))
    && (forall x :: w.upper(Json.Coerce(x)) == w.upper(x) && w.lower(Json.Coerce(x)) == w.lower(x))
  }

  /** It meets them if what is printed for a value is read as that value. */
  lemma SimpleIsDecoder<R, A>(w: World<R, A>, values: Json.Values)
    requires Json.Faithful(values) && DecodesSimply(w, values)
    ensures Decoder(w)
  {
    assert forall t :: w.canonical(t) ==> Json.OneLine(t);
    forall body | w.decode(body).Some? ensures Clean(w, w.decode(body).value) {
      Json.ParsedIsCanonical(values, body);
      SameCanonical(w, values, w.decode(body).value);
    }
    forall body, i | w.decodeAll(body).Some? && 0 <= i < |w.decodeAll(body).value|
      ensures Clean(w, w.decodeAll(body).value[i])
    {
      Json.ParsedAllAreCanonical(values, body);
      SameCanonical(w, values, w.decodeAll(body).value[i]);
    }
    forall req | Canonical(w, req) ensures w.decode(Json.Print(req)) == Some(Json.CoerceArgs(req)) {
      SameCanonical(w, values, req);
      Json.ParsePrint(values, req);
    }
  }

  lemma SameCanonical<R, A>(w: World<R, A>, values: Json.Values, req: Request)
    requires DecodesSimply(w, values)
    ensures Canonical(w, req) <==> Json.Canonical(values, req)
  {
    forall i | 0 <= i < |req| && req[i].Literal?
      ensures w.canonical(req[i].text) <==> Json.CanonicalArg(values, req[i])
    {
      assert w.canonical(req[i].text) <==> Json.IsValue(req[i].text) && values(req[i].text) == Some(req[i].text);
    }
  }

  /** One that refuses [abc] and reads [1.0] as [1] is among them. */
  lemma StrictDecoder<R, A>(w: World<R, A>)
    requires DecodesSimply(w, Json.SimpleValues)
    ensures Decoder(w) && w.decode("[abc]") == None && w.decode("[1.0]") == w.decode("[1]") == Some([Json.Literal("1")])
  {
    Json.SimpleValuesAreFaithful();
    SimpleIsDecoder(w, Json.SimpleValues);
    Json.SimpleDecoder();
  }

  // --- single lines ---

  /** A line that cannot be decoded changes nothing and counts as failed. */
  lemma UnreadableLineFails<R, A>(w: World<R, A>, a: A, s: State<R>, line: string)
    requires w.decode(line) == None
    ensures ReplaySteps(w, a)(s, line) == (s, false)
  {
  }

  /** Any other is executed as a command, and counts as failed exactly if that is answered with an error. */
  lemma ReadableLineCounts<R, A>(w: World<R, A>, a: A, s: State<R>, line: string, req: Request)
    requires w.decode(line) == Some(req) && w.decode(Json.Print(req)) == Some(req) && req != []
    ensures var (t, d) := Execute(w, a, s, Command(Sprint(w, req[0]), req[1..]));
      ReplaySteps(w, a)(s, line) == (t, d.Success? || d.Batch?)
  {
  }

  lemma OneOfTwo()
    ensures Successes([true, false]) == 1
  {
    assert [true, false][..1] == [true] && [true][..0] == [];
    assert Successes([true]) == 1;
  }

  /** Of three lines of which the second fails, two count. */
  lemma TwoOfThree()
    ensures Successes([true, false, true]) == 2
  {
    OneOfTwo();
    assert [true, false, true][..2] == [true, false];
  }
}
