/** The CLI's import as the server runs it: one pipeline request, behind the gates for commands. */
module CliServed {
  import opened Wrappers
  import opened Folds
  import opened Transactions
  import opened CliImport
  import C = Commands
  import D = Dashboard
  import ReplyTree
  import Json

  const SET: Json.GoString := Json.Runes("SET")

  function ArgsOf(c: SetCommand): seq<Json.Arg> {
    [Json.Text(Json.Runes(c.key)), Json.Text(Json.Runes(c.value))]
  }

  function CommandOf(c: SetCommand): C.Command {
    C.Command(SET, ArgsOf(c))
  }

  function RequestOf(c: SetCommand): C.Request {
    [Json.Text(SET)] + ArgsOf(c)
  }

  /** What is sent: Go marshals a list that nothing was appended to as null. */
  function BodyOf(cmds: seq<SetCommand>): string {
    if cmds == [] then "null" else Json.PrintAll(Map(RequestOf, cmds))
  }

  // --- the server ---

  /** Requests of strings are decoded as they were encoded; null is no request. */
  ghost predicate ReadsBodies<A>(w: C.World<D.Db, A>) {
    && w.decodeAll("null").GetOr([]) == []
    && forall cmds: seq<SetCommand> :: cmds != [] ==> w.decodeAll(BodyOf(cmds)) == Some(Map(RequestOf, cmds))
  }

  /** Redis can be reached, and SET writes a string without an expiry. */
  ghost predicate ServesSet<A(!new)>(w: C.World<D.Db, A>, a: A) {
    && (forall db :: w.up(db) && C.Login(w, db, w.creds(a)).None?)
    && (forall db, c: SetCommand ::
          w.step(db, w.creds(a), CommandOf(c)) == (D.Set(db, c.key, c.value), ReplyTree.Text(ReplyTree.OK)))
    && w.lower(SET) != Json.Runes("acl")
  }

  lemma RequestIsValid(values: Json.Values, c: SetCommand)
    ensures Json.Canonical(values, RequestOf(c)) && Json.CoerceArgs(RequestOf(c)) == RequestOf(c)
  {
    Json.CoerceArgsFixes(RequestOf(c));
  }

  lemma RequestsAreValid(values: Json.Values, cmds: seq<SetCommand>)
    ensures var lists := Map(RequestOf, cmds);
      Json.AllCanonical(values, lists) && Json.CoerceAll(lists) == lists
  {
    forall i | 0 <= i < |cmds|
      ensures Json.Canonical(values, Map(RequestOf, cmds)[i])
      ensures Json.CoerceAll(Map(RequestOf, cmds))[i] == Map(RequestOf, cmds)[i]
    {
      RequestIsValid(values, cmds[i]);
    }
  }

  /** Neither the token's gate nor the one for dangerous commands stops SET. */
  predicate MaySet<A>(w: C.World<D.Db, A>, a: A) {
    w.allowed(a, w.upper(SET)) == None && w.blocked(w.upper(SET)) == None
  }

  lemma ReadAsWritten(values: Json.Values, cmds: seq<SetCommand>)
    requires cmds != []
    ensures Json.ParseAll(values, BodyOf(cmds)) == Some(Map(RequestOf, cmds))
  {
    RequestsAreValid(values, cmds);
    Json.ParsePrintAll(values, Map(RequestOf, cmds));
  }

  /** The decoder of JSON lists is one that reads them. */
  lemma SomeDecoderReadsBodies<A>(w: C.World<D.Db, A>, values: Json.Values)
    requires forall body :: w.decodeAll(body) == Json.ParseAll(values, body)
    ensures ReadsBodies(w)
  {
    assert Json.Skip("null") == "null";
    forall cmds: seq<SetCommand> | cmds != [] ensures w.decodeAll(BodyOf(cmds)) == Some(Map(RequestOf, cmds)) {
      ReadAsWritten(values, cmds);
    }
  }

  // --- the pipeline of the import ---

  lemma RequestsAsCommands<A>(w: C.World<D.Db, A>, cmds: seq<SetCommand>)
    ensures var reqs := Map(RequestOf, cmds);
      C.NoEmpty(reqs) && C.ToCommands(w, reqs) == Map(CommandOf, cmds)
  {
    forall c: SetCommand ensures C.ToCommand(w, RequestOf(c)) == CommandOf(c) {
      assert RequestOf(c)[1..] == ArgsOf(c);
    }
  }

  lemma {:induction false} RunSets<A(!new)>(w: C.World<D.Db, A>, a: A, db: D.Db, cmds: seq<SetCommand>)
    requires ServesSet(w, a)
    ensures C.RunAll(w, a, db, Map(CommandOf, cmds)).0 == SetAll(db, cmds)
    decreases |cmds|
  {
    if cmds != [] {
      var n := |cmds| - 1;
      RunSets(w, a, db, cmds[..n]);
      assert Map(CommandOf, cmds) == Map(CommandOf, cmds[..n]) + [CommandOf(cmds[n])];
      FoldSnoc(C.RedisSteps(w, a), db, Map(CommandOf, cmds[..n]), CommandOf(cmds[n]));
    }
  }

  lemma PassesGates<A(!new)>(w: C.World<D.Db, A>, a: A, db: D.Db, cmds: seq<SetCommand>)
    requires ServesSet(w, a) && MaySet(w, a)
    ensures var reqs, queue := Map(RequestOf, cmds), Map(CommandOf, cmds);
      NoneRefused(w, a, reqs) && NoRestToken(w, queue) && Connects(w, a, db, queue)
  {
    RequestsAsCommands(w, cmds);
    assert forall c: SetCommand :: C.ToCommand(w, RequestOf(c)).name == SET;
  }

  lemma ServedPipeline<A(!new)>(w: C.World<D.Db, A>, a: A, s: C.State<D.Db>, cmds: seq<SetCommand>)
    requires ServesSet(w, a) && MaySet(w, a)
    ensures C.Pipeline(w, a, s, Map(RequestOf, cmds)).0.redis == SetAll(s.redis, cmds)
  {
    RequestsAsCommands(w, cmds);
    PassesGates(w, a, s.redis, cmds);
    PipelineRunsAll(w, a, s, Map(RequestOf, cmds));
    RunSets(w, a, s.redis, cmds);
  }

  lemma {:induction false} NothingKept(keep: C.Request -> bool, reqs: seq<C.Request>)
    requires forall i :: 0 <= i < |reqs| ==> !keep(reqs[i])
    ensures Filter(keep, reqs) == []
    decreases |reqs|
  {
    if reqs != [] {
      NothingKept(keep, reqs[..|reqs| - 1]);
    }
  }

  lemma RefusedPipeline<A(!new)>(w: C.World<D.Db, A>, a: A, s: C.State<D.Db>, cmds: seq<SetCommand>)
    requires !MaySet(w, a)
    ensures C.Pipeline(w, a, s, Map(RequestOf, cmds)).0 == s
  {
    var reqs := Map(RequestOf, cmds);
    forall i | 0 <= i < |reqs| ensures !Kept(w, a)(reqs[i]) {
      assert C.ToCommand(w, RequestOf(cmds[i])).name == SET;
    }
    NothingKept(Kept(w, a), reqs);
    PipelineSkipsRefused(w, a, s, reqs);
  }

  /** The database after the server has answered the import. */
  function Imported<A>(w: C.World<D.Db, A>, a: A, s: C.State<D.Db>, p: D.Printer, items: seq<D.Item>): D.Db {
    C.PipelineBody(w, a, s, BodyOf(SetCommands(p, items))).0.redis
  }

  /**
   * With a token that may SET, the import overwrites: every key of the dump ends as an unexpiring
   * string with its last value. With any other token nothing changes.
   */
  lemma ServedImport<A(!new)>(
    w: C.World<D.Db, A>, a: A, s: C.State<D.Db>, p: D.Printer, items: seq<D.Item>, key: string)
    requires ReadsBodies(w) && ServesSet(w, a)
    ensures MaySet(w, a) ==>
      Overwritten(s.redis, Imported(w, a, s, p, items), key, LastFor(p, items, key))
    ensures !MaySet(w, a) ==> Imported(w, a, s, p, items) == s.redis
  {
    var cmds := SetCommands(p, items);
    Overwrites(p, s.redis, items, key);
    if cmds != [] {
      if MaySet(w, a) {
        ServedPipeline(w, a, s, cmds);
      } else {
        RefusedPipeline(w, a, s, cmds);
      }
    }
  }

  /** So an export is restored into an empty database exactly if the token may SET and it holds lasting strings only. */
  lemma ServedRestoresIff<A(!new)>(
    w: C.World<D.Db, A>, a: A, s: C.State<D.Db>, p: D.Printer, db: D.Db, keys: seq<string>)
    requires ReadsBodies(w) && ServesSet(w, a) && D.KeySet(keys) == db.Keys && db != map[] && s.redis == map[]
    ensures Imported(w, a, s, p, D.ExportFile(db, keys)) == db
      <==> MaySet(w, a) && OnlyLastingStrings(db)
  {
    var cmds := SetCommands(p, D.ExportFile(db, keys));
    RestoresIff(p, db, keys);
    if !MaySet(w, a) {
      ServedImport(w, a, s, p, D.ExportFile(db, keys), "");
    } else if cmds != [] {
      ServedPipeline(w, a, s, cmds);
    }
  }
}
