/** The import command of the CLI: a SET for every key of the dump, sent as one pipeline. */
module CliImport {
  import opened Wrappers
  import opened Dashboard

  datatype SetCommand = SetCommand(key: string, value: string)

  /** The commands for a dump, in its order; items without a key are left out. */
  function SetCommands(p: Printer, items: seq<Item>): seq<SetCommand>
    decreases |items|
  {
    if items == [] then []
    else
      var last := items[|items| - 1];
      var front := SetCommands(p, items[..|items| - 1]);
      if KeyOf(last) == "" then front else front + [SetCommand(KeyOf(last), Sprint(p, ValueOf(last)))]
  }

  function SetAll(db: Db, cmds: seq<SetCommand>): Db
    decreases |cmds|
  {
    if cmds == [] then db
    else
      var last := cmds[|cmds| - 1];
      Set(SetAll(db, cmds[..|cmds| - 1]), last.key, last.value)
  }

  method ImportFile(p: Printer, items: seq<Item>) returns (cmds: seq<SetCommand>)
    ensures cmds == SetCommands(p, items)
  {
    cmds := [];
    for i := 0 to |items|
      invariant cmds == SetCommands(p, items[..i])
    {
      assert items[..i + 1][..i] == items[..i];
      var key := KeyOf(items[i]);
      if key != "" {
        cmds := cmds + [SetCommand(key, Sprint(p, ValueOf(items[i])))];
      }
    }
    assert items[..|items|] == items;
  }

  /** The value of the last item with this key. */
  function LastFor(p: Printer, items: seq<Item>, key: string): Option<string>
    decreases |items|
  {
    if items == [] then None
    else
      var last := items[|items| - 1];
      if KeyOf(last) == key then Some(Sprint(p, ValueOf(last))) else LastFor(p, items[..|items| - 1], key)
  }

  lemma SetAllSnoc(db: Db, cmds: seq<SetCommand>, c: SetCommand)
    ensures SetAll(db, cmds + [c]) == Set(SetAll(db, cmds), c.key, c.value)
  {
    assert (cmds + [c])[..|cmds|] == cmds;
  }

  /** The entry of one key before and after an import that named it last with `last`, if at all. */
  predicate Overwritten(before: Db, after: Db, key: string, last: Option<string>) {
    if key != "" && last.Some? then key in after && after[key] == Entry(Str(last.value), -1)
    else (key in after <==> key in before) && (key in before ==> after[key] == before[key])
  }

  /**
   * Whatever the database holds, and whatever the items say about types and TTLs, every key of the
   * dump ends as an unexpiring string with its last value; all other keys stay as they were.
   */
  lemma {:induction false} Overwrites(p: Printer, db: Db, items: seq<Item>, key: string)
    ensures Overwritten(db, SetAll(db, SetCommands(p, items)), key, LastFor(p, items, key))
    decreases |items|
  {
    if items != [] {
      var front, last := items[..|items| - 1], items[|items| - 1];
      Overwrites(p, db, front, key);
      if KeyOf(last) != "" {
        SetAllSnoc(db, SetCommands(p, front), SetCommand(KeyOf(last), Sprint(p, ValueOf(last))));
      }
    }
  }

  lemma {:induction false} LastOfFile(p: Printer, db: Db, keys: seq<string>, key: string)
    requires key in db && db[key].value.Str?
    ensures LastFor(p, ExportFile(db, keys), key) == if key in keys then Some(db[key].value.s) else None
    decreases |keys|
  {
    var items := ExportFile(db, keys);
    if keys != [] {
      var n := |keys| - 1;
      assert items[..n] == ExportFile(db, keys[..n]) && keys == keys[..n] + [keys[n]];
      ItemSurvives(db, keys[n]);
      LastOfFile(p, db, keys[..n], key);
    }
  }

  lemma {:induction false} NamedInFile(p: Printer, db: Db, keys: seq<string>, key: string)
    ensures LastFor(p, ExportFile(db, keys), key).Some? <==> key in keys
    decreases |keys|
  {
    var items := ExportFile(db, keys);
    if keys != [] {
      var n := |keys| - 1;
      assert items[..n] == ExportFile(db, keys[..n]) && keys == keys[..n] + [keys[n]];
      ItemSurvives(db, keys[n]);
      NamedInFile(p, db, keys[..n], key);
    }
  }

  predicate OnlyLastingStrings(db: Db) {
    "" !in db && forall k <- db :: db[k].value.Str? && db[k].ttl == -1
  }

  lemma RestoredKey(p: Printer, db: Db, keys: seq<string>, key: string)
    requires KeySet(keys) == db.Keys
    ensures var after := SetAll(map[], SetCommands(p, ExportFile(db, keys)));
      && (key in after <==> key in db && key != "")
      && (key in after ==> after[key].value.Str? && after[key].ttl == -1)
      && (key in after && db[key].value.Str? ==> after[key].value == db[key].value)
  {
    Overwrites(p, map[], ExportFile(db, keys), key);
    NamedInFile(p, db, keys, key);
    assert key in keys <==> key in KeySet(keys);
    if key in db && db[key].value.Str? {
      LastOfFile(p, db, keys, key);
    }
  }

  /** A dump with types and TTLs is restored by it if and only if there are only unexpiring strings. */
  lemma RestoresIff(p: Printer, db: Db, keys: seq<string>)
    requires KeySet(keys) == db.Keys
    ensures SetAll(map[], SetCommands(p, ExportFile(db, keys))) == db <==> OnlyLastingStrings(db)
  {
    var after := SetAll(map[], SetCommands(p, ExportFile(db, keys)));
    forall key
      ensures key in after <==> key in db && key != ""
      ensures key in after ==> after[key].value.Str? && after[key].ttl == -1
      ensures key in after && db[key].value.Str? ==> after[key].value == db[key].value
    {
      RestoredKey(p, db, keys, key);
    }
    if OnlyLastingStrings(db) {
      assert forall k <- db :: after[k] == db[k];
    }
    if after == db {
      assert "" !in after;
      assert forall k <- db :: after[k] == db[k];
    }
  }
}
