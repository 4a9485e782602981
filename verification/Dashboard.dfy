/** Export and import of keys: SCAN, the exported items, the JSON step, and writing them back. */
module Dashboard {
  import opened Wrappers

  // --- the data ---

  /** `Items` stands for every other type: all its strings, in the order Redis reports them. */
  datatype Value = Str(s: string) | Hash(fields: map<string, string>) | Items(kind: string, items: seq<string>)

  /** A key's value and what TTL reports for it: -1 without an expiry, else the seconds left. */
  datatype Entry = Entry(value: Value, ttl: int)

  type Db = map<string, Entry>

  predicate ValidValue(v: Value) {
    match v
    case Str(_) => true
    case Hash(fields) => fields != map[]
    case Items(kind, _) => kind != "string" && kind != "hash" && kind != "none"
  }

  predicate ValidDb(db: Db) {
    forall k <- db :: db[k].ttl >= -1 && ValidValue(db[k].value)
  }

  /** Go values of type interface{}, as far as export and import meet them. */
  datatype Any =
    | AString(s: string)
    | AInt(n: int)
    | AFloat(x: real)
    | ABool(b: bool)
    | AMap(m: map<string, string>)
    | AStrings(l: seq<string>)
    | AArray(elems: seq<Any>)
    | AObject(o: map<string, Any>)
    | ANull

  type Item = map<string, Any>

  /** How Go prints numbers, booleans and maps. */
  type Printer = Any -> string

  function Joined(parts: seq<string>): string
    decreases |parts|
  {
    if parts == [] then "" else if |parts| == 1 then parts[0] else parts[0] + " " + Joined(parts[1..])
  }

  /** fmt.Sprint. */
  function Sprint(p: Printer, a: Any): string
    decreases a
  {
    match a
    case AString(s) => s
    case ANull => "<nil>"
    case AStrings(l) => "[" + Joined(l) + "]"
    case AArray(elems) => "[" + Joined(seq(|elems|, i requires 0 <= i < |elems| => Sprint(p, elems[i]))) + "]"
    case _ => p(a)
  }

  function Printed(p: Printer, o: map<string, Any>): map<string, string> {
    map k | k in o :: Sprint(p, o[k])
  }

  /** What a value becomes when it is marshalled and unmarshalled into an interface{}. */
  function JsonStep(a: Any): Any {
    match a
    case AInt(n) => AFloat(n as real)
    case AMap(m) => AObject(map k | k in m :: AString(m[k]))
    case AStrings(l) => AArray(seq(|l|, i requires 0 <= i < |l| => AString(l[i])))
    case _ => a
  }

  function JsonItem(item: Item): Item {
    map k | k in item :: JsonStep(item[k])
  }

  // --- scanning ---

  type Answer = Result<seq<string>, string>

  predicate AllOk(batches: seq<Answer>) {
    forall i :: 0 <= i < |batches| ==> batches[i].Ok?
  }

  function Gathered(batches: seq<Answer>): seq<string>
    requires AllOk(batches)
    decreases |batches|
  {
    if batches == [] then [] else Gathered(batches[..|batches| - 1]) + batches[|batches| - 1].value
  }

  lemma GatheredUpTo(batches: seq<Answer>, i: nat)
    requires i < |batches| && AllOk(batches[..i + 1])
    ensures AllOk(batches[..i]) && Gathered(batches[..i + 1]) == Gathered(batches[..i]) + batches[i].value
  {
    assert batches[..i + 1][..i] == batches[..i];
    assert batches[..i + 1][i] == batches[i];
    forall k | 0 <= k < i ensures batches[..i][k].Ok? {
      assert batches[..i + 1][k] == batches[k];
    }
  }

  /**
   * SCAN until the cursor is back at 0, a positive limit is reached, or a call fails; `batches` are
   * the answers up to the one with cursor 0, and `last` is the last one asked for.
   */
  method ScanKeys(batches: seq<Answer>, limit: int) returns (keys: Answer, ghost last: nat)
    requires batches != []
    ensures last < |batches| && AllOk(batches[..last])
    ensures limit > 0 ==> |Gathered(batches[..last])| < limit
    ensures batches[last].Err? ==> keys == batches[last]
    ensures batches[last].Ok? ==>
      AllOk(batches[..last + 1]) &&
      var all := Gathered(batches[..last + 1]);
      if 0 < limit <= |all| then keys == Ok(all[..limit]) else keys == Ok(all) && last == |batches| - 1
  {
    var found: seq<string> := [];
    var i := 0;
    while true
      invariant 0 <= i < |batches| && AllOk(batches[..i]) && found == Gathered(batches[..i])
      invariant limit > 0 ==> |found| < limit
      decreases |batches| - i
    {
      last := i;
      if batches[i].Err? {
        keys := batches[i];
        break;
      }
      assert AllOk(batches[..i + 1]);
      GatheredUpTo(batches, i);
      found := found + batches[i].value;
      i := i + 1;
      if limit > 0 && |found| >= limit {
        keys := Ok(found[..limit]);
        break;
      }
      if i == |batches| {
        keys := Ok(found);
        break;
      }
    }
  }

  // --- exporting ---

  function First(n: nat, items: seq<string>): seq<string> {
    if |items| <= n then items else items[..n]
  }

  function ItemsOf(db: Db, key: string): seq<string> {
    if key in db && db[key].value.Items? then db[key].value.items else []
  }

  /** Lists and sorted sets are cut off after 50 entries; a sorted set's entry is a member and its score. */
  function ReadKeyValue(db: Db, key: string, kind: string): Any {
    if kind == "string" then
      AString(if key in db && db[key].value.Str? then db[key].value.s else "")
    else if kind == "hash" then
      AMap(if key in db && db[key].value.Hash? then db[key].value.fields else map[])
    else if kind == "list" then AStrings(First(50, ItemsOf(db, key)))
    else if kind == "set" then AStrings(ItemsOf(db, key))
    else if kind == "zset" then AStrings(First(100, ItemsOf(db, key)))
    else ANull
  }

  function KindName(v: Value): string {
    match v
    case Str(_) => "string"
    case Hash(_) => "hash"
    case Items(kind, _) => kind
  }

  function Kind(db: Db, key: string): string {
    if key !in db then "none" else KindName(db[key].value)
  }

  function Ttl(db: Db, key: string): int {
    if key in db then db[key].ttl else -2
  }

  function ExportItem(db: Db, key: string): Item {
    map["key" := AString(key), "type" := AString(Kind(db, key)),
        "value" := ReadKeyValue(db, key, Kind(db, key)), "ttl" := AInt(Ttl(db, key))]
  }

  /** The file that is exported for these keys and read again by an import. */
  function ExportFile(db: Db, keys: seq<string>): seq<Item> {
    seq(|keys|, i requires 0 <= i < |keys| => JsonItem(ExportItem(db, keys[i])))
  }

  // --- importing ---

  function Truncate(x: real): int {
    if x >= 0.0 then x.Floor else -(-x).Floor
  }

  function KeyOf(item: Item): string {
    if "key" in item && item["key"].AString? then item["key"].s else ""
  }

  function KindOf(item: Item): string {
    if "type" in item && item["type"].AString? then item["type"].s else ""
  }

  function ValueOf(item: Item): Any {
    if "value" in item then item["value"] else ANull
  }

  function SecondsOf(item: Item): int {
    if "ttl" in item && item["ttl"].AFloat? then Truncate(item["ttl"].x) else 0
  }

  function Set(db: Db, key: string, s: string): Db {
    db[key := Entry(Str(s), -1)]
  }

  const WRONG_TYPE := "WRONGTYPE Operation against a key holding the wrong kind of value"
  const NO_FIELDS := "ERR wrong number of arguments for 'hset' command"
  const INVALID_HASH := "invalid hash value"

  function HSet(db: Db, key: string, fields: map<string, string>): Result<Db, string> {
    if fields == map[] then Err(NO_FIELDS)
    else if key !in db then Ok(db[key := Entry(Hash(fields), -1)])
    else if !db[key].value.Hash? then Err(WRONG_TYPE)
    else Ok(db[key := Entry(Hash(db[key].value.fields + fields), db[key].ttl)])
  }

  function Expire(db: Db, key: string, seconds: int): Db {
    if key in db then db[key := db[key].(ttl := seconds)] else db
  }

  function WriteKeyValue(p: Printer, db: Db, key: string, kind: string, value: Any): Result<Db, string> {
    if kind == "string" then Ok(Set(db, key, Sprint(p, value)))
    else if kind == "hash" then
      if !value.AObject? then Err(INVALID_HASH)
      else HSet(db, key, Printed(p, value.o))
    else if Sprint(p, value) != "" && Sprint(p, value) != "<nil>" then Ok(Set(db, key, Sprint(p, value)))
    else Ok(db)
  }

  function ImportItem(p: Printer, db: Db, item: Item): Result<Db, string> {
    var key := KeyOf(item);
    if key == "" then Ok(db)
    else
      var written := WriteKeyValue(p, db, key, KindOf(item), ValueOf(item));
      if written.Err? || SecondsOf(item) <= 0 then written
      else Ok(Expire(written.value, key, SecondsOf(item)))
  }

  datatype Import = Import(db: Db, error: Option<string>)

  /** Items are imported in order up to the first that fails. */
  function ImportAll(p: Printer, db: Db, items: seq<Item>): Import
    decreases |items|
  {
    if items == [] then Import(db, None)
    else
      match ImportItem(p, db, items[0])
      case Err(e) => Import(db, Some("import " + KeyOf(items[0]) + ": " + e))
      case Ok(next) => ImportAll(p, next, items[1..])
  }

  class Redis {
    const show: Printer
    var db: Db

    constructor (show: Printer, db: Db)
      ensures this.show == show && this.db == db
    {
      this.show, this.db := show, db;
    }

    /** If every SCAN succeeds, one item per key found; otherwise the error of the first that fails. */
    method ExportData(batches: seq<Answer>) returns (items: Result<seq<Item>, string>)
      requires batches != []
      ensures items.Ok? <==> AllOk(batches)
      ensures items.Ok? ==> |items.value| == |Gathered(batches)|
      ensures items.Ok? ==>
        forall i :: 0 <= i < |items.value| ==> items.value[i] == ExportItem(db, Gathered(batches)[i])
      ensures items.Err? ==> exists i ::
        0 <= i < |batches| && AllOk(batches[..i]) && batches[i] == Err(items.error)
    {
      var keys, last := ScanKeys(batches, 0);
      if keys.Err? {
        return Err(keys.error);
      }
      assert batches[..last + 1] == batches;
      var all := [];
      for i := 0 to |keys.value|
        invariant |all| == i
        invariant forall k :: 0 <= k < i ==> all[k] == ExportItem(db, keys.value[k])
      {
        var key := keys.value[i];
        var kind, ttl := Kind(db, key), Ttl(db, key);
        var value := ReadKeyValue(db, key, kind);
        all := all + [map["key" := AString(key), "type" := AString(kind), "value" := value, "ttl" := AInt(ttl)]];
      }
      items := Ok(all);
    }

    /** Builds the arguments of HSET in whatever order the map is walked; the hash is the same. */
    method WriteHash(key: string, m: map<string, Any>) returns (error: Option<string>)
      modifies this`db
      ensures match HSet(old(db), key, Printed(show, m))
        case Ok(next) => db == next && error == None
        case Err(e) => db == old(db) && error == Some(e)
    {
      var rest, args := m.Keys, map[];
      while rest != {}
        invariant rest <= m.Keys
        invariant args.Keys == m.Keys - rest
        invariant forall k :: k in args ==> args[k] == Sprint(show, m[k])
        decreases |rest|
      {
        var k :| k in rest;
        args := args[k := Sprint(show, m[k])];
        rest := rest - {k};
      }
      assert args == Printed(show, m);
      match HSet(db, key, args)
      case Ok(next) => db := next; error := None;
      case Err(e) => error := Some(e);
    }

    method WriteValue(key: string, kind: string, value: Any) returns (error: Option<string>)
      modifies this`db
      ensures match WriteKeyValue(show, old(db), key, kind, value)
        case Ok(next) => db == next && error == None
        case Err(e) => db == old(db) && error == Some(e)
    {
      error := None;
      if kind == "string" {
        db := Set(db, key, Sprint(show, value));
      } else if kind == "hash" {
        if !value.AObject? {
          return Some(INVALID_HASH);
        }
        error := WriteHash(key, value.o);
      } else {
        var s := Sprint(show, value);
        if s != "" && s != "<nil>" {
          db := Set(db, key, s);
        }
      }
    }

    method ImportData(items: seq<Item>) returns (error: Option<string>)
      modifies this`db
      ensures Import(db, error) == ImportAll(show, old(db), items)
    {
      for i := 0 to |items|
        invariant ImportAll(show, db, items[i..]) == ImportAll(show, old(db), items)
      {
        var item := items[i];
        assert items[i..][0] == item && items[i..][1..] == items[i + 1..];
        var key, kind := KeyOf(item), KindOf(item);
        if key == "" {
          continue;
        }
        var failed := WriteValue(key, kind, ValueOf(item));
        if failed.Some? {
          return Some("import " + key + ": " + failed.value);
        }
        var seconds := SecondsOf(item);
        if seconds > 0 {
          db := Expire(db, key, seconds);
        }
      }
      error := None;
    }
  }

  // --- the round trip ---

  /** The strings of a list, set or sorted set that an export shows. */
  function Shown(v: Value): seq<string>
    requires v.Items?
  {
    if v.kind == "list" then First(50, v.items) else if v.kind == "zset" then First(100, v.items) else v.items
  }

  predicate Readable(v: Value) {
    v.Items? ==> v.kind == "list" || v.kind == "set" || v.kind == "zset"
  }

  /** Strings and hashes come back; lists, sets and sorted sets come back as the text of what was shown. */
  function RestoredValue(v: Value): Value {
    if v.Items? then Str("[" + Joined(Shown(v)) + "]") else v
  }

  /** What an import brings back: no key "", no other types, and only expiries that read as positive. */
  function Restored(db: Db): Db {
    map k | k in db && k != "" && Readable(db[k].value) ::
      Entry(RestoredValue(db[k].value), if db[k].ttl > 0 then db[k].ttl else -1)
  }

  function RestoredOn(db: Db, seen: set<string>): Db {
    map k | k in Restored(db) && k in seen :: Restored(db)[k]
  }

  lemma FieldsSurvive(p: Printer, fields: map<string, string>)
    ensures JsonStep(AMap(fields)).AObject?
    ensures Printed(p, JsonStep(AMap(fields)).o) == fields
  {
  }

  lemma StringsPrint(p: Printer, l: seq<string>)
    ensures Sprint(p, JsonStep(AStrings(l))) == "[" + Joined(l) + "]"
  {
    var elems := JsonStep(AStrings(l)).elems;
    assert seq(|elems|, i requires 0 <= i < |elems| => Sprint(p, elems[i])) == l;
  }

  lemma ItemSurvives(db: Db, key: string)
    ensures var item := JsonItem(ExportItem(db, key));
      && KeyOf(item) == key && KindOf(item) == Kind(db, key) && SecondsOf(item) == Ttl(db, key)
      && ValueOf(item) == JsonStep(ReadKeyValue(db, key, Kind(db, key)))
  {
    var t := Ttl(db, key);
    assert Truncate(t as real) == t by {
      assert (t as real).Floor == t && (-(t as real)).Floor == -t;
    }
  }

  lemma OneMore(db: Db, seen: set<string>, key: string)
    requires key in Restored(db)
    ensures RestoredOn(db, seen + {key}) == RestoredOn(db, seen)[key := Restored(db)[key]]
  {
  }

  lemma NoMore(db: Db, seen: set<string>, key: string)
    requires key !in Restored(db)
    ensures RestoredOn(db, seen + {key}) == RestoredOn(db, seen)
  {
  }

  function Exported(db: Db, key: string): Any {
    JsonStep(ReadKeyValue(db, key, Kind(db, key)))
  }

  lemma WriteRestoresHash(p: Printer, db: Db, seen: set<string>, key: string)
    requires ValidDb(db) && key in Restored(db) && db[key].value.Hash?
    ensures var now, ttl := RestoredOn(db, seen), if key in seen then Restored(db)[key].ttl else -1;
      WriteKeyValue(p, now, key, "hash", Exported(db, key)) == Ok(now[key := Entry(db[key].value, ttl)])
  {
    var fields, now := db[key].value.fields, RestoredOn(db, seen);
    FieldsSurvive(p, fields);
    assert ValidValue(db[key].value);
    assert fields + fields == fields;
    assert key in seen ==> now[key] == Restored(db)[key];
  }

  lemma WriteRestoresText(p: Printer, db: Db, seen: set<string>, key: string)
    requires ValidDb(db) && key in Restored(db) && !db[key].value.Hash?
    ensures var now := RestoredOn(db, seen);
      WriteKeyValue(p, now, key, Kind(db, key), Exported(db, key))
        == Ok(now[key := Entry(RestoredValue(db[key].value), -1)])
  {
    var value := db[key].value;
    assert ValidValue(value);
    if value.Items? {
      StringsPrint(p, Shown(value));
      assert ReadKeyValue(db, key, value.kind) == AStrings(Shown(value));
      assert ("[" + Joined(Shown(value)) + "]")[0] == '[';
    }
  }

  lemma NothingWritten(p: Printer, db: Db, seen: set<string>, key: string)
    requires ValidDb(db) && key !in Restored(db) && key != ""
    ensures WriteKeyValue(p, RestoredOn(db, seen), key, Kind(db, key), Exported(db, key)) == Ok(RestoredOn(db, seen))
  {
    assert key in db ==> ValidValue(db[key].value);
  }

  lemma ExpireRestores(db: Db, seen: set<string>, key: string, t: int)
    requires ValidDb(db) && key in Restored(db) && (t == -1 || t == Restored(db)[key].ttl)
    ensures var now, ttl := RestoredOn(db, seen), db[key].ttl;
      var written := now[key := Entry(RestoredValue(db[key].value), t)];
      (if ttl > 0 then Expire(written, key, ttl) else written) == RestoredOn(db, seen + {key})
  {
    var now := RestoredOn(db, seen);
    OneMore(db, seen, key);
    if db[key].ttl > 0 {
      var written := now[key := Entry(RestoredValue(db[key].value), t)];
      assert Expire(written, key, db[key].ttl) == now[key := Entry(RestoredValue(db[key].value), db[key].ttl)];
    }
  }

  lemma ImportRestores(p: Printer, db: Db, seen: set<string>, key: string)
    requires ValidDb(db)
    ensures ImportItem(p, RestoredOn(db, seen), JsonItem(ExportItem(db, key))) == Ok(RestoredOn(db, seen + {key}))
  {
    ItemSurvives(db, key);
    if key !in Restored(db) {
      NoMore(db, seen, key);
      if key != "" {
        NothingWritten(p, db, seen, key);
      }
    } else if db[key].value.Hash? {
      WriteRestoresHash(p, db, seen, key);
      ExpireRestores(db, seen, key, if key in seen then Restored(db)[key].ttl else -1);
    } else {
      WriteRestoresText(p, db, seen, key);
      ExpireRestores(db, seen, key, -1);
    }
  }

  lemma ImportNext(p: Printer, db: Db, next: Db, items: seq<Item>)
    requires items != [] && ImportItem(p, db, items[0]) == Ok(next)
    ensures ImportAll(p, db, items) == ImportAll(p, next, items[1..])
  {
  }

  function KeySet(keys: seq<string>): set<string> {
    set k | k in keys
  }

  lemma KeySetCons(seen: set<string>, keys: seq<string>)
    requires keys != []
    ensures seen + {keys[0]} + KeySet(keys[1..]) == seen + KeySet(keys)
  {
    assert keys == [keys[0]] + keys[1..];
  }

  lemma ExportFileCons(db: Db, keys: seq<string>)
    requires keys != []
    ensures ExportFile(db, keys)[0] == JsonItem(ExportItem(db, keys[0]))
    ensures ExportFile(db, keys)[1..] == ExportFile(db, keys[1..])
  {
  }

  lemma {:induction false} ImportsRestore(p: Printer, db: Db, seen: set<string>, keys: seq<string>)
    requires ValidDb(db)
    ensures ImportAll(p, RestoredOn(db, seen), ExportFile(db, keys))
      == Import(RestoredOn(db, seen + KeySet(keys)), None)
    decreases |keys|
  {
    if keys == [] {
      assert seen + KeySet(keys) == seen;
    } else {
      var key, rest := keys[0], keys[1..];
      ImportRestores(p, db, seen, key);
      ExportFileCons(db, keys);
      ImportNext(p, RestoredOn(db, seen), RestoredOn(db, seen + {key}), ExportFile(db, keys));
      ImportsRestore(p, db, seen + {key}, rest);
      KeySetCons(seen, keys);
    }
  }

  /**
   * Importing an exported database into an empty one restores every string and hash with its positive
   * TTL and leaves a text for every list, set and sorted set, however often SCAN reports a key and
   * whatever expired keys it reports besides.
   */
  lemma ExportThenImport(p: Printer, db: Db, keys: seq<string>)
    requires ValidDb(db) && db.Keys <= KeySet(keys)
    ensures ImportAll(p, map[], ExportFile(db, keys)) == Import(Restored(db), None)
  {
    assert RestoredOn(db, {}) == map[];
    ImportsRestore(p, db, {}, keys);
    assert RestoredOn(db, {} + KeySet(keys)) == Restored(db);
  }

  /** Nothing is lost exactly when there are only strings and hashes, no empty key, and no TTL about to end. */
  lemma NothingLostIff(db: Db)
    requires ValidDb(db)
    ensures Restored(db) == db <==> "" !in db && forall k <- db :: db[k].ttl != 0 && !db[k].value.Items?
  {
    if "" !in db && forall k <- db :: db[k].ttl != 0 && !db[k].value.Items? {
      assert forall k <- db :: Restored(db)[k] == db[k];
    }
    if Restored(db) == db {
      assert "" !in Restored(db);
      assert forall k <- db :: Restored(db)[k] == db[k];
    }
  }

  /**
   * Into a database that already has data, an imported string or hash gets the exported value exactly
   * when no field of an old hash is left over and the types do not clash: a hash is merged, not replaced.
   */
  lemma OverwritesIff(p: Printer, db: Db, target: Db, key: string)
    requires ValidDb(db) && key in db && key != "" && !db[key].value.Items?
    ensures var after := ImportItem(p, target, JsonItem(ExportItem(db, key)));
      (after.Ok? && key in after.value && after.value[key].value == db[key].value) <==>
        || db[key].value.Str?
        || key !in target
        || (target[key].value.Hash? && target[key].value.fields.Keys <= db[key].value.fields.Keys)
  {
    ItemSurvives(db, key);
    var value := db[key].value;
    assert ValidValue(value);
    if value.Hash? {
      FieldsSurvive(p, value.fields);
      if key in target && target[key].value.Hash? {
        MergeIsOverwriteIff(target[key].value.fields, value.fields);
      }
    }
  }

  lemma MergeIsOverwriteIff(before: map<string, string>, fields: map<string, string>)
    ensures before + fields == fields <==> before.Keys <= fields.Keys
  {
    assert (before + fields).Keys == before.Keys + fields.Keys;
  }

  // --- one item, case by case ---

  predicate Named(item: Item, key: string) {
    key != "" && "key" in item && item["key"] == AString(key)
  }

  /** A positive number of seconds, as JSON numbers arrive; anything else leaves the key unexpiring. */
  function TtlAfter(item: Item, before: int): int {
    if "ttl" in item && item["ttl"].AFloat? && item["ttl"].x >= 1.0 then item["ttl"].x.Floor else before
  }

  lemma NamelessIsSkipped(p: Printer, db: Db, item: Item)
    requires "key" !in item || !item["key"].AString? || item["key"].s == ""
    ensures ImportItem(p, db, item) == Ok(db)
  {
  }

  lemma SecondsAreFloored(item: Item)
    ensures TtlAfter(item, -1) == if SecondsOf(item) > 0 then SecondsOf(item) else -1
  {
    if "ttl" in item && item["ttl"].AFloat? {
      TruncateIsFloor(item["ttl"].x);
    }
  }

  lemma TruncateIsFloor(x: real)
    ensures Truncate(x) > 0 <==> x >= 1.0
    ensures x >= 0.0 ==> Truncate(x) == x.Floor
  {
    var f := if x >= 0.0 then x.Floor else (-x).Floor;
    assert f as real <= (if x >= 0.0 then x else -x) < f as real + 1.0;
    if x < 0.0 {
      assert f >= 0;
    }
  }

  lemma SetThenExpire(db: Db, key: string, v: string, seconds: int)
    ensures Expire(Set(db, key, v), key, seconds) == db[key := Entry(Str(v), seconds)]
  {
  }

  /** A string is set, with its TTL. */
  lemma StringIsSet(p: Printer, db: Db, item: Item, key: string, v: string)
    requires Named(item, key) && "type" in item && item["type"] == AString("string")
    requires "value" in item && item["value"] == AString(v)
    ensures ImportItem(p, db, item) == Ok(db[key := Entry(Str(v), TtlAfter(item, -1))])
  {
    SecondsAreFloored(item);
    SetThenExpire(db, key, v, SecondsOf(item));
  }

  /** A hash is merged into what is there, unless that is of another type; it must be a non-empty object. */
  lemma HashIsMerged(p: Printer, db: Db, item: Item, key: string)
    requires Named(item, key) && "type" in item && item["type"] == AString("hash") && "value" in item
    ensures var after, v := ImportItem(p, db, item), item["value"];
      if !v.AObject? then after == Err("invalid hash value")
      else if v.o == map[] then after == Err("ERR wrong number of arguments for 'hset' command")
      else if key in db && !db[key].value.Hash? then
        after == Err("WRONGTYPE Operation against a key holding the wrong kind of value")
      else
        && after.Ok? && key in after.value && after.value == db[key := after.value[key]]
        && after.value[key].value.Hash?
        && after.value[key].ttl == TtlAfter(item, if key in db then db[key].ttl else -1)
        && forall f :: f in after.value[key].value.fields <==> f in v.o || (key in db && f in db[key].value.fields)
  {
    SecondsAreFloored(item);
    var v := item["value"];
    if v.AObject? && v.o != map[] {
      var f :| f in v.o;
      assert f in Printed(p, v.o);
    }
  }

  lemma FieldsAreSet(p: Printer, db: Db, item: Item, key: string, f: string)
    requires Named(item, key) && "type" in item && item["type"] == AString("hash")
    requires "value" in item && item["value"].AObject? && f in item["value"].o
    requires key in db ==> db[key].value.Hash?
    ensures var after := ImportItem(p, db, item);
      && after.Ok? && key in after.value && after.value[key].value.Hash? && f in after.value[key].value.fields
      && after.value[key].value.fields[f] == Sprint(p, item["value"].o[f])
      && forall g :: key in db && g in db[key].value.fields && g !in item["value"].o ==>
           g in after.value[key].value.fields && after.value[key].value.fields[g] == db[key].value.fields[g]
  {
    assert f in Printed(p, item["value"].o);
  }

  /** Any other type is set as the text of its value, if it has one; else only the TTL of the key is. */
  lemma OtherIsText(p: Printer, db: Db, item: Item, key: string)
    requires Named(item, key)
    requires "type" in item ==> item["type"] != AString("hash") && item["type"] != AString("string")
    ensures var text := if "value" in item then Sprint(p, item["value"]) else "<nil>";
      if text == "" || text == "<nil>" then
        ImportItem(p, db, item)
          == Ok(if key in db then db[key := db[key].(ttl := TtlAfter(item, db[key].ttl))] else db)
      else ImportItem(p, db, item) == Ok(db[key := Entry(Str(text), TtlAfter(item, -1))])
  {
    SecondsAreFloored(item);
    SetThenExpire(db, key, Sprint(p, ValueOf(item)), SecondsOf(item));
    if key in db {
      assert db[key := db[key].(ttl := db[key].ttl)] == db;
    }
  }

  // --- the whole list ---

  /** The first item that fails ends the import, with the data as the items before it left them. */
  lemma {:induction false} ImportStops(
    p: Printer, db: Db, next: Db, items: seq<Item>, i: nat, key: string, e: string)
    requires i < |items| && ImportAll(p, db, items[..i]) == Import(next, None)
    requires Named(items[i], key) && ImportItem(p, next, items[i]) == Err(e)
    ensures ImportAll(p, db, items) == Import(next, Some("import " + key + ": " + e))
    decreases i
  {
    if i > 0 {
      assert items[..i][0] == items[0] && items[..i][1..] == items[1..][..i - 1];
      ImportStops(p, ImportItem(p, db, items[0]).value, next, items[1..], i - 1, key, e);
    }
  }

  /** Items that do not fail are imported one on top of the other. */
  lemma {:induction false} ImportGoesOn(p: Printer, db: Db, next: Db, after: Db, items: seq<Item>, item: Item)
    requires ImportAll(p, db, items) == Import(next, None) && ImportItem(p, next, item) == Ok(after)
    ensures ImportAll(p, db, items + [item]) == Import(after, None)
    decreases |items|
  {
    if items == [] {
      assert items + [item] == [item] && [item][1..] == [];
    } else {
      assert (items + [item])[0] == items[0] && (items + [item])[1..] == items[1..] + [item];
      ImportGoesOn(p, ImportItem(p, db, items[0]).value, next, after, items[1..], item);
    }
  }

  // --- details of the export ---

  /** What an export says of a key that has expired since it was scanned. */
  lemma MissingIsNone(db: Db, key: string)
    requires key !in db
    ensures ExportItem(db, key) ==
      map["key" := AString(key), "type" := AString("none"), "value" := ANull, "ttl" := AInt(-2)]
  {
  }

  lemma StringItem(db: Db, key: string, v: string)
    requires key in db && db[key].value == Str(v)
    ensures ExportItem(db, key) ==
      map["key" := AString(key), "type" := AString("string"), "value" := AString(v), "ttl" := AInt(db[key].ttl)]
  {
  }

  /** Lists and sorted sets are cut off after 50 entries, sets are not. */
  lemma LongLists(items: seq<string>)
    ensures |First(50, items)| == (if |items| <= 50 then |items| else 50) && First(50, items) <= items
    ensures Shown(Items("list", items)) == First(50, items) && Shown(Items("set", items)) == items
    ensures Shown(Items("zset", items)) == First(100, items)
    ensures |First(100, items)| == (if |items| <= 100 then |items| else 100) && First(100, items) <= items
  {
  }

  /** Three entries read as one text, with blanks between them. */
  lemma ListAsText(a: string, b: string, c: string)
    ensures RestoredValue(Items("list", [a, b, c])) == Str("[" + (a + " " + (b + " " + c)) + "]")
    ensures RestoredValue(Items("set", [])) == Str("[]")
  {
    assert [a, b, c][1..] == [b, c] && [b, c][1..] == [c];
    assert Joined([b, c]) == b + " " + c;
    assert Joined([a, b, c]) == a + " " + (b + " " + c);
  }

  lemma SomeSeconds()
    ensures Truncate(2.9) == 2 && Truncate(-2.9) == -2 && Truncate(0.0) == 0
  {
    assert (2.9).Floor == 2;
  }
}
