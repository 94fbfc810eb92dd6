/** Per-plugin settings: one collection per plugin, named after its id, holding rows
    of key and JSON text. */
module PluginSettings {
  import opened Seqs
  import PluginIds

  type Key = string
  type Json = string

  datatype Row = Row(id: nat, key: Key, json: Json)

  /** Collections by name; a missing one is empty. */
  type Database = map<string, seq<Row>>

  function Replaced(c: char): char {
    if c == '.' || c == '-' then '_' else c
  }

  function CollectionName(pluginId: string): string {
    "plugin_" + seq(|pluginId|, i requires 0 <= i < |pluginId| => Replaced(pluginId[i]))
  }

  /** Two plugins the manifest validator accepts never share a collection. */
  lemma CollectionNameInjective(a: string, b: string)
    requires PluginIds.Accepted(a) && PluginIds.Accepted(b)
    requires CollectionName(a) == CollectionName(b)
    ensures a == b
  {
    var x, y := CollectionName(a), CollectionName(b);
    assert |x| == 7 + |a| && |y| == 7 + |b|;
    forall i | 0 <= i < |a| ensures a[i] == b[i] {
      assert x[7 + i] == Replaced(a[i]) && y[7 + i] == Replaced(b[i]);
      PluginIds.AcceptedAlphabet(a, i);
      PluginIds.AcceptedAlphabet(b, i);
    }
  }

  /** Outside that alphabet the name mapping does merge ids. */
  lemma UnvalidatedIdsCollide()
    ensures CollectionName("a.b") == CollectionName("a-b")
    ensures !PluginIds.Accepted("a-b")
  {
    assert CollectionName("a.b") == "plugin_a_b" == CollectionName("a-b");
    assert "a-b"[1] == '-';
  }

  function Rows(db: Database, pluginId: string): seq<Row> {
    var name := CollectionName(pluginId);
    if name in db then db[name] else []
  }

  /** The matching row with the highest id: what the ordered query returns. */
  function Newest(rows: seq<Row>, key: Key): Option<Row> {
    if rows == [] then None
    else
      var row, older := rows[|rows| - 1], Newest(rows[..|rows| - 1], key);
      if row.key == key && (older.None? || row.id > older.value.id) then Some(row) else older
  }

  lemma {:induction false} NewestMeaning(rows: seq<Row>, key: Key)
    ensures Newest(rows, key).None? <==> forall r :: r in rows ==> r.key != key
    ensures Newest(rows, key).Some? ==>
              var n := Newest(rows, key).value;
              n in rows && n.key == key && forall r :: r in rows && r.key == key ==> r.id <= n.id
  {
    if rows != [] {
      NewestMeaning(rows[..|rows| - 1], key);
      assert rows == rows[..|rows| - 1] + [rows[|rows| - 1]];
    }
  }

  function Lookup(db: Database, pluginId: string, key: Key): Option<Json> {
    var doc := Newest(Rows(db, pluginId), key);
    if doc.None? then None else Some(doc.value.json)
  }

  function Without(rows: seq<Row>, key: Key): seq<Row> {
    if rows == [] then []
    else
      var row, rest := rows[|rows| - 1], Without(rows[..|rows| - 1], key);
      if row.key == key then rest else rest + [row]
  }

  /** Ids are handed out above every id in use. */
  function NextId(rows: seq<Row>): (id: nat)
    ensures forall r :: r in rows ==> r.id < id
  {
    if rows == [] then 1
    else
      var row, n := rows[|rows| - 1], NextId(rows[..|rows| - 1]);
      if row.id < n then n else row.id + 1
  }

  function Stored(rows: seq<Row>, key: Key, json: Json): seq<Row> {
    var kept := Without(rows, key);
    kept + [Row(NextId(kept), key, json)]
  }

  datatype Op = Set(plugin: string, key: Key, json: Json) | Delete(plugin: string, key: Key)

  function Apply(db: Database, op: Op): Database {
    var rows := Rows(db, op.plugin);
    db[CollectionName(op.plugin) :=
         match op case Set(_, k, v) => Stored(rows, k, v) case Delete(_, k) => Without(rows, k)]
  }

  function Run(db: Database, ops: seq<Op>): Database {
    if ops == [] then db else Apply(Run(db, ops[..|ops| - 1]), ops[|ops| - 1])
  }

  class PluginSettingsStore {
    var collections: Database

    constructor (db: Database)
      ensures collections == db
    {
      collections := db;
    }

    method GetAsync(pluginId: string, key: Key) returns (json: Option<Json>)
      ensures json == Lookup(collections, pluginId, key)
      ensures json.None? <==> forall r :: r in Rows(collections, pluginId) ==> r.key != key
      ensures json.Some? ==>
                exists n :: n in Rows(collections, pluginId) && n.key == key && n.json == json.value
                            && forall r :: r in Rows(collections, pluginId) && r.key == key ==> r.id <= n.id
    {
      NewestMeaning(Rows(collections, pluginId), key);
      var doc := Newest(Rows(collections, pluginId), key);
      json := if doc.None? then None else Some(doc.value.json);
    }

    method SetAsync(pluginId: string, key: Key, json: Json)
      modifies this
      ensures collections == Apply(old(collections), Set(pluginId, key, json))
    {
      var name := CollectionName(pluginId);
      DeleteMany(name, key);
      var rows := collections[name];
      collections := collections[name := rows + [Row(NextId(rows), key, json)]];
    }

    method DeleteAsync(pluginId: string, key: Key)
      modifies this
      ensures collections == Apply(old(collections), Delete(pluginId, key))
    {
      DeleteMany(CollectionName(pluginId), key);
    }

    method DeleteMany(name: string, key: Key)
      modifies this
      ensures collections ==
              old(collections)[name := Without(if name in old(collections) then old(collections)[name] else [], key)]
    {
      collections := collections[name := Without(if name in collections then collections[name] else [], key)];
    }
  }

  // ---- Isolation -----------------------------------------------------------

  lemma {:induction false} WithoutMeaning(rows: seq<Row>, gone: Key, key: Key)
    ensures Newest(Without(rows, gone), key) == if key == gone then None else Newest(rows, key)
    ensures forall r :: r in Without(rows, gone) <==> r in rows && r.key != gone
  {
    if rows != [] {
      var n := |rows| - 1;
      WithoutMeaning(rows[..n], gone, key);
      assert rows == rows[..n] + [rows[n]];
      if rows[n].key != gone {
        assert Without(rows, gone)[..|Without(rows, gone)| - 1] == Without(rows[..n], gone);
      }
    }
  }

  lemma StoredMeaning(rows: seq<Row>, written: Key, json: Json, key: Key)
    ensures var found := Newest(Stored(rows, written, json), key);
            if key == written then found.Some? && found.value.json == json
            else found == Newest(rows, key)
  {
    var kept := Without(rows, written);
    WithoutMeaning(rows, written, key);
    assert Stored(rows, written, json)[..|kept|] == kept;
  }

  /** Setting a key leaves one row for it, however many there were before. */
  lemma SetCollapses(rows: seq<Row>, key: Key, json: Json, i: nat, j: nat)
    requires i < |Stored(rows, key, json)| && j < |Stored(rows, key, json)|
    requires Stored(rows, key, json)[i].key == Stored(rows, key, json)[j].key == key
    ensures i == j
  {
    WithoutMeaning(rows, key, key);
    var kept := Without(rows, key);
    assert forall k :: 0 <= k < |kept| ==> kept[k] in kept;
  }

  lemma ApplyMeaning(db: Database, op: Op, plugin: string, key: Key)
    requires PluginIds.Accepted(op.plugin) && PluginIds.Accepted(plugin)
    ensures Lookup(Apply(db, op), plugin, key) ==
            if op.plugin != plugin || op.key != key then Lookup(db, plugin, key)
            else if op.Set? then Some(op.json) else None
  {
    if CollectionName(op.plugin) == CollectionName(plugin) {
      CollectionNameInjective(op.plugin, plugin);
      var rows := Rows(db, plugin);
      WithoutMeaning(rows, op.key, key);
      if op.Set? {
        StoredMeaning(rows, op.key, op.json, key);
      }
    }
  }

  /** What one plugin last wrote under one key, ignoring everything else. */
  function LastWrite(ops: seq<Op>, plugin: string, key: Key, before: Option<Json>): Option<Json> {
    if ops == [] then before
    else
      var op := ops[|ops| - 1];
      if op.plugin == plugin && op.key == key then (if op.Set? then Some(op.json) else None)
      else LastWrite(ops[..|ops| - 1], plugin, key, before)
  }

  /** Over any run of writes by any number of plugins, a plugin reads exactly what it
      wrote last, or what the database held for it at the start, duplicates included. */
  lemma {:induction false} Isolation(db: Database, ops: seq<Op>, plugin: string, key: Key)
    requires PluginIds.Accepted(plugin)
    requires forall op :: op in ops ==> PluginIds.Accepted(op.plugin)
    ensures Lookup(Run(db, ops), plugin, key) == LastWrite(ops, plugin, key, Lookup(db, plugin, key))
  {
    if ops != [] {
      var n := |ops| - 1;
      assert ops[n] in ops;
      Isolation(db, ops[..n], plugin, key);
      ApplyMeaning(Run(db, ops[..n]), ops[n], plugin, key);
    }
  }
}
