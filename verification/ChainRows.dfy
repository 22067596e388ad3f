/** Operations and their tables, read off the chain: which table an operation's row is in, which
    columns that has, and what the rows hold. */
module ChainRows {
  import opened Wrappers
  import opened Numerals
  import opened Json
  import opened Chain
  import opened Tables
  import opened Readings
  import opened Script
  import opened Plans
  import opened BlockFacts
  import opened Collect
  import opened Machine
  import opened Replay
  import opened Confluence
  import opened Places
  import opened OpContents
  import opened ScanOrder

  // ---- the specification, with no reference to scripts ----

  /** Operation x is of the type with that name. */
  ghost predicate NamedAt(w: World, x: Place, name: string, fields: Fields) {
    exists opType :: OpIs(w, x, opType, name, fields)
  }

  /** The first one is. */
  ghost predicate FirstNamed(w: World, x: Place, name: string, fields: Fields) {
    NamedAt(w, x, name, fields) && forall y, other :: Earlier(y, x) ==> !NamedAt(w, y, name, other)
  }

  /** What a JSON value is bound as: an integer of the scanner's own and a text as they are, a
      number as its literal, anything else as its JSON. */
  predicate IsBound(v: SqlValue, j: Json) {
    match j
    case JInt(n) => v == SqlInt(n)
    case JString(text) => v == SqlText(text)
    case JNumber(literal) => v == SqlText(literal)
    case _ => v == SqlJson(j)
  }

  /** The row holds what the table's columns can take of the JSON. */
  predicate HoldsJson(row: SqlRow, columns: set<string>, f: Fields) {
    row.Keys == f.Keys * columns && forall k :: k in row ==> IsBound(row[k], f[k])
  }

  /** The row of the operation among all operations. */
  ghost predicate IsBaseRow(row: OpRow, x: Place, txid: string, opType: nat, name: string, fields: Fields) {
    && row.txid == txid && row.blockNum == x.n && row.txIndex == x.t && row.opType == opType && row.typeName == name
    && IsStoredJson(x.n, txid, x.o, fields, row.json) && IsAddressOf(fields, row.addr)
  }

  // ---- what the script of an operation offers ----

  lemma SameName(a: string, b: string)
    requires "tbl_" + a == "tbl_" + b
    ensures a == b
  {
    assert a == ("tbl_" + a)[4..] && b == ("tbl_" + b)[4..];
  }

  lemma AugmentKeys(num: nat, txid: string, o: nat, fields: Fields)
    ensures Augment(num, txid, o, fields).Keys
            == fields.Keys + {"block_num", "trxid", "index_in_tx", "memo", "guarantee_id"}
  {
    AugmentExactly(num, txid, o, fields, Augment(num, txid, o, fields));
  }

  lemma NamedForm(w: World, x: Place, name: string, fields: Fields)
    requires Tried(w, x)
    ensures NamedAt(w, x, name, fields)
            <==> var form := FormOf(w, x);
                 (form.Good? || form.Unquoted?) && form.opName == name && form.fields == fields
  {
    var form, op := FormOf(w, x), TxAt(w, x).ops[x.o];
    forall opType ensures
        IsOp(w.names, op, opType, name, fields)
        <==> if NeedsQuotes(name) then form == Unquoted(name, fields) && IsOp(w.names, op, opType, name, fields)
             else form == Good(opType, name, fields)
    {
      ReadExactly(w.names, op, opType, name, fields);
    }
    if form.Unquoted? {
      ReadExactly(w.names, op, 0, form.opName, form.fields);
      var t :| IsOp(w.names, op, t, form.opName, form.fields);
      assert OpIs(w, x, t, form.opName, form.fields);
    } else if form.Good? {
      ReadExactly(w.names, op, form.opType, form.opName, form.fields);
      assert OpIs(w, x, form.opType, form.opName, form.fields);
    }
  }

  /** The table an operation's instructions make, and its columns. */
  lemma TableMade(num: nat, block: Block, t: nat, tx: Tx, o: nat, form: OpForm, table: string, columns: set<string>)
    ensures MakeTable(table, columns) in OpScript(num, block, t, tx, o, form)
            <==> (form.Good? || form.Unquoted?) && table == "tbl_" + form.opName
                 && columns == Augment(num, tx.txid, o, form.fields).Keys
  {
    if form.Good? {
      OwnRowsExactly(num, block, t, tx, o, form);
    }
  }

  lemma TableAt(w: World, x: Place, table: string, columns: set<string>)
    requires Tried(w, x)
    ensures MakeTable(table, columns) in OpInstrs(w, x)
            <==> var form := FormOf(w, x);
                 && (form.Good? || form.Unquoted?) && table == "tbl_" + form.opName
                 && columns == form.fields.Keys + {"block_num", "trxid", "index_in_tx", "memo", "guarantee_id"}
  {
    var form, tx := FormOf(w, x), TxAt(w, x);
    TableMade(x.n, BlockAt(w, x.n), x.t, tx, x.o, form, table, columns);
    if form.Good? || form.Unquoted? {
      AugmentKeys(x.n, tx.txid, x.o, form.fields);
    }
  }

  lemma TableNamed(w: World, x: Place, name: string, columns: set<string>) returns (fields: Fields)
    requires Tried(w, x) && MakeTable("tbl_" + name, columns) in OpInstrs(w, x)
    ensures NamedAt(w, x, name, fields)
    ensures columns == fields.Keys + {"block_num", "trxid", "index_in_tx", "memo", "guarantee_id"}
  {
    TableAt(w, x, "tbl_" + name, columns);
    SameName(name, FormOf(w, x).opName);
    fields := FormOf(w, x).fields;
    NamedForm(w, x, name, fields);
  }

  lemma OffersTable(w: World, x: Place, name: string, fields: Fields)
    requires NamedAt(w, x, name, fields)
    ensures OffersAt(OpLayout(w), SchemaPut, x, "tbl_" + name)
  {
    var s := OpInstrs(w, x);
    var columns := fields.Keys + {"block_num", "trxid", "index_in_tx", "memo", "guarantee_id"};
    NamedForm(w, x, name, fields);
    TableAt(w, x, "tbl_" + name, columns);
    var r :| 0 <= r < |s| && s[r] == MakeTable("tbl_" + name, columns);
    assert Offers(s, SchemaPut, r, "tbl_" + name);
  }

  // ---- tables ----

  lemma SchemaFrom(w: World, n: nat, name: string) returns (x: Place, fields: Fields)
    requires n <= |All(PlanOf(w))| && "tbl_" + name in Ideal(PlanOf(w), n).schemas
    ensures FirstNamed(w, x, name, fields) && Start(PlanOf(w), x.n) < n
    ensures Ideal(PlanOf(w), n).schemas["tbl_" + name]
            == fields.Keys + {"block_num", "trxid", "index_in_tx", "memo", "guarantee_id"}
  {
    OpsLaid(w);
    SchemasCollected(All(PlanOf(w))[..n]);
    var r;
    x, r := FirstPlace(PlanOf(w), OpLayout(w), SchemaPut, "tbl_" + name, n);
    var i := OpInstrs(w, x)[r];
    assert i == MakeTable("tbl_" + name, i.columns);
    fields := TableNamed(w, x, name, i.columns);
    forall y, other | Earlier(y, x) ensures !NamedAt(w, y, name, other) {
      if NamedAt(w, y, name, other) {
        OffersTable(w, y, name, other);
      }
    }
  }

  lemma SchemaThere(w: World, n: nat, x: Place, name: string, fields: Fields)
    requires NamedAt(w, x, name, fields) && Start(PlanOf(w), x.n + 1) <= n <= |All(PlanOf(w))|
    ensures "tbl_" + name in Ideal(PlanOf(w), n).schemas
  {
    OpsLaid(w);
    OffersTable(w, x, name, fields);
    PlaceStored(PlanOf(w), OpLayout(w), SchemaPut, "tbl_" + name, n, x);
    SchemasCollected(All(PlanOf(w))[..n]);
  }

  /** Each type of operation has a table of its own, tbl_ and its name; its columns are the
      properties of the chain's first operation of that type and the five that are added. */
  lemma TablesOnChain(w: World, acts: seq<Act>, name: string)
    requires FailStop(acts)
    ensures var s := After(PlanOf(w), acts);
            && ("tbl_" + name in s.disk.tables.schemas ==>
                  exists x, fields :: FirstNamed(w, x, name, fields) && Start(PlanOf(w), x.n) < s.hwm
                    && s.disk.tables.schemas["tbl_" + name]
                       == fields.Keys + {"block_num", "trxid", "index_in_tx", "memo", "guarantee_id"})
            && (forall x, fields {:trigger NamedAt(w, x, name, fields)} ::
                  NamedAt(w, x, name, fields) && Start(PlanOf(w), x.n + 1) <= s.hwm ==>
                  "tbl_" + name in s.disk.tables.schemas)
  {
    var n := After(PlanOf(w), acts).hwm;
    PlanProper(w);
    ReplayConfluenceButHistory(PlanOf(w), acts);
    if "tbl_" + name in Ideal(PlanOf(w), n).schemas {
      var x, fields := SchemaFrom(w, n, name);
    }
    forall x, fields | NamedAt(w, x, name, fields) && Start(PlanOf(w), x.n + 1) <= n
      ensures "tbl_" + name in Ideal(PlanOf(w), n).schemas
    {
      SchemaThere(w, n, x, name, fields);
    }
  }

  // ---- the row of an operation in its table ----

  /** A row in a table holds, restricted to the columns the table has for good. */
  predicate RowIs(d: Tables, key: OpKey, f: Fields) {
    key in d.rows && key.table in d.schemas && d.rows[key] == RowOf(d.schemas[key.table], f)
  }

  lemma RowIsStays(d: Tables, key: OpKey, f: Fields, i: Instr)
    requires RowIs(d, key, f)
    ensures RowIs(Effect(d, i), key, f)
  {
  }

  lemma {:induction false} RowsCome(a: seq<Instr>, key: OpKey)
    requires key in Replayed(a).rows
    ensures exists j :: 0 <= j < |a| && a[j].InsertOp? && a[j].key == key
  {
    var front, last := a[..|a| - 1], a[|a| - 1];
    if key in Replayed(front).rows {
      RowsCome(front, key);
    } else {
      assert last.InsertOp? && last.key == key;
    }
  }

  /** An insert with its table just made and no insert under its key before it. */
  predicate Fresh(a: seq<Instr>, i: int) {
    && 0 < i < |a| && a[i].InsertOp? && a[i - 1].MakeTable? && a[i - 1].table == a[i].key.table
    && forall j :: 0 <= j < i && a[j].InsertOp? ==> a[j].key != a[i].key
  }

  lemma RowComes(a: seq<Instr>, i: nat)
    requires Fresh(a, i)
    ensures RowIs(Replayed(a[..i + 1]), a[i].key, a[i].fields)
  {
    PrefixStep(a, i - 1);
    PrefixStep(a, i);
    if a[i].key in Replayed(a[..i]).rows {
      RowsCome(a[..i], a[i].key);
    }
  }

  /** The only insert under a key, right after its table was made, fixes the row. */
  lemma RowFixed(a: seq<Instr>, i: nat, n: nat)
    requires Fresh(a, i) && i < n <= |a|
    ensures RowIs(Replayed(a[..n]), a[i].key, a[i].fields)
  {
    var holds := (d: Tables) => RowIs(d, a[i].key, a[i].fields);
    RowComes(a, i);
    forall d, j | 0 <= j < |a| && holds(d) ensures holds(EffectOf()(d, a[j])) {
      RowIsStays(d, a[i].key, a[i].fields, a[j]);
    }
    Lasts(a, EffectOf(), holds, i + 1, n);
  }

  lemma RowHolds(columns: set<string>, f: Fields)
    ensures HoldsJson(RowOf(columns, f), columns, f)
  {
  }

  lemma FirstThree(s: seq<Instr>, own: seq<Instr>)
    requires |own| == 3 && |s| >= 3 && s[..3] == own
    ensures s[0] == own[0] && s[1] == own[1] && s[2] == own[2]
  {
    assert own[0] == s[..3][0] && own[1] == s[..3][1] && own[2] == s[..3][2];
  }

  /** The three rows of a good operation. */
  function OwnAt(w: World, x: Place): (own: seq<Instr>)
    requires Tried(w, x) && FormOf(w, x).Good?
    ensures |own| == 3
  {
    var tx, form := TxAt(w, x), FormOf(w, x);
    OwnRows(x.n, x.t, tx, x.o, form.opType, form.opName, Augment(x.n, tx.txid, x.o, form.fields))
  }

  lemma OwnRowsAt(w: World, x: Place)
    requires Tried(w, x) && FormOf(w, x).Good?
    ensures var s, own := OpInstrs(w, x), OwnAt(w, x);
            |s| >= 3 && s[0] == own[0] && s[1] == own[1] && s[2] == own[2]
  {
    OwnRowsExactly(x.n, BlockAt(w, x.n), x.t, TxAt(w, x), x.o, FormOf(w, x));
    FirstThree(OpInstrs(w, x), OwnAt(w, x));
  }

  lemma InsertIndex(w: World, y: Place, r: nat)
    requires Tried(w, y) && r < |OpInstrs(w, y)| && (OpInstrs(w, y)[r].InsertOp? || OpInstrs(w, y)[r].SaveOp?)
    ensures FormOf(w, y).Good?
    ensures r == if OpInstrs(w, y)[r].InsertOp? then 1 else 2
  {
    var form, tx := FormOf(w, y), TxAt(w, y);
    if form.Good? {
      var f := Augment(y.n, tx.txid, y.o, form.fields);
      PluginsOnly(y.n, BlockAt(w, y.n), tx.txid, y.o, form.opName, f, ReceiptFor(tx, y.o));
      AfterThree(OpInstrs(w, y), OwnRows(y.n, y.t, tx, y.o, form.opType, form.opName, f),
                 PluginsScript(y.n, BlockAt(w, y.n), tx.txid, y.o, form.opName, f, ReceiptFor(tx, y.o)), r);
    } else {
      OthersExactly(y.n, BlockAt(w, y.n), y.t, tx, y.o, form, OpInstrs(w, y)[r]);
    }
  }

  lemma AfterThree(s: seq<Instr>, own: seq<Instr>, plugins: seq<Instr>, r: nat)
    requires s == own + plugins && OnlyPlugins(plugins)
    requires |own| == 3 && own[0].MakeTable? && own[1].InsertOp? && own[2].SaveOp?
    requires r < |s| && (s[r].InsertOp? || s[r].SaveOp?)
    ensures r == if s[r].InsertOp? then 1 else 2
  {
    forall k | 3 <= k < |s| ensures PluginInstr(s[k]) {
      assert s[k] == plugins[k - 3];
    }
  }

  /** One operation, one row: ids being unique, no other operation has its key. */
  lemma OwnKeys(w: World, x: Place, y: Place)
    requires UniqueTxids(w) && Tried(w, x) && Tried(w, y) && TxAt(w, x).txid == TxAt(w, y).txid && x.o == y.o
    ensures x == y
  {
  }

  /** The second instruction of operation x is the only insert under the key, right after its
      table is made. */
  ghost predicate OnlyInsert(log: Log, x: Place, key: OpKey, f: Fields) {
    && log(x).Some? && |log(x).value| >= 2
    && log(x).value[0].MakeTable? && log(x).value[0].table == key.table && log(x).value[1] == InsertOp(key, f)
    && (forall y, r :: log(y).Some? && 0 <= r < |log(y).value| && log(y).value[r].InsertOp?
                       && log(y).value[r].key == key
          ==> y == x && r == 1)
  }

  lemma RowInLog(p: Plan, l: Layout, x: Place, n: nat, key: OpKey, f: Fields)
    requires Laid(p, l) && l.kind == OpKind() && OnlyInsert(l.log, x, key, f)
    requires x.n <= p.Length() && Start(p, x.n + 1) <= n <= |All(p)|
    ensures RowIs(Ideal(p, n), key, f)
  {
    var a, i := All(p), l.pos(x) + 1;
    assert Stands(p, l.log, l.pos, x);
    assert a[l.pos(x) + 0] == l.log(x).value[0];
    forall j | 0 <= j < i && a[j].InsertOp? ensures a[j].key != key {
      var y, r := OwnerIn(p, l, j);
    }
    RowFixed(a, i, n);
  }

  lemma InsertAlone(w: World, x: Place, key: OpKey, f: Fields)
    requires UniqueTxids(w) && Tried(w, x) && FormOf(w, x).Good? && OwnAt(w, x)[1] == InsertOp(key, f)
    ensures OnlyInsert(OpsOf(w), x, key, f)
  {
    OwnRowsAt(w, x);
    forall y, r | Tried(w, y) && 0 <= r < |OpInstrs(w, y)| && OpInstrs(w, y)[r].InsertOp?
                  && OpInstrs(w, y)[r].key == key
      ensures y == x && r == 1
    {
      InsertIndex(w, y, r);
      OwnRowsAt(w, y);
      OwnKeys(w, x, y);
    }
  }

  /** In any run with crashes only, a well-formed operation whose block has been scanned has its
      row in its type's own table: its JSON with the added properties, restricted to the table's
      columns, each value bound as it should be. */
  lemma RowsOnChain(w: World, acts: seq<Act>, x: Place, opType: nat, name: string, fields: Fields, f: Fields)
    requires UniqueTxids(w) && FailStop(acts) && Taken(w, x, opType, name, fields)
    requires IsStoredJson(x.n, TxAt(w, x).txid, x.o, fields, f)
    requires Start(PlanOf(w), x.n + 1) <= After(PlanOf(w), acts).hwm
    ensures var d, key := After(PlanOf(w), acts).disk.tables, OpKey("tbl_" + name, TxAt(w, x).txid, x.o);
            key in d.rows && key.table in d.schemas && HoldsJson(d.rows[key], d.schemas[key.table], f)
  {
    var n, txid := After(PlanOf(w), acts).hwm, TxAt(w, x).txid;
    PlanProper(w);
    ReplayConfluenceButHistory(PlanOf(w), acts);
    ReadExactly(w.names, TxAt(w, x).ops[x.o], opType, name, fields);
    AugmentExactly(x.n, txid, x.o, fields, f);
    InsertAlone(w, x, OpKey("tbl_" + name, txid, x.o), f);
    OpsLaid(w);
    RowInLog(PlanOf(w), OpLayout(w), x, n, OpKey("tbl_" + name, txid, x.o), f);
    RowHolds(Ideal(PlanOf(w), n).schemas["tbl_" + name], f);
  }

  lemma RowOwner(p: Plan, l: Layout, n: nat, key: OpKey) returns (x: Place, r: nat)
    requires Laid(p, l) && (forall i: Instr :: i.InsertOp? ==> l.kind(i))
    requires n <= |All(p)| && key in Ideal(p, n).rows
    ensures l.log(x).Some? && r < |l.log(x).value| && l.log(x).value[r].InsertOp? && l.log(x).value[r].key == key
  {
    RowsCome(All(p)[..n], key);
    var j :| 0 <= j < n && All(p)[..n][j].InsertOp? && All(p)[..n][j].key == key;
    x, r := OwnerIn(p, l, j);
  }

  lemma RowMeant(w: World, x: Place, r: nat) returns (opType: nat, name: string, fields: Fields)
    requires Tried(w, x) && r < |OpInstrs(w, x)| && OpInstrs(w, x)[r].InsertOp?
    ensures Taken(w, x, opType, name, fields)
    ensures OpInstrs(w, x)[r].key == OpKey("tbl_" + name, TxAt(w, x).txid, x.o)
  {
    InsertIndex(w, x, r);
    OwnRowsAt(w, x);
    opType, name, fields := FormOf(w, x).opType, FormOf(w, x).opName, FormOf(w, x).fields;
    ReadExactly(w.names, TxAt(w, x).ops[x.o], opType, name, fields);
  }

  lemma RowFrom(w: World, n: nat, key: OpKey) returns (x: Place, opType: nat, name: string, fields: Fields)
    requires n <= |All(PlanOf(w))| && key in Ideal(PlanOf(w), n).rows
    ensures Taken(w, x, opType, name, fields) && key == OpKey("tbl_" + name, TxAt(w, x).txid, x.o)
  {
    OpsLaid(w);
    var r;
    x, r := RowOwner(PlanOf(w), OpLayout(w), n, key);
    opType, name, fields := RowMeant(w, x, r);
  }

  /** No row is in an operation table but those of well-formed operations of its type. */
  lemma OnlyRows(w: World, acts: seq<Act>, key: OpKey)
    requires FailStop(acts) && key in After(PlanOf(w), acts).disk.tables.rows
    ensures exists x, opType, name, fields ::
              Taken(w, x, opType, name, fields) && key == OpKey("tbl_" + name, TxAt(w, x).txid, x.o)
  {
    PlanProper(w);
    ReplayConfluenceButHistory(PlanOf(w), acts);
    var x, opType, name, fields := RowFrom(w, After(PlanOf(w), acts).hwm, key);
  }

  // ---- the row among all operations ----

  lemma KeysElsewhere(keys: seq<string>, fields: Fields, f: Fields, v: string)
    requires SameElsewhere(f, fields) && FirstPresent(keys, f) == v && forall i :: 0 <= i < |keys| ==> !Added(keys[i])
    ensures || (exists i: nat :: IsFirstKey(fields, keys, i) && fields[keys[i]] == JString(v))
            || (v == "" && forall i: nat :: IsFirstKey(fields, keys, i) ==> !fields[keys[i]].JString?)
  {
    PresentExactly(keys, f, v);
    forall i: nat ensures IsFirstKey(f, keys, i) <==> IsFirstKey(fields, keys, i) {
    }
    if i: nat :| IsFirstKey(f, keys, i) && f[keys[i]] == JString(v) {
      assert IsFirstKey(fields, keys, i);
    }
  }

  lemma NoneAdded()
    ensures forall i :: 0 <= i < |ADDR_PROPS| ==> !Added(ADDR_PROPS[i])
  {
  }

  lemma AddressElsewhere(fields: Fields, f: Fields)
    requires SameElsewhere(f, fields)
    ensures IsAddressOf(fields, FirstPresent(ADDR_PROPS, f))
  {
    NoneAdded();
    KeysElsewhere(ADDR_PROPS, fields, f, FirstPresent(ADDR_PROPS, f));
  }

  lemma BaseRowExactly(x: Place, txid: string, opType: nat, name: string, fields: Fields)
    ensures IsBaseRow(BaseRow(x.n, x.t, txid, opType, name, Augment(x.n, txid, x.o, fields)), x, txid, opType, name,
                      fields)
  {
    var f := Augment(x.n, txid, x.o, fields);
    AugmentExactly(x.n, txid, x.o, fields, f);
    AugmentElsewhere(x.n, txid, x.o, fields);
    AddressElsewhere(fields, f);
  }

  lemma OffersBase(w: World, x: Place)
    requires Tried(w, x) && FormOf(w, x).Good?
    ensures OffersAt(OpLayout(w), OpPut, x, OperationId(x.n, TxAt(w, x).txid, x.o))
  {
    OwnRowsAt(w, x);
    assert Offers(OpInstrs(w, x), OpPut, 2, OperationId(x.n, TxAt(w, x).txid, x.o));
  }

  lemma BaseFrom(w: World, n: nat, id: string) returns (y: Place)
    requires n <= |All(PlanOf(w))| && id in Ideal(PlanOf(w), n).ops
    ensures Tried(w, y) && FormOf(w, y).Good? && id == OperationId(y.n, TxAt(w, y).txid, y.o)
    ensures OwnAt(w, y)[2] == SaveOp(id, Ideal(PlanOf(w), n).ops[id])
  {
    OpsLaid(w);
    OpsCollected(All(PlanOf(w))[..n]);
    var r;
    y, r := FirstPlace(PlanOf(w), OpLayout(w), OpPut, id, n);
    InsertIndex(w, y, r);
    OwnRowsAt(w, y);
  }

  lemma BaseThere(w: World, n: nat, x: Place)
    requires UniqueTxids(w) && Tried(w, x) && FormOf(w, x).Good? && Start(PlanOf(w), x.n + 1) <= n <= |All(PlanOf(w))|
    ensures var id := OperationId(x.n, TxAt(w, x).txid, x.o);
            id in Ideal(PlanOf(w), n).ops && OwnAt(w, x)[2] == SaveOp(id, Ideal(PlanOf(w), n).ops[id])
  {
    var id := OperationId(x.n, TxAt(w, x).txid, x.o);
    OpsLaid(w);
    OffersBase(w, x);
    PlaceStored(PlanOf(w), OpLayout(w), OpPut, id, n, x);
    OpsCollected(All(PlanOf(w))[..n]);
    var y := BaseFrom(w, n, id);
    OperationIdInjective(x.n, TxAt(w, x).txid, x.o, y.n, TxAt(w, y).txid, y.o);
    OwnKeys(w, x, y);
  }

  /** And it has its row among all operations, under the id made of block number, transaction id
      and index: with its place, its type, its JSON and the address it is listed under. */
  lemma BaseRowsOnChain(w: World, acts: seq<Act>, x: Place, opType: nat, name: string, fields: Fields)
    requires UniqueTxids(w) && FailStop(acts) && Taken(w, x, opType, name, fields)
    requires Start(PlanOf(w), x.n + 1) <= After(PlanOf(w), acts).hwm
    ensures var ops, txid := After(PlanOf(w), acts).disk.tables.ops, TxAt(w, x).txid;
            var id := Itoa(x.n) + "@" + txid + "@" + Itoa(x.o);
            id in ops && IsBaseRow(ops[id], x, txid, opType, name, fields)
  {
    PlanProper(w);
    ReplayConfluenceButHistory(PlanOf(w), acts);
    ReadExactly(w.names, TxAt(w, x).ops[x.o], opType, name, fields);
    BaseThere(w, After(PlanOf(w), acts).hwm, x);
    BaseRowExactly(x, TxAt(w, x).txid, opType, name, fields);
  }
}
