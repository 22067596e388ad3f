/** The nested loops of ScanBlocksFrom, and the restart rule. Every method is given the rest of
    the block's script: when it returns Went, it has done exactly its own part; Failed means
    that an error was logged and the enclosing loop breaks; Died that the process is gone. */
module Scanner {
  import opened Wrappers
  import opened Numerals
  import opened Json
  import opened Chain
  import opened Tables
  import opened Script
  import opened Plans
  import opened BlockFacts
  import opened Machine
  import opened Confluence
  import opened Readings
  import Ingestion
  import opened Integrity
  import opened DynamicInsert
  import opened RowTables
  import opened Databases
  import opened Indexers
  import opened Plugins
  import NodeService

  // ---- one operation ----

  /** The column list of a new operation table: the keys of the operation's JSON. */
  method ColumnNames(fields: Fields) returns (columns: seq<string>)
    ensures ToSet(columns) == fields.Keys
  {
    columns := [];
    var left := fields.Keys;
    while left != {}
      invariant left <= fields.Keys && ToSet(columns) == fields.Keys - left
      decreases |left|
    {
      var key :| key in left;
      left := left - {key};
      ToSetAppend(columns, key);
      columns := columns + [key];
    }
  }

  lemma ToSetAppend(columns: seq<string>, c: string)
    ensures ToSet(columns + [c]) == ToSet(columns) + {c}
  {
    var all := columns + [c];
    forall x ensures x in ToSet(all) <==> x in ToSet(columns) || x == c {
      if x in ToSet(columns) {
        var i :| 0 <= i < |columns| && columns[i] == x;
        assert all[i] == x;
      }
      assert all[|columns|] == c;
    }
  }

  /** A row stored with the live columns is found again by its transaction and index. */
  lemma StoredLabels(num: nat, txid: string, index: nat, fields: Fields, columns: set<string>)
    requires LABELS <= columns
    ensures var row := RowOf(columns, Augment(num, txid, index, fields));
            Labelled(row, txid, index) && forall table :: LabelOf(table, row) == OpKey(table, txid, index)
  {
  }

  /** Create the operation's table unless it exists. */
  method EnsureTable(ix: Indexer, table: string, f: Fields, ghost k: seq<Instr>) returns (r: Fate)
    requires ix.Valid() && ix.At([MakeTable(table, f.Keys)] + k) && k != [] && LABELS <= f.Keys
    modifies ix`run, ix`head, ix.db
    ensures ix.Valid() && (r.Went? ==> ix.At(k) && table in ix.run.now.disk.tables.schemas)
    ensures r.Failed? ==> ix.At([MakeTable(table, f.Keys)] + k)
    ensures !r.Went? ==> !ix.run.smooth
  {
    var db := ix.db;
    :- ix.Call();
    var found := db.CheckTableExist(table);
    if !found {
      var columns := ColumnNames(f);
      :- ix.Must();
      CacheKept(ix.cache, db.schemas, table, columns);
      var created := db.CreateTable(table, columns);
      assert created;
    }
    ix.Pop(MakeTable(table, f.Keys), k);
    return Went;
  }

  /** cachedGetTableSchema */
  method CachedTableSchema(ix: Indexer, table: string) returns (r: Fate, columns: seq<string>)
    requires ix.Valid() && table in ix.run.now.disk.tables.schemas
    modifies ix`run, ix`head, ix`cache
    ensures ix.Valid() && !r.Failed? && (r.Died? ==> !ix.run.smooth)
    ensures ix.run.now == old(ix.run.now).(head := ix.run.now.head)
    ensures r.Went? ==> ToSet(columns) == ix.run.now.disk.tables.schemas[table] && LABELS <= ToSet(columns)
  {
    columns := [];
    ix.db.Labels(table);
    if table in ix.cache {
      return Went, ix.cache[table];
    }
    :- ix.Must();
    columns := ix.db.GetTableSchema(table);
    ix.cache := ix.cache[table := columns];
    r := Went;
  }

  /** The INSERT, with columns that are the table's. */
  method WriteOperation(ix: Indexer, key: OpKey, columns: seq<string>, f: Fields, ghost k: seq<Instr>)
    requires ix.Valid() && CacheCoherent(ix.run.now) && ix.At([InsertOp(key, f)] + k) && k != []
    requires key.table in ix.run.now.disk.tables.schemas && key !in ix.run.now.disk.tables.rows
    requires ToSet(columns) == ix.run.now.disk.tables.schemas[key.table]
    requires var row := RowOf(ToSet(columns), f); LabelOf(key.table, row) == key && Labelled(row, key.txid, key.index)
    modifies ix`run, ix.db
    ensures ix.Valid() && ix.At(k)
  {
    var db := ix.db;
    db.InsertDynamicOperation(key.table, columns, f);
    ix.Insert(key, f, k);
  }

  /** A new row, with the columns the table has. */
  method InsertOperation(ix: Indexer, num: nat, txid: string, index: nat, table: string, fields: Fields,
                         ghost k: seq<Instr>)
    returns (r: Fate)
    requires ix.Valid() && Proper(ix.p) && table in ix.run.now.disk.tables.schemas && k != []
    requires OpKey(table, txid, index) !in ix.run.now.disk.tables.rows
    requires ix.At([InsertOp(OpKey(table, txid, index), Augment(num, txid, index, fields))] + k)
    modifies ix`run, ix`head, ix`cache, ix.db
    ensures ix.Valid() && !r.Failed? && (if r.Went? then ix.At(k) else ix.Doomed())
  {
    var f := Augment(num, txid, index, fields);
    var columns :- CachedTableSchema(ix, table);
    :- ix.Must();
    StoredLabels(num, txid, index, fields, ToSet(columns));
    RunCoherent(ix.p, ix.run);
    WriteOperation(ix, OpKey(table, txid, index), columns, f, k);
    return Went;
  }

  /** The row of the operation's own table, unless it is there. */
  method StoreOperation(ix: Indexer, num: nat, txid: string, index: nat, table: string, fields: Fields,
                        ghost k: seq<Instr>)
    returns (r: Fate)
    requires ix.Valid() && Proper(ix.p) && table in ix.run.now.disk.tables.schemas && k != []
    requires ix.At([InsertOp(OpKey(table, txid, index), Augment(num, txid, index, fields))] + k)
    modifies ix`run, ix`head, ix`cache, ix.db
    ensures ix.Valid() && !r.Failed? && (if r.Went? then ix.At(k) else ix.Doomed())
  {
    var key, f := OpKey(table, txid, index), Augment(num, txid, index, fields);
    :- ix.Must();
    var found := ix.db.CheckOperationExist(table, txid, index);
    if found {
      ix.Pass(InsertOp(key, f), k);
      r := Went;
    } else {
      r := InsertOperation(ix, num, txid, index, table, fields, k);
    }
  }

  /** The row of the operations table, unless it is there. */
  method StoreBaseOperation(ix: Indexer, id: string, row: OpRow, ghost k: seq<Instr>) returns (r: Fate)
    requires ix.Valid() && ix.At([SaveOp(id, row)] + k) && k != []
    modifies ix`run, ix`head, ix.db
    ensures ix.Valid() && (if r.Went? then ix.At(k) else !ix.run.smooth)
    ensures r.Failed? ==> ix.At([SaveOp(id, row)] + k)
    ensures !r.Went? ==> !ix.run.smooth
  {
    var db := ix.db;
    :- ix.Call();
    var found := db.FindBaseOperation(id);
    if found.None? {
      :- ix.Must();
      db.SaveBaseOperation(id, row);
    }
    ix.Pop(SaveOp(id, row), k);
    return Went;
  }

  /** The loop over candidate address properties: the first one present counts, as a string. */
  method AddrOf(props: seq<string>, f: Fields) returns (addr: string)
    ensures addr == FirstPresent(props, f)
  {
    for i := 0 to |props|
      invariant FirstPresent(props, f) == FirstPresent(props[i..], f)
    {
      assert props[i..][1..] == props[i + 1..];
      if props[i] in f {
        return if f[props[i]].JString? then f[props[i]].s else "";
      }
    }
    return "";
  }

  /** None of the rows that others rely on most. */
  predicate Harmless(s: seq<Instr>) {
    forall i :: 0 <= i < |s| ==> !s[i].SaveBlock? && !s[i].BackFill? && !s[i].SaveTx?
  }

  lemma HarmlessConcat(a: seq<Instr>, b: seq<Instr>)
    requires Harmless(a) && Harmless(b)
    ensures Harmless(a + b)
  {
  }

  /** The first half of an operation: its own table, and its row there. */
  method StartOp(ix: Indexer, num: nat, txid: string, o: nat, table: string, fields: Fields, ghost k: seq<Instr>)
    returns (r: Fate)
    requires ix.Valid() && Proper(ix.p) && k != []
    requires var f := Augment(num, txid, o, fields);
             ix.At([MakeTable(table, f.Keys)] + ([InsertOp(OpKey(table, txid, o), f)] + k))
    modifies ix`run, ix`head, ix`cache, ix.db
    ensures ix.Valid() && (r.Went? ==> ix.At(k)) && (r.Died? ==> ix.Doomed())
    ensures var f := Augment(num, txid, o, fields);
            r.Failed? ==>
              && !ix.run.smooth
              && ix.At([MakeTable(table, f.Keys)] + ([InsertOp(OpKey(table, txid, o), f)] + k))
  {
    var f := Augment(num, txid, o, fields);
    :- EnsureTable(ix, table, f, [InsertOp(OpKey(table, txid, o), f)] + k);
    r := StoreOperation(ix, num, txid, o, table, fields, k);
  }

  /** The second half of an operation: its row in the operations table, then the plugins. */
  method FinishOp(ix: Indexer, num: nat, block: Block, txid: string, o: nat, base: OpRow, f: Fields,
                  receipt: Option<Receipt>, ghost k: seq<Instr>) returns (r: Fate)
    requires ix.Valid() && NodeFits(ix.p, ix.w) && DistinctAssets(ix.w.assets) && Ready(k)
    requires ix.At([SaveOp(OperationId(num, txid, o), base)]
                   + (PluginsScript(num, block, txid, o, base.typeName, f, receipt) + k))
    modifies ix`run, ix`head, ix.db
    ensures ix.Valid() && (r.Went? ==> ix.At(k))
    ensures r.Failed? ==> !ix.run.smooth && ix.At([SaveOp(OperationId(num, txid, o), base)]
                                               + (PluginsScript(num, block, txid, o, base.typeName, f, receipt) + k))
    ensures r.Died? ==> ix.Doomed()
  {
    ghost var plugins := PluginsScript(num, block, txid, o, base.typeName, f, receipt);
    PluginsOnly(num, block, txid, o, base.typeName, f, receipt);
    ReadyAfter(plugins, k);
    :- StoreBaseOperation(ix, OperationId(num, txid, o), base, plugins + k);
    r := ApplyPlugins(ix, num, block, txid, o, base.typeName, f, receipt, k);
  }

  /** Taking the script of an operation apart. */
  lemma OpPieces(num: nat, block: Block, t: nat, tx: Tx, o: nat, form: OpForm, base: OpRow, k: seq<Instr>)
    requires form.Good?
    requires base == BaseRow(num, t, tx.txid, form.opType, form.opName, Augment(num, tx.txid, o, form.fields))
    ensures var f, table := Augment(num, tx.txid, o, form.fields), TableName(form.opName);
            var make, insert := MakeTable(table, f.Keys), InsertOp(OpKey(table, tx.txid, o), f);
            var save := SaveOp(OperationId(num, tx.txid, o), base);
            var plugins := PluginsScript(num, block, tx.txid, o, form.opName, f, ReceiptFor(tx, o));
            var script := OpScript(num, block, t, tx, o, form);
            && script != [] && Harmless(script) && Harmless([save] + plugins)
            && script + k == [make] + ([insert] + ([save] + (plugins + k)))
            && ([save] + plugins) + k == [save] + (plugins + k)
  {
    var f, table := Augment(num, tx.txid, o, form.fields), TableName(form.opName);
    PluginsOnly(num, block, tx.txid, o, form.opName, f, ReceiptFor(tx, o));
    HeadPieces(MakeTable(table, f.Keys), InsertOp(OpKey(table, tx.txid, o), f),
               SaveOp(OperationId(num, tx.txid, o), base),
               PluginsScript(num, block, tx.txid, o, form.opName, f, ReceiptFor(tx, o)), k);
  }

  /** One operation that passed its checks. Failed: a logged error left rem undone. */
  method ScanOp(ix: Indexer, num: nat, block: Block, t: nat, tx: Tx, o: nat, form: OpForm, ghost k: seq<Instr>)
    returns (r: Fate, ghost rem: seq<Instr>)
    requires ix.Valid() && Proper(ix.p) && NodeFits(ix.p, ix.w) && DistinctAssets(ix.w.assets) && form.Good?
    requires ix.At(OpScript(num, block, t, tx, o, form) + k) && Ready(k)
    modifies ix`run, ix`head, ix`cache, ix.db
    ensures ix.Valid() && (r.Went? ==> ix.At(k))
    ensures r.Failed? ==> ix.At(rem + k) && rem != [] && Harmless(rem) && !ix.run.smooth
    ensures r.Died? ==> ix.Doomed()
  {
    var f := Augment(num, tx.txid, o, form.fields);
    var table := TableName(form.opName);
    var addr := AddrOf(ADDR_PROPS, f);
    var base := OpRow(tx.txid, num, t, form.opType, form.opName, f, addr);
    var receipt := ReceiptFor(tx, o);
    ghost var save := SaveOp(OperationId(num, tx.txid, o), base);
    ghost var plugins := PluginsScript(num, block, tx.txid, o, form.opName, f, receipt);
    OpPieces(num, block, t, tx, o, form, base, k);
    rem := OpScript(num, block, t, tx, o, form);
    :- StartOp(ix, num, tx.txid, o, table, form.fields, [save] + (plugins + k));
    rem := [save] + plugins;
    r := FinishOp(ix, num, block, tx.txid, o, base, f, receipt, k);
  }

  lemma HeadPieces(make: Instr, insert: Instr, save: Instr, plugins: seq<Instr>, k: seq<Instr>)
    requires make.MakeTable? && insert.InsertOp? && save.SaveOp? && OnlyPlugins(plugins)
    ensures ([make, insert, save] + plugins) + k == [make] + ([insert] + ([save] + (plugins + k)))
    ensures ([save] + plugins) + k == [save] + (plugins + k)
    ensures Harmless([make, insert, save] + plugins) && Harmless([save] + plugins)
  {
  }

  lemma OpHarmless(num: nat, block: Block, t: nat, tx: Tx, o: nat, form: OpForm)
    ensures Harmless(OpScript(num, block, t, tx, o, form)) && Clean(OpScript(num, block, t, tx, o, form))
  {
    if form.Good? {
      var f, table := Augment(num, tx.txid, o, form.fields), TableName(form.opName);
      PluginsOnly(num, block, tx.txid, o, form.opName, f, ReceiptFor(tx, o));
      HeadPieces(MakeTable(table, f.Keys), InsertOp(OpKey(table, tx.txid, o), f),
                 SaveOp(OperationId(num, tx.txid, o), BaseRow(num, t, tx.txid, form.opType, form.opName, f)),
                 PluginsScript(num, block, tx.txid, o, form.opName, f, ReceiptFor(tx, o)), []);
    }
  }

  /** The loops may go on at s. */
  predicate Clean(s: seq<Instr>) {
    s != [] ==> !s[0].InsertOp? && !s[0].SaveOp?
  }

  lemma {:induction false} OpsHarmless(read: Reader, ops: seq<seq<Json>>, o: nat, body: OpBody)
    requires o <= |ops| && forall i: nat, form: OpForm :: Harmless(body(i, form)) && Clean(body(i, form))
    ensures Harmless(OpsLoop(read, ops, o, body)) && Clean(OpsLoop(read, ops, o, body))
    decreases |ops| - o
  {
    if o < |ops| {
      var form := read(ops[o]);
      if form.Good? {
        OpsHarmless(read, ops, o + 1, body);
      }
      HarmlessConcat(body(o, form), if form.Good? then OpsLoop(read, ops, o + 1, body) else []);
    }
  }

  /** body is the operation body of one transaction; it stays folded unless OpScript is
      mentioned. */
  ghost predicate BodyFor(body: OpBody, num: nat, block: Block, t: nat, tx: Tx) {
    forall o: nat, form: OpForm {:trigger OpScript(num, block, t, tx, o, form)} ::
      body(o, form) == OpScript(num, block, t, tx, o, form)
  }

  /** The same for the checks on one operation. */
  ghost predicate Reads(read: Reader, names: seq<string>) {
    forall op {:trigger ReadOp(names, op)} :: read(op) == ReadOp(names, op)
  }

  method ReadOne(names: seq<string>, op: seq<Json>, ghost read: Reader) returns (form: OpForm)
    requires Reads(read, names)
    ensures form == read(op)
  {
    form := ReadOp(names, op);
  }

  lemma OpsOfTxHarmless(read: Reader, num: nat, block: Block, t: nat, tx: Tx, o: nat, body: OpBody)
    requires o <= |tx.ops| && BodyFor(body, num, block, t, tx)
    ensures var loop := OpsLoop(read, tx.ops, o, body); Harmless(loop) && Clean(loop)
  {
    forall i: nat, form: OpForm ensures Harmless(body(i, form)) && Clean(body(i, form)) {
      OpHarmless(num, block, t, tx, i, form);
    }
    OpsHarmless(read, tx.ops, o, body);
  }

  lemma NothingFirst(k: seq<Instr>)
    ensures [] + k == k
  {
  }

  lemma ReadyClean(s: seq<Instr>, k: seq<Instr>)
    requires Clean(s) && Ready(k)
    ensures Ready(s + k)
  {
    if s == [] {
      assert s + k == k;
    }
  }

  /** One round of the operation loop, with the rest of the loop and what follows it; stop
      says that a logged error ended the loop. */
  method OpRound(ix: Indexer, num: nat, block: Block, t: nat, tx: Tx, o: nat, form: OpForm,
                 ghost rest: seq<Instr>, ghost k: seq<Instr>) returns (r: Fate, stop: bool)
    requires ix.Valid() && Proper(ix.p) && NodeFits(ix.p, ix.w) && DistinctAssets(ix.w.assets) && form.Good?
    requires ix.At((OpScript(num, block, t, tx, o, form) + rest) + k) && Harmless(rest) && Clean(rest) && Ready(k)
    modifies ix`run, ix`head, ix`cache, ix.db
    ensures ix.Valid() && !r.Failed? && (if r.Went? then ix.At(if stop then k else rest + k) else ix.Doomed())
  {
    stop := false;
    ReadyClean(rest, k);
    Assoc(OpScript(num, block, t, tx, o, form), rest, k);
    ghost var rem;
    r, rem := ScanOp(ix, num, block, t, tx, o, form, rest + k);
    if r.Failed? {
      Assoc(rem, rest, k);
      HarmlessConcat(rem, rest);
      ix.SkipTo(rem + rest, k);
      return Went, true;
    }
  }

  method GoodRound(ix: Indexer, num: nat, block: Block, t: nat, tx: Tx, o: nat, form: OpForm,
                   ghost read: Reader, ghost body: OpBody, ghost k: seq<Instr>) returns (r: Fate, stop: bool)
    requires ix.Valid() && Proper(ix.p) && NodeFits(ix.p, ix.w) && DistinctAssets(ix.w.assets) && form.Good?
    requires o < |tx.ops| && Ready(k) && BodyFor(body, num, block, t, tx)
    requires ix.At((body(o, form) + OpsLoop(read, tx.ops, o + 1, body)) + k)
    modifies ix`run, ix`head, ix`cache, ix.db
    ensures ix.Valid() && !r.Failed? && (r.Died? ==> ix.Doomed())
    ensures r.Went? ==> ix.At(if stop then k else OpsLoop(read, tx.ops, o + 1, body) + k)
  {
    OpsOfTxHarmless(read, num, block, t, tx, o + 1, body);
    r, stop := OpRound(ix, num, block, t, tx, o, form, OpsLoop(read, tx.ops, o + 1, body), k);
  }

  /** Taking the first operation of the loop apart. */
  lemma LoopPieces(num: nat, block: Block, t: nat, tx: Tx, o: nat, read: Reader, body: OpBody, k: seq<Instr>)
    requires o < |tx.ops| && BodyFor(body, num, block, t, tx)
    ensures var form, loop := read(tx.ops[o]), OpsLoop(read, tx.ops, o, body);
            && (form.Good? ==> loop + k == (body(o, form) + OpsLoop(read, tx.ops, o + 1, body)) + k)
            && (!form.Good? ==> loop + k == OpScript(num, block, t, tx, o, form) + k)
            && (form.Malformed? ==> loop + k == k)
            && (form.Panics? ==> (loop + k)[..1] == [Halt(Always)])
  {
    var form := read(tx.ops[o]);
    assert body(o, form) == OpScript(num, block, t, tx, o, form);
    assert body(o, form) + [] == body(o, form);
  }

  /** An operation whose name needs quotes: its table is created, but neither the index nor the
      search for the operation finds it. */
  method ScanUnquoted(ix: Indexer, num: nat, block: Block, t: nat, tx: Tx, o: nat, form: OpForm, ghost k: seq<Instr>)
    returns (r: Fate)
    requires ix.Valid() && form.Unquoted? && ix.At(OpScript(num, block, t, tx, o, form) + k) && Ready(k)
    modifies ix`run, ix`head, ix`cache, ix.db
    ensures ix.Valid() && !r.Failed? && (if r.Went? then ix.At(k) else ix.Doomed())
  {
    var f, table := Augment(num, tx.txid, o, form.fields), TableName(form.opName);
    ghost var script := OpScript(num, block, t, tx, o, form);
    assert script + k == [MakeTable(table, f.Keys)] + ([Halt(Always)] + k);
    r := EnsureTable(ix, table, f, [Halt(Always)] + k);
    if r.Failed? {
      assert script != [] && Harmless(script);
      ix.SkipTo(script, k);
      return Went;
    }
    return Died;
  }

  /** One round of the operation loop, checks included. */
  method ScanOneOp(ix: Indexer, num: nat, block: Block, t: nat, tx: Tx, o: nat, ghost read: Reader, ghost body: OpBody,
                   ghost k: seq<Instr>) returns (r: Fate, stop: bool)
    requires ix.Valid() && Proper(ix.p) && NodeFits(ix.p, ix.w) && DistinctAssets(ix.w.assets)
    requires o < |tx.ops| && BodyFor(body, num, block, t, tx) && Reads(read, ix.w.names) && Ready(k)
    requires ix.At(OpsLoop(read, tx.ops, o, body) + k)
    modifies ix`run, ix`head, ix`cache, ix.db
    ensures ix.Valid() && !r.Failed? && (r.Died? ==> ix.Doomed())
    ensures r.Went? ==> ix.At(if stop then k else OpsLoop(read, tx.ops, o + 1, body) + k)
  {
    var form := ReadOne(ix.w.names, tx.ops[o], read);
    stop := true;
    LoopPieces(num, block, t, tx, o, read, body, k);
    match form
    case Malformed => r := Went;
    case Panics => r := Died;
    case Unquoted(_, _) => r := ScanUnquoted(ix, num, block, t, tx, o, form, k);
    case Good(_, _, _) => r, stop := GoodRound(ix, num, block, t, tx, o, form, read, body, k);
  }

  /** The operation loop: it ends at the first operation that is malformed, and a logged error
      ends it as well. */
  method ScanOps(ix: Indexer, num: nat, block: Block, t: nat, tx: Tx, ghost read: Reader, ghost body: OpBody,
                 ghost k: seq<Instr>) returns (r: Fate)
    requires ix.Valid() && Proper(ix.p) && NodeFits(ix.p, ix.w) && DistinctAssets(ix.w.assets)
    requires BodyFor(body, num, block, t, tx) && Reads(read, ix.w.names) && Ready(k)
    requires ix.At(OpsLoop(read, tx.ops, 0, body) + k)
    modifies ix`run, ix`head, ix`cache, ix.db
    ensures ix.Valid() && !r.Failed? && (if r.Went? then ix.At(k) else ix.Doomed())
  {
    var o, stop := 0, false;
    while o < |tx.ops| && !stop
      invariant o <= |tx.ops| && ix.Valid() && ix.At(if stop then k else OpsLoop(read, tx.ops, o, body) + k)
      decreases |tx.ops| - o
    {
      stop :- ScanOneOp(ix, num, block, t, tx, o, read, body, k);
      o := o + 1;
    }
    NothingFirst(k);
    return Went;
  }

  // ---- receipts ----

  /** SaveContractOpReceipt after the receipt's row: its event rows, one insert each. */
  method StoreEvents(ix: Indexer, receipt: Receipt, ghost k: seq<Instr>) returns (r: Fate)
    requires ix.Valid() && ix.run.now.todo == [SaveReceipt(receipt)] + k && k != []
    requires ix.run.now.saving == Some(0) && ix.run.now.answer == Nothing && KeyOf(receipt) in ix.run.now.disk.events
    modifies ix`run, ix`head, ix.db
    ensures ix.Valid() && !r.Failed? && (if r.Went? then ix.At(k) else ix.Doomed())
  {
    for i := 0 to |receipt.events|
      invariant ix.Valid() && ix.run.now.todo == [SaveReceipt(receipt)] + k
      invariant ix.run.now.saving == Some(i) && ix.run.now.answer == Nothing && KeyOf(receipt) in ix.run.now.disk.events
    {
      var db := ix.db;
      :- ix.Must();
      db.SaveEventRow(KeyOf(receipt), receipt.events[i]);
      ix.WriteEvent(receipt, k, i);
    }
    ix.EndReceipt(receipt, k);
    return Went;
  }

  method StoreReceipt(ix: Indexer, receipt: Receipt, ghost k: seq<Instr>) returns (r: Fate)
    requires ix.Valid() && ix.At([SaveReceipt(receipt)] + k) && k != []
    modifies ix`run, ix`head, ix.db
    ensures ix.Valid() && !r.Failed? && (if r.Went? then ix.At(k) else ix.Doomed())
  {
    var db := ix.db;
    :- ix.Must();
    var found := db.FindContractOpReceipt(KeyOf(receipt));
    if found.Some? {
      ix.Pass(SaveReceipt(receipt), k);
      return Went;
    }
    :- ix.Must();
    db.SaveReceiptRow(receipt);
    ix.BeginReceipt(receipt, k);
    r := StoreEvents(ix, receipt, k);
  }

  method StoreReceipts(ix: Indexer, receipts: seq<Receipt>, ghost k: seq<Instr>) returns (r: Fate)
    requires ix.Valid() && ix.At(ReceiptsScript(receipts) + k) && k != []
    modifies ix`run, ix`head, ix.db
    ensures ix.Valid() && !r.Failed? && (if r.Went? then ix.At(k) else ix.Doomed())
  {
    assert receipts[0..] == receipts && [] + k == k;
    for i := 0 to |receipts|
      invariant ix.Valid() && ix.At(ReceiptsScript(receipts[i..]) + k)
    {
      assert receipts[i..][1..] == receipts[i + 1..];
      Assoc([SaveReceipt(receipts[i])], ReceiptsScript(receipts[i + 1..]), k);
      :- StoreReceipt(ix, receipts[i], ReceiptsScript(receipts[i + 1..]) + k);
    }
    return Went;
  }

  // ---- transactions ----

  /** p holds the scripts of the chain. */
  ghost predicate ScriptsFit(p: Plan, w: World) {
    && p.Length() == |w.chain|
    && forall n {:trigger p.Script(n)} :: 1 <= n <= |w.chain| ==> p.Script(n) == BlockScript(w, n)
  }

  lemma FoundTxLeads(ix: Indexer, num: nat, t: nat)
    requires ix.Valid() && Proper(ix.p) && ScriptsFit(ix.p, ix.w) && UniqueTxids(ix.w)
    requires 1 <= num <= |ix.w.chain| && t < |BlockAt(ix.w, num).txs|
    requires BlockAt(ix.w, num).txs[t].txid in ix.run.now.disk.tables.txs
    ensures Leading(BlockAt(ix.w, num).txs[t]).LeadOk?
  {
    RunMeans(ix.p, ix.run);
    Ingestion.StoredTxLeads(ix.w, ix.p, ix.run.acts, num, t);
  }

  /** The receipts and the lookup of the transaction's row. */
  method FindTx(ix: Indexer, tx: Tx) returns (r: Fate, found: bool, hasContractOp: bool)
    requires ix.Valid()
    modifies ix`run, ix`head
    ensures ix.Valid() && ix.run.now == old(ix.run.now).(head := ix.run.now.head)
    ensures hasContractOp == HasContractOp(tx.ops) && (r.Went? ==> (found <==> tx.txid in ix.run.now.disk.tables.txs))
    ensures !r.Went? ==> !ix.run.smooth
  {
    found := false;
    hasContractOp := NodeService.CheckTransactionHasContractOp(tx);
    if hasContractOp {
      :- ix.Call();
    }
    :- ix.Call();
    var row := ix.db.FindTransaction(tx.txid);
    return Went, row.Some?, hasContractOp;
  }

  /** SaveTransaction: stop says that the row cannot be made. */
  method SaveTx(ix: Indexer, num: nat, t: nat, tx: Tx, ghost k: seq<Instr>) returns (r: Fate, stop: bool)
    requires ix.Valid() && k != [] && tx.txid !in ix.run.now.disk.tables.txs
    requires var lead := Leading(tx);
             lead.LeadOk? ==> ix.At([Instr.SaveTx(tx.txid, TxRow(num, |tx.ops|, t, lead.firstType))] + k)
    modifies ix`run, ix`head, ix.db
    ensures ix.Valid() && (stop ==> r.Went? && Leading(tx).LeadBad?)
    ensures r.Went? && !stop ==> Leading(tx).LeadOk? && ix.At(k)
    ensures stop || r.Failed? ==> ix.run.now == old(ix.run.now).(head := ix.run.now.head)
    ensures !r.Went? ==> !ix.run.smooth || (r.Died? && Leading(tx).LeadPanics? && ix.run == old(ix.run))
  {
    stop := false;
    var lead := Leading(tx);
    if lead.LeadPanics? {
      return Died, stop;
    }
    :- ix.Call();
    if lead.LeadBad? {
      return Went, true;
    }
    var row := TxRow(num, |tx.ops|, t, lead.firstType);
    ix.db.SaveTransaction(tx.txid, row);
    ix.Pop(Instr.SaveTx(tx.txid, row), k);
    return Went, stop;
  }

  /** Up to and including the find-or-save of the transaction's row. Failed and stop both end
      the transaction loop: an error was logged, or the row could not be made. */
  method StoreTx(ix: Indexer, num: nat, t: nat, tx: Tx, ghost k: seq<Instr>)
    returns (r: Fate, stop: bool, hasContractOp: bool)
    requires ix.Valid() && Proper(ix.p) && ScriptsFit(ix.p, ix.w) && UniqueTxids(ix.w)
    requires 1 <= num <= |ix.w.chain| && t < |BlockAt(ix.w, num).txs| && tx == BlockAt(ix.w, num).txs[t] && k != []
    requires var lead := Leading(tx);
             lead.LeadOk? ==> ix.At([Instr.SaveTx(tx.txid, TxRow(num, |tx.ops|, t, lead.firstType))] + k)
    modifies ix`run, ix`head, ix.db
    ensures ix.Valid() && hasContractOp == HasContractOp(tx.ops) && (stop ==> r.Went? && Leading(tx).LeadBad?)
    ensures r.Went? && !stop ==> Leading(tx).LeadOk? && ix.At(k)
    ensures stop || r.Failed? ==> ix.run.now == old(ix.run.now).(head := ix.run.now.head)
    ensures !r.Went? ==>
              || !ix.run.smooth
              || (r.Died? && Leading(tx).LeadPanics? && ix.run.now == old(ix.run.now).(head := ix.run.now.head))
  {
    stop := false;
    var found;
    r, found, hasContractOp := FindTx(ix, tx);
    if !r.Went? {
      return r, stop, hasContractOp;
    }
    if found {
      FoundTxLeads(ix, num, t);
      ix.Pop(Instr.SaveTx(tx.txid, TxRow(num, |tx.ops|, t, Leading(tx).firstType)), k);
    } else {
      r, stop := SaveTx(ix, num, t, tx, k);
    }
  }

  /** Only the end of the block is left. */
  predicate AtEnd(k: seq<Instr>) {
    k != [] && k[0].EndBlock?
  }

  ghost predicate LeadsFit(leads: Leads) {
    forall tx {:trigger Leading(tx)} :: leads(tx) == Leading(tx)
  }

  /** body is the transaction body of one block. */
  ghost predicate TxBodyFor(body: TxBody, names: seq<string>, num: nat, block: Block) {
    forall t: nat, tx: Tx, ft: int {:trigger TxScript(names, num, block, t, tx, ft)} ::
      body(t, tx, ft) == TxScript(names, num, block, t, tx, ft)
  }

  lemma TxsFitAndClean(names: seq<string>, num: nat, block: Block, t: nat, leads: Leads, body: TxBody)
    requires t <= |block.txs| && TxBodyFor(body, names, num, block)
    ensures AllFit(num, TxsLoop(leads, block.txs, t, body)) && Clean(TxsLoop(leads, block.txs, t, body))
  {
    forall i: nat, tx: Tx, ft: int ensures AllFit(num, body(i, tx, ft)) {
      TxFits(names, num, block, i, tx, ft);
      assert body(i, tx, ft) == TxScript(names, num, block, i, tx, ft);
    }
    TxsLoopFits(num, leads, block.txs, t, body);
    if t < |block.txs| && leads(block.txs[t]).LeadOk? {
      var ft := leads(block.txs[t]).firstType;
      assert body(t, block.txs[t], ft) == TxScript(names, num, block, t, block.txs[t], ft);
    }
  }

  /** What follows the row of transaction t, up to the next transaction. */
  ghost function AfterRow(names: seq<string>, num: nat, block: Block, t: nat, tx: Tx): seq<Instr> {
    OpsLoop(ReaderOf(names), tx.ops, 0, BodyOfOps(num, block, t, tx)) + ReceiptsScript(FetchedReceipts(tx))
  }

  /** Taking a transaction's script apart. */
  lemma TxPieces(names: seq<string>, num: nat, block: Block, t: nat, leads: Leads, body: TxBody, k: seq<Instr>)
    requires t < |block.txs| && LeadsFit(leads) && TxBodyFor(body, names, num, block) && Leading(block.txs[t]).LeadOk?
    ensures var tx := block.txs[t];
            TxsLoop(leads, block.txs, t, body) + k
            == [Instr.SaveTx(tx.txid, TxRow(num, |tx.ops|, t, Leading(tx).firstType))]
               + (AfterRow(names, num, block, t, tx) + (TxsLoop(leads, block.txs, t + 1, body) + k))
  {
    var tx := block.txs[t];
    var script := TxScript(names, num, block, t, tx, Leading(tx).firstType);
    assert body(t, tx, Leading(tx).firstType) == script;
    Assoc(script, TxsLoop(leads, block.txs, t + 1, body), k);
    Assoc([Instr.SaveTx(tx.txid, TxRow(num, |tx.ops|, t, Leading(tx).firstType))],
          OpsLoop(ReaderOf(names), tx.ops, 0, BodyOfOps(num, block, t, tx)) + ReceiptsScript(FetchedReceipts(tx)),
          TxsLoop(leads, block.txs, t + 1, body) + k);
  }

  lemma BodiesFit(names: seq<string>, num: nat, block: Block, t: nat, tx: Tx)
    ensures Reads(ReaderOf(names), names) && BodyFor(BodyOfOps(num, block, t, tx), num, block, t, tx)
  {
  }

  /** What follows the transaction's row: its operations, then its receipts. */
  method FinishTx(ix: Indexer, num: nat, block: Block, t: nat, tx: Tx, receipts: seq<Receipt>,
                  ghost read: Reader, ghost body: OpBody, ghost k: seq<Instr>) returns (r: Fate)
    requires ix.Valid() && Proper(ix.p) && NodeFits(ix.p, ix.w) && DistinctAssets(ix.w.assets)
    requires BodyFor(body, num, block, t, tx) && Reads(read, ix.w.names)
    requires ix.At((OpsLoop(read, tx.ops, 0, body) + ReceiptsScript(receipts)) + k) && Ready(k)
    modifies ix`run, ix`head, ix`cache, ix.db
    ensures ix.Valid() && !r.Failed? && (if r.Went? then ix.At(k) else ix.Doomed())
  {
    Assoc(OpsLoop(read, tx.ops, 0, body), ReceiptsScript(receipts), k);
    ReadyClean(ReceiptsScript(receipts), k);
    :- ScanOps(ix, num, block, t, tx, read, body, ReceiptsScript(receipts) + k);
    r := StoreReceipts(ix, receipts, k);
  }

  /** The first part of a round: up to the transaction's row. */
  method BeginTx(ix: Indexer, num: nat, t: nat, ghost leads: Leads, ghost body: TxBody, ghost k: seq<Instr>)
    returns (r: Fate, stop: bool, hasContractOp: bool)
    requires ix.Valid() && Proper(ix.p) && ScriptsFit(ix.p, ix.w) && UniqueTxids(ix.w)
    requires 1 <= num <= |ix.w.chain| && t < |BlockAt(ix.w, num).txs|
    requires TxBodyFor(body, ix.w.names, num, BlockAt(ix.w, num)) && LeadsFit(leads) && AtEnd(k)
    requires ix.At(TxsLoop(leads, BlockAt(ix.w, num).txs, t, body) + k)
    modifies ix`run, ix`head, ix.db
    ensures ix.Valid() && hasContractOp == HasContractOp(BlockAt(ix.w, num).txs[t].ops) && (r.Died? ==> ix.Doomed())
    ensures var block := BlockAt(ix.w, num);
            r.Went? && !stop ==>
              ix.At(AfterRow(ix.w.names, num, block, t, block.txs[t]) + (TxsLoop(leads, block.txs, t + 1, body) + k))
    ensures r.Failed? || stop ==> ix.At(TxsLoop(leads, BlockAt(ix.w, num).txs, t, body) + k)
    ensures r.Failed? || stop ==> !ix.run.smooth || Leading(BlockAt(ix.w, num).txs[t]).LeadBad?
  {
    var block := BlockAt(ix.w, num);
    var tx := block.txs[t];
    if Leading(tx).LeadOk? {
      TxPieces(ix.w.names, num, block, t, leads, body, k);
    }
    ghost var rest := AfterRow(ix.w.names, num, block, t, tx) + (TxsLoop(leads, block.txs, t + 1, body) + k);
    r, stop, hasContractOp := StoreTx(ix, num, t, tx, rest);
  }

  /** One round of the transaction loop; stop says that the loop has ended. */
  method ScanOneTx(ix: Indexer, num: nat, t: nat, ghost leads: Leads, ghost body: TxBody, ghost k: seq<Instr>)
    returns (r: Fate, stop: bool)
    requires ix.Valid() && Proper(ix.p) && ScriptsFit(ix.p, ix.w) && NodeFits(ix.p, ix.w)
    requires UniqueTxids(ix.w) && DistinctAssets(ix.w.assets)
    requires 1 <= num <= |ix.w.chain| && t < |BlockAt(ix.w, num).txs|
    requires TxBodyFor(body, ix.w.names, num, BlockAt(ix.w, num)) && LeadsFit(leads) && AtEnd(k)
    requires ix.At(TxsLoop(leads, BlockAt(ix.w, num).txs, t, body) + k)
    modifies ix`run, ix`head, ix`cache, ix.db
    ensures ix.Valid() && !r.Failed? && (r.Died? ==> ix.Doomed())
    ensures r.Went? ==> ix.At(if stop then k else TxsLoop(leads, BlockAt(ix.w, num).txs, t + 1, body) + k)
  {
    var block := BlockAt(ix.w, num);
    var tx := block.txs[t];
    ghost var rest := TxsLoop(leads, block.txs, t + 1, body);
    var hasContractOp;
    r, stop, hasContractOp := BeginTx(ix, num, t, leads, body, k);
    if r.Died? {
      return Died, true;
    }
    if r.Failed? || stop {
      BreakTxs(ix, num, t, leads, body, TxsLoop(leads, block.txs, t, body), k);
      return Went, true;
    }
    TxsFitAndClean(ix.w.names, num, block, t + 1, leads, body);
    ReadyClean(rest, k);
    r := RestOfTx(ix, num, block, t, tx, hasContractOp, rest + k);
  }

  /** What follows the transaction's row. */
  method RestOfTx(ix: Indexer, num: nat, block: Block, t: nat, tx: Tx, hasContractOp: bool, ghost k: seq<Instr>)
    returns (r: Fate)
    requires ix.Valid() && Proper(ix.p) && NodeFits(ix.p, ix.w) && DistinctAssets(ix.w.assets)
    requires hasContractOp == HasContractOp(tx.ops) && Ready(k)
    requires ix.At(AfterRow(ix.w.names, num, block, t, tx) + k)
    modifies ix`run, ix`head, ix`cache, ix.db
    ensures ix.Valid() && !r.Failed? && (if r.Went? then ix.At(k) else ix.Doomed())
  {
    BodiesFit(ix.w.names, num, block, t, tx);
    var receipts := if hasContractOp then tx.receipts else [];
    r := FinishTx(ix, num, block, t, tx, receipts, ReaderOf(ix.w.names), BodyOfOps(num, block, t, tx), k);
  }

  /** The transaction loop is left: what it had still to do is dropped. */
  ghost method BreakTxs(ix: Indexer, num: nat, t: nat, leads: Leads, body: TxBody, loop: seq<Instr>, k: seq<Instr>)
    requires ix.Sane() && 1 <= num <= |ix.w.chain| && t < |BlockAt(ix.w, num).txs|
    requires TxBodyFor(body, ix.w.names, num, BlockAt(ix.w, num)) && LeadsFit(leads) && AtEnd(k)
    requires loop == TxsLoop(leads, BlockAt(ix.w, num).txs, t, body) && ix.At(loop + k)
    requires !ix.run.smooth || Leading(BlockAt(ix.w, num).txs[t]).LeadBad?
    modifies ix`run
    ensures ix.Sane() && ix.At(k) && ix.run.now.disk == old(ix.run.now.disk) && ix.run.smooth == old(ix.run.smooth)
    ensures ix.run.now.head == old(ix.run.now.head) && ix.run.now.cursor == old(ix.run.now.cursor)
  {
    TxsFitAndClean(ix.w.names, num, BlockAt(ix.w, num), t, leads, body);
    if loop == [] {
      NothingFirst(k);
    } else {
      FitDroppable(num, loop, k[0]);
      ix.SkipTo(loop, k);
    }
  }

  lemma FitDroppable(num: nat, s: seq<Instr>, next: Instr)
    requires AllFit(num, s) && next.EndBlock?
    ensures Droppable(s, next)
  {
    forall i | 0 <= i < |s| ensures !s[i].SaveBlock? && !s[i].BackFill? {
      assert Fits(num, 2, s[i]);
    }
  }

  method ScanTxs(ix: Indexer, num: nat, ghost leads: Leads, ghost body: TxBody, ghost k: seq<Instr>) returns (r: Fate)
    requires ix.Valid() && Proper(ix.p) && ScriptsFit(ix.p, ix.w) && NodeFits(ix.p, ix.w)
    requires UniqueTxids(ix.w) && DistinctAssets(ix.w.assets) && 1 <= num <= |ix.w.chain|
    requires TxBodyFor(body, ix.w.names, num, BlockAt(ix.w, num)) && LeadsFit(leads) && AtEnd(k)
    requires ix.At(TxsLoop(leads, BlockAt(ix.w, num).txs, 0, body) + k)
    modifies ix`run, ix`head, ix`cache, ix.db
    ensures ix.Valid() && !r.Failed? && (if r.Went? then ix.At(k) else ix.Doomed())
  {
    var t, stop := 0, false;
    while t < |BlockAt(ix.w, num).txs| && !stop
      invariant t <= |BlockAt(ix.w, num).txs| && ix.Valid()
      invariant ix.At(if stop then k else TxsLoop(leads, BlockAt(ix.w, num).txs, t, body) + k)
      decreases |BlockAt(ix.w, num).txs| - t
    {
      stop :- ScanOneTx(ix, num, t, leads, body, k);
      t := t + 1;
    }
    NothingFirst(k);
    return Went;
  }

  // ---- blocks ----

  method StoreBlock(ix: Indexer, num: nat, row: BlockRow, ghost k: seq<Instr>) returns (r: Fate)
    requires ix.Valid() && ix.At([SaveBlock(num, row)] + k) && k != []
    modifies ix`run, ix`head, ix.db
    ensures ix.Valid() && (if r.Went? then ix.At(k) else !ix.run.smooth)
  {
    var db := ix.db;
    :- ix.Call();
    var found := db.FindBlock(num);
    if found.None? {
      :- ix.Call();
      db.SaveBlock(num, row);
    }
    ix.Pop(SaveBlock(num, row), k);
    return Went;
  }

  /** The hash of the block before is in this block. */
  method FillPreviousHash(ix: Indexer, num: nat, hash: string, ghost k: seq<Instr>) returns (r: Fate)
    requires ix.Valid() && num >= 1 && ix.At([BackFill(num, hash)] + k) && k != []
    modifies ix`run, ix`head, ix.db
    ensures ix.Valid() && (if r.Went? then ix.At(k) else !ix.run.smooth)
  {
    var db := ix.db;
    :- ix.Call();
    var prev := db.FindBlock(num - 1);
    if prev.Some? && (prev.value.value.blockId == "" || prev.value.value.blockId == "TODO") {
      :- ix.Call();
      db.UpdateBlockHash(prev.value, hash);
    }
    ix.Pop(BackFill(num, hash), k);
    return Went;
  }

  /** The last step of a block: every hundredth block writes the checkpoint. */
  method EndOfBlock(ix: Indexer, num: nat) returns (r: Fate)
    requires ix.Valid() && ix.At([EndBlock(num)]) && num < UINT32_RANGE
    modifies ix`run, ix`head, ix`cursor, ix.db
    ensures ix.Valid() && !r.Failed?
    ensures if r.Went? then ix.At([]) && ix.cursor == old(ix.cursor) + 1 else ix.Doomed()
  {
    if num % 100 == 0 {
      :- ix.Must();
      ix.db.UpdateLastScannedBlockNumber(num);
    }
    ix.FinishBlock(num);
    ix.cursor := ix.cursor + 1;
    return Went;
  }

  /** The block's row, and the hash of the block before. */
  method ScanHead(ix: Indexer, num: nat, block: Block, ghost k: seq<Instr>) returns (r: Fate)
    requires ix.Valid() && num >= 1 && ix.At(HeadScript(num, block) + k) && k != []
    modifies ix`run, ix`head, ix.db
    ensures ix.Valid() && (if r.Went? then ix.At(k) else !ix.run.smooth)
  {
    var row := BlockRow(block.previous, |block.txs|, "");
    if num > 1 {
      Assoc([SaveBlock(num, row)], [BackFill(num, block.previous)], k);
      :- StoreBlock(ix, num, row, [BackFill(num, block.previous)] + k);
      r := FillPreviousHash(ix, num, block.previous, k);
    } else {
      Assoc([SaveBlock(num, row)], [], k);
      NothingFirst(k);
      r := StoreBlock(ix, num, row, k);
    }
  }

  /** The transactions and the end of the block. */
  method ScanBody(ix: Indexer, num: nat, ghost leads: Leads, ghost body: TxBody, ghost end: seq<Instr>)
    returns (r: Fate)
    requires ix.Valid() && Proper(ix.p) && ScriptsFit(ix.p, ix.w) && NodeFits(ix.p, ix.w)
    requires UniqueTxids(ix.w) && DistinctAssets(ix.w.assets) && 1 <= num <= |ix.w.chain| && num < UINT32_RANGE
    requires TxBodyFor(body, ix.w.names, num, BlockAt(ix.w, num)) && LeadsFit(leads) && end == [EndBlock(num)]
    requires ix.At(TxsLoop(leads, BlockAt(ix.w, num).txs, 0, body) + end)
    modifies ix`run, ix`head, ix`cursor, ix`cache, ix.db
    ensures ix.Valid() && !r.Failed?
    ensures if r.Went? then ix.At([]) && ix.cursor == old(ix.cursor) + 1 else ix.Doomed()
  {
    r := ScanTxs(ix, num, leads, body, end);
    if r.Went? {
      r := EndOfBlock(ix, num);
    }
  }

  lemma BlockPieces(w: World, num: nat)
    requires 1 <= num <= |w.chain|
    ensures var block := BlockAt(w, num);
            && LeadsFit(LeadsOf()) && TxBodyFor(BodyOfTxs(w.names, num, block), w.names, num, block)
            && BlockScript(w, num)
               == HeadScript(num, block)
                  + (TxsLoop(LeadsOf(), block.txs, 0, BodyOfTxs(w.names, num, block)) + [EndBlock(num)])
  {
  }

  /** One block. Failed: the scan itself ends. */
  method ScanBlock(ix: Indexer, num: nat) returns (r: Fate)
    requires ix.Valid() && Proper(ix.p) && ScriptsFit(ix.p, ix.w) && NodeFits(ix.p, ix.w)
    requires UniqueTxids(ix.w) && DistinctAssets(ix.w.assets) && 1 <= num <= |ix.w.chain| && num < UINT32_RANGE
    requires ix.At(BlockScript(ix.w, num))
    modifies ix`run, ix`head, ix`cursor, ix`cache, ix.db
    ensures ix.Valid() && (if r.Went? then ix.At([]) && ix.cursor == old(ix.cursor) + 1 else ix.Doomed())
  {
    var block := BlockAt(ix.w, num);
    BlockPieces(ix.w, num);
    ghost var body, end := BodyOfTxs(ix.w.names, num, block), [EndBlock(num)];
    :- ScanHead(ix, num, block, TxsLoop(LeadsOf(), block.txs, 0, body) + end);
    r := ScanBody(ix, num, LeadsOf(), body, end);
  }

  // ---- the scan and its restarts ----

  lemma PlanIsPrepared(w: World)
    requires WorldOk(w)
    ensures var p := PlanOf(w); Proper(p) && ScriptsFit(p, w) && NodeFits(p, w) && Tidy(p)
  {
    PlanProper(w);
    PlanTidy(w);
  }

  /** The node has no next block: the checkpoint catches up with the cursor. */
  method MarkScannedBlocks(ix: Indexer) returns (r: Fate)
    requires ix.Valid() && ix.At([]) && 1 <= ix.cursor <= UINT32_RANGE
    modifies ix`run, ix`head, ix.db
    ensures ix.Valid() && !r.Failed?
    ensures if r.Went? then ix.At([]) && ix.db.disk.checkpoint == ix.cursor - 1 else ix.Doomed()
  {
    var db := ix.db;
    :- ix.Must();
    db.UpdateLastScannedBlockNumber(ix.cursor - 1);
    ix.MarkCursor();
    return Went;
  }

  /** One round of ScanBlocksFrom: ask for the block at the cursor and scan it (found); if the
      node has no such block, write the checkpoint. */
  method ScanNext(ix: Indexer) returns (r: Fate, found: bool)
    requires ix.Valid() && ix.At([]) && Proper(ix.p) && ScriptsFit(ix.p, ix.w) && NodeFits(ix.p, ix.w) && WorldOk(ix.w)
    modifies ix`run, ix`head, ix`cursor, ix`cache, ix.db
    ensures ix.Valid() && (if r.Went? then ix.At([]) else ix.Doomed())
    ensures r.Went? && found ==> ix.cursor == old(ix.cursor) + 1
    ensures r.Went? && !found ==> ix.cursor == old(ix.cursor) && ix.db.disk.checkpoint == ix.cursor - 1
    ensures r.Went? && old(ix.cursor) <= old(ix.head) ==> found
  {
    found := false;
    :- ix.Call();
    CursorInRange(ix);
    if ix.cursor <= ix.head {
      ix.BeginBlock();
      found := true;
      r := ScanBlock(ix, ix.cursor);
    } else {
      r := MarkScannedBlocks(ix);
    }
  }

  lemma CursorInRange(ix: Indexer)
    requires ix.Valid() && Proper(ix.p)
    ensures 1 <= ix.cursor <= ix.head + 1 <= |ix.w.chain| + 1
  {
    RunCoherent(ix.p, ix.run);
  }

  /** ScanBlocksFrom, for some number of rounds, of which idle found no block. */
  method ScanBlocksFrom(ix: Indexer, rounds: nat) returns (r: Fate, idle: nat)
    requires ix.Valid() && ix.At([]) && Proper(ix.p) && ScriptsFit(ix.p, ix.w) && NodeFits(ix.p, ix.w) && WorldOk(ix.w)
    modifies ix`run, ix`head, ix`cursor, ix`cache, ix.db
    ensures ix.Valid() && (if r.Went? then ix.At([]) && ix.cursor == old(ix.cursor) + rounds - idle else ix.Doomed())
  {
    idle := 0;
    for i := 0 to rounds
      invariant ix.Valid() && ix.At([]) && ix.cursor == old(ix.cursor) + i - idle
    {
      var found :- ScanNext(ix);
      if !found {
        idle := idle + 1;
      }
    }
    r := Went;
  }

  /** A start of the process: the scan resumes one block after the checkpoint. */
  method Start(ix: Indexer) returns (r: Fate)
    requires ix.Valid()
    modifies ix`run, ix`head, ix`cursor, ix`cache
    ensures ix.Valid() && !r.Failed?
    ensures if r.Went? then ix.At([]) && ix.cursor == old(ix.db.disk.checkpoint) + 1 && ix.run.smooth else ix.Doomed()
  {
    var db := ix.db;
    :- ix.Must();
    var last := db.GetLastScannedBlockNumber();
    ix.Restarted();
    ix.cursor, ix.cache := last.value + 1, map[];
    return Went;
  }

  /** The life of the deployment: the process is started again and again, each time scans for
      a while, and ends by dying, by an error that ends the scan, or by being stopped. */
  method Operate(ix: Indexer, sessions: seq<nat>)
    requires ix.Valid() && ix.p == PlanOf(ix.w) && WorldOk(ix.w)
    modifies ix`run, ix`head, ix`cursor, ix`cache, ix.db
    ensures ix.Valid()
  {
    PlanIsPrepared(ix.w);
    for i := 0 to |sessions|
      invariant ix.Valid()
    {
      var started := Start(ix);
      if started.Went? {
        var ended, idle := ScanBlocksFrom(ix, sessions[i]);
      }
    }
  }
}
