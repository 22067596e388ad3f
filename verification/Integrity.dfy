/** Referential integrity, in every run and also across errors that are only logged: the
    database declares no foreign key, and no transaction spans two writes. */
module Integrity {
  import opened Wrappers
  import opened Numerals
  import opened Json
  import opened Chain
  import opened Tables
  import opened Script
  import opened Plans
  import opened BlockFacts
  import opened Collect
  import opened Machine
  import opened Invariant
  import opened Readings

  /** The tbl_* row of an operations row: same transaction, same index, the table of its type. */
  predicate Matches(key: OpKey, id: string, op: OpRow) {
    key.table == TableName(op.typeName) && key.txid == op.txid && id == OperationId(op.blockNum, op.txid, key.index)
  }

  predicate Backed(d: Tables, id: string, op: OpRow) {
    exists key :: key in d.rows && Matches(key, id, op)
  }

  /** Every operations row has its tbl_* row, every tbl_* row and receipt its transaction row,
      and every transaction row its block row. */
  predicate Linked(d: Tables) {
    && (forall id :: id in d.ops ==> Backed(d, id, d.ops[id]))
    && (forall key :: key in d.rows ==> key.txid in d.txs)
    && (forall k :: k in d.receipts ==> k.txid in d.txs)
    && (forall txid :: txid in d.txs ==> d.txs[txid].blockNum in d.blocks)
  }

  // ---- what a script guarantees ----

  /** The transaction row an instruction relies on. */
  function Needs(i: Instr): Option<string> {
    match i
    case InsertOp(key, _) => Some(key.txid)
    case SaveReceipt(r) => Some(r.txid)
    case _ => None
  }

  function Known(known: set<string>, i: Instr): set<string> {
    if i.SaveTx? then known + {i.txid} else known
  }

  /** Every transaction relied on is known already or saved earlier in s. */
  predicate Owned(known: set<string>, s: seq<Instr>)
    decreases s
  {
    s == [] || ((Needs(s[0]).Some? ==> Needs(s[0]).value in known) && Owned(Known(known, s[0]), s[1..]))
  }

  /** A base row is saved right after its tbl_* row. */
  predicate Paired(s: seq<Instr>) {
    forall j :: 0 < j < |s| && s[j].SaveOp? ==> s[j - 1].InsertOp? && Matches(s[j - 1].key, s[j].id, s[j].op)
  }

  predicate TidyBlock(s: seq<Instr>) {
    Owned({}, s) && Paired(s) && (s != [] ==> !s[0].SaveOp?)
  }

  predicate Tidy(p: Plan) {
    forall n {:trigger TidyBlock(p.Script(n))} :: 1 <= n <= p.Length() ==> TidyBlock(p.Script(n))
  }

  lemma {:induction false} OwnedMore(known: set<string>, more: set<string>, s: seq<Instr>)
    requires Owned(known, s) && known <= more
    ensures Owned(more, s)
    decreases s
  {
    if s != [] {
      OwnedMore(Known(known, s[0]), Known(more, s[0]), s[1..]);
    }
  }

  lemma {:induction false} OwnedConcat(known: set<string>, a: seq<Instr>, b: seq<Instr>)
    requires Owned(known, a) && Owned(known, b)
    ensures Owned(known, a + b)
    decreases a
  {
    if a == [] {
      assert a + b == b;
    } else {
      OwnedMore(known, Known(known, a[0]), b);
      OwnedConcat(Known(known, a[0]), a[1..], b);
      assert (a + b)[1..] == a[1..] + b;
    }
  }

  lemma {:induction false} OwnedDrop(known: set<string>, s: seq<Instr>, count: nat)
    requires Owned(known, s) && count <= |s|
    requires forall i :: 0 <= i < count ==> !s[i].SaveTx?
    ensures Owned(known, s[count..])
  {
    if count > 0 {
      OwnedDrop(known, s[1..], count - 1);
      assert s[1..][count - 1..] == s[count..];
    }
  }

  lemma {:induction false} NeedlessOwned(known: set<string>, s: seq<Instr>)
    requires forall i :: 0 <= i < |s| ==> Needs(s[i]).None?
    ensures Owned(known, s)
    decreases s
  {
    if s != [] {
      NeedlessOwned(Known(known, s[0]), s[1..]);
    }
  }

  /** Two sequences of whole operations stay paired side by side. */
  lemma PairedConcat(a: seq<Instr>, b: seq<Instr>)
    requires Paired(a) && Paired(b) && (b != [] ==> !b[0].SaveOp?)
    ensures Paired(a + b)
    ensures a != [] && !a[0].SaveOp? ==> !(a + b)[0].SaveOp?
  {
    var s := a + b;
    forall j | 0 < j < |s| && s[j].SaveOp? ensures s[j - 1].InsertOp? && Matches(s[j - 1].key, s[j].id, s[j].op) {
      if j > |a| {
        assert s[j] == b[j - |a|] && s[j - 1] == b[j - |a| - 1];
      }
    }
  }

  /** s relies on transaction txid only, and stores whole operations. */
  predicate TidyFor(txid: string, s: seq<Instr>) {
    Owned({txid}, s) && Paired(s) && (s != [] ==> !s[0].SaveOp?)
  }

  lemma TidyConcat(txid: string, a: seq<Instr>, b: seq<Instr>)
    requires TidyFor(txid, a) && TidyFor(txid, b)
    ensures TidyFor(txid, a + b)
  {
    OwnedConcat({txid}, a, b);
    PairedConcat(a, b);
    assert a == [] ==> a + b == b;
  }

  lemma OpTidy(num: nat, block: Block, t: nat, tx: Tx, o: nat, form: OpForm)
    ensures TidyFor(tx.txid, OpScript(num, block, t, tx, o, form))
  {
    if form.Good? {
      var f := Augment(num, tx.txid, o, form.fields);
      var plugins := PluginsScript(num, block, tx.txid, o, form.opName, f, ReceiptFor(tx, o));
      PluginsOnly(num, block, tx.txid, o, form.opName, f, ReceiptFor(tx, o));
      NeedlessOwned({tx.txid}, plugins);
      var key, table := OpKey(TableName(form.opName), tx.txid, o), TableName(form.opName);
      var base := SaveOp(OperationId(num, tx.txid, o), BaseRow(num, t, tx.txid, form.opType, form.opName, f));
      HeadTidy(tx.txid, MakeTable(table, f.Keys), InsertOp(key, f), base, plugins);
    } else {
      NeedlessOwned({tx.txid}, OpScript(num, block, t, tx, o, form));
    }
  }

  lemma HeadTidy(txid: string, make: Instr, insert: Instr, save: Instr, plugins: seq<Instr>)
    requires make.MakeTable? && insert.InsertOp? && insert.key.txid == txid
    requires save.SaveOp? && Matches(insert.key, save.id, save.op)
    requires OnlyPlugins(plugins) && Owned({txid}, plugins)
    ensures TidyFor(txid, [make, insert, save] + plugins)
  {
    var head := [make, insert, save];
    assert head[1..] == [insert, save] && head[1..][1..] == [save] && [save][1..] == [];
    assert Owned({txid}, [save]) && Owned({txid}, [insert, save]);
    assert TidyFor(txid, head);
    TidyConcat(txid, head, plugins);
  }

  ghost predicate TidyOpBody(txid: string, body: OpBody) {
    forall o: nat, form: OpForm :: TidyFor(txid, body(o, form))
  }

  lemma {:induction false} OpsLoopTidy(txid: string, read: Reader, ops: seq<seq<Json>>, o: nat, body: OpBody)
    requires o <= |ops| && TidyOpBody(txid, body)
    ensures TidyFor(txid, OpsLoop(read, ops, o, body))
    decreases |ops| - o
  {
    if o < |ops| {
      assert TidyFor(txid, body(o, read(ops[o])));
      if read(ops[o]).Good? {
        OpsLoopTidy(txid, read, ops, o + 1, body);
        TidyConcat(txid, body(o, read(ops[o])), OpsLoop(read, ops, o + 1, body));
      } else {
        assert body(o, read(ops[o])) + [] == body(o, read(ops[o]));
      }
    }
  }

  lemma {:induction false} ReceiptsTidy(txid: string, receipts: seq<Receipt>)
    requires forall i :: 0 <= i < |receipts| ==> receipts[i].txid == txid
    ensures TidyFor(txid, ReceiptsScript(receipts))
  {
    if receipts != [] {
      ReceiptsTidy(txid, receipts[1..]);
      assert [SaveReceipt(receipts[0])][1..] == [];
      TidyConcat(txid, [SaveReceipt(receipts[0])], ReceiptsScript(receipts[1..]));
    }
  }

  /** The stated assumption on the node: a receipt carries the id of its transaction. */
  predicate OwnReceipts(tx: Tx) {
    forall i :: 0 <= i < |tx.receipts| ==> tx.receipts[i].txid == tx.txid
  }

  predicate ReceiptsCarryTxid(w: World) {
    forall n, t :: 1 <= n <= |w.chain| && 0 <= t < |BlockAt(w, n).txs| ==> OwnReceipts(BlockAt(w, n).txs[t])
  }

  lemma TxTidy(names: seq<string>, num: nat, block: Block, t: nat, tx: Tx, firstType: int)
    requires OwnReceipts(tx)
    ensures TidyBlock(TxScript(names, num, block, t, tx, firstType))
  {
    var body := BodyOfOps(num, block, t, tx);
    forall o: nat, form: OpForm ensures TidyFor(tx.txid, OpScript(num, block, t, tx, o, form)) {
      OpTidy(num, block, t, tx, o, form);
    }
    OpsLoopTidy(tx.txid, ReaderOf(names), tx.ops, 0, body);
    ReceiptsTidy(tx.txid, FetchedReceipts(tx));
    TidyConcat(tx.txid, OpsLoop(ReaderOf(names), tx.ops, 0, body), ReceiptsScript(FetchedReceipts(tx)));
    OwnerFirst(SaveTx(tx.txid, TxRow(num, |tx.ops|, t, firstType)),
               OpsLoop(ReaderOf(names), tx.ops, 0, body) + ReceiptsScript(FetchedReceipts(tx)));
  }

  lemma OwnerFirst(save: Instr, rest: seq<Instr>)
    requires save.SaveTx? && TidyFor(save.txid, rest)
    ensures TidyBlock([save] + rest)
  {
    assert ([save] + rest)[1..] == rest;
    assert Known({}, save) == {save.txid};
    PairedConcat([save], rest);
  }

  lemma TidyBlocksConcat(a: seq<Instr>, b: seq<Instr>)
    requires TidyBlock(a) && TidyBlock(b)
    ensures TidyBlock(a + b)
  {
    OwnedConcat({}, a, b);
    PairedConcat(a, b);
    assert a == [] ==> a + b == b;
  }

  lemma {:induction false} TxsLoopTidy(leads: Leads, txs: seq<Tx>, t: nat, body: TxBody)
    requires t <= |txs|
    requires forall i: nat, ft: int :: i < |txs| ==> TidyBlock(body(i, txs[i], ft))
    ensures TidyBlock(TxsLoop(leads, txs, t, body))
    decreases |txs| - t
  {
    if t < |txs| {
      var lead := leads(txs[t]);
      if lead.LeadOk? {
        TxsLoopTidy(leads, txs, t + 1, body);
        TidyBlocksConcat(body(t, txs[t], lead.firstType), TxsLoop(leads, txs, t + 1, body));
      } else if lead.LeadPanics? {
        NeedlessOwned({}, [Halt(Always)]);
      }
    }
  }

  lemma BlockTidy(w: World, num: nat)
    requires ReceiptsCarryTxid(w) && 1 <= num <= |w.chain|
    ensures TidyBlock(BlockScript(w, num))
  {
    var block := BlockAt(w, num);
    var body, head := BodyOfTxs(w.names, num, block), HeadScript(num, block);
    forall i: nat, ft: int | i < |block.txs| ensures TidyBlock(body(i, block.txs[i], ft)) {
      TxTidy(w.names, num, block, i, block.txs[i], ft);
    }
    TxsLoopTidy(LeadsOf(), block.txs, 0, body);
    NeedlessOwned({}, head);
    NeedlessOwned({}, [EndBlock(num)]);
    TidyBlocksConcat(TxsScript(w.names, num, block), [EndBlock(num)]);
    TidyBlocksConcat(head, TxsScript(w.names, num, block) + [EndBlock(num)]);
  }

  lemma PlanTidy(w: World)
    requires ReceiptsCarryTxid(w)
    ensures Tidy(PlanOf(w))
  {
    forall n | 1 <= n <= |w.chain| ensures TidyBlock(PlanOf(w).Script(n)) {
      BlockTidy(w, n);
    }
  }

  // ---- the invariant ----

  /** What is still to be executed finds the rows it relies on. */
  predicate Anchored(s: State) {
    s.todo != [] ==>
      && Owned(s.disk.tables.txs.Keys, s.todo) && Paired(s.todo)
      && (s.todo[0].SaveOp? ==> Backed(s.disk.tables, s.todo[0].id, s.todo[0].op))
      && (!s.todo[0].SaveBlock? ==> s.cursor in s.disk.tables.blocks)
  }

  /** No row of the four tables disappears, and the links of old rows stay. */
  predicate Keeps(d: Tables, e: Tables) {
    && d.blocks.Keys <= e.blocks.Keys && d.txs.Keys <= e.txs.Keys && d.rows.Keys <= e.rows.Keys
  }

  lemma EffectKeeps(d: Tables, i: Instr)
    ensures Keeps(d, Effect(d, i))
    ensures i.SaveTx? ==> i.txid in Effect(d, i).txs
    ensures i.SaveBlock? ==> i.num in Effect(d, i).blocks
  {
  }

  lemma ExecuteKeeps(p: Plan, s: State, i: Instr, answered: bool)
    ensures var o := Execute(p, s, i, answered);
            && Keeps(s.disk.tables, o.disk.tables)
            && (o.done && i.SaveTx? ==> i.txid in o.disk.tables.txs)
            && (o.done && i.SaveBlock? ==> i.num in o.disk.tables.blocks)
            && (o.done && i.InsertOp? ==> i.key in o.disk.tables.rows)
  {
    if i.InsertOp? {
      InsertTables(p, s, i, answered);
    } else {
      EffectTables(p, s, i, answered);
      EffectKeeps(s.disk.tables, i);
    }
  }

  /** Saving a base row keeps the links if its tbl_* row is there. */
  lemma SaveOpLinked(d: Tables, id: string, op: OpRow)
    requires Linked(d) && Backed(d, id, op)
    ensures Linked(Effect(d, SaveOp(id, op)))
  {
    var e := Effect(d, SaveOp(id, op));
    assert e == d.(ops := PutIfAbsent(d.ops, id, op));
    forall x | x in e.ops ensures Backed(e, x, e.ops[x]) {
      BackedStays(d, e, x, e.ops[x]);
    }
  }

  lemma BackedStays(d: Tables, e: Tables, id: string, op: OpRow)
    requires d.rows.Keys <= e.rows.Keys
    ensures Backed(d, id, op) ==> Backed(e, id, op)
  {
    if Backed(d, id, op) {
      var key :| key in d.rows && Matches(key, id, op);
      assert key in e.rows;
    }
  }

  lemma InsertLinked(d: Tables, e: Tables, key: OpKey)
    requires Linked(d) && key.txid in d.txs
    requires e == d.(rows := e.rows) && d.rows.Keys <= e.rows.Keys <= d.rows.Keys + {key}
    ensures Linked(e)
  {
    forall x | x in e.ops ensures Backed(e, x, e.ops[x]) {
      BackedStays(d, e, x, e.ops[x]);
    }
  }

  lemma SaveTxLinked(d: Tables, txid: string, row: TxRow)
    requires Linked(d) && row.blockNum in d.blocks
    ensures Linked(Effect(d, SaveTx(txid, row)))
  {
    var e := Effect(d, SaveTx(txid, row));
    assert e == d.(txs := PutIfAbsent(d.txs, txid, row));
    forall x | x in e.ops ensures Backed(e, x, e.ops[x]) {
      BackedStays(d, e, x, e.ops[x]);
    }
  }

  lemma OtherLinked(d: Tables, i: Instr)
    requires Linked(d) && !i.SaveOp? && !i.InsertOp? && !i.SaveTx?
    requires i.SaveReceipt? ==> i.receipt.txid in d.txs
    ensures Linked(Effect(d, i))
  {
    var e := Effect(d, i);
    forall x | x in e.ops ensures Backed(e, x, e.ops[x]) {
      BackedStays(d, e, x, e.ops[x]);
    }
  }

  /** The instruction finds what it relies on. */
  predicate Supported(d: Tables, cursor: nat, i: Instr) {
    && (Needs(i).Some? ==> Needs(i).value in d.txs)
    && (i.SaveOp? ==> Backed(d, i.id, i.op))
    && (i.SaveTx? ==> i.tx.blockNum in d.blocks)
  }

  lemma ExecuteLinked(p: Plan, s: State, i: Instr, answered: bool)
    requires Linked(s.disk.tables) && Supported(s.disk.tables, s.cursor, i)
    ensures Linked(Execute(p, s, i, answered).disk.tables)
  {
    var d, e := s.disk.tables, Execute(p, s, i, answered).disk.tables;
    match i
    case SaveOp(id, op) => SaveOpLinked(d, id, op);
    case SaveTx(txid, row) => SaveTxLinked(d, txid, row);
    case InsertOp(key, _) =>
      InsertTables(p, s, i, answered);
      InsertLinked(d, e, key);
    case _ =>
      EffectTables(p, s, i, answered);
      OtherLinked(d, i);
  }

  lemma HeadSupported(p: Plan, s: State)
    requires Proper(p) && Shape(p, s) && Anchored(s) && s.todo != []
    ensures Supported(s.disk.tables, s.cursor, s.todo[0])
    ensures s.todo[0].SaveBlock? ==> s.todo[0].num == s.cursor
    ensures |s.todo| > 1 ==> !s.todo[1].SaveBlock?
  {
    AtPosition(p, s);
    var b := p.Script(s.cursor);
    assert ProperBlock(s.cursor, b);
    if |s.todo| > 2 {
      assert s.todo[1] == b[Index(p, s) + 1];
      assert Fits(s.cursor, Index(p, s) + 1, b[Index(p, s) + 1]);
    }
  }

  lemma TickAnchored(p: Plan, s: State, answered: bool)
    requires Proper(p) && Shape(p, s) && Anchored(s) && Linked(s.disk.tables) && s.todo != []
    ensures var t := RunInstr(p, s, answered); Anchored(t) && Linked(t.disk.tables)
  {
    var o, i := Execute(p, s, s.todo[0], answered), s.todo[0];
    HeadSupported(p, s);
    ExecuteLinked(p, s, i, answered);
    ExecuteKeeps(p, s, i, answered);
    var t := RunInstr(p, s, answered);
    if o.done && |s.todo| > 1 {
      OwnedMore(Known(s.disk.tables.txs.Keys, i), t.disk.tables.txs.Keys, t.todo);
      PopPaired(s, t);
    } else if !o.done {
      OwnedMore(s.disk.tables.txs.Keys, t.disk.tables.txs.Keys, t.todo);
      if i.SaveOp? {
        BackedStays(s.disk.tables, t.disk.tables, i.id, i.op);
      }
    }
  }

  lemma PopPaired(s: State, t: State)
    requires |s.todo| > 1 && Paired(s.todo) && t.todo == s.todo[1..]
    requires s.todo[0].InsertOp? ==> s.todo[0].key in t.disk.tables.rows
    ensures Paired(t.todo)
    ensures t.todo[0].SaveOp? ==> Backed(t.disk.tables, t.todo[0].id, t.todo[0].op)
  {
    assert forall j :: 0 <= j < |t.todo| ==> t.todo[j] == s.todo[j + 1];
    assert t.todo[0] == s.todo[1];
  }

  lemma DropAnchored(p: Plan, s: State, count: nat)
    requires Proper(p) && Shape(p, s) && Anchored(s)
    ensures Anchored(Drop(p, s, count))
  {
    var t := Drop(p, s, count);
    if t != s {
      var next := s.todo[count];
      assert forall j :: 0 <= j < |t.todo| ==> t.todo[j] == s.todo[j + count];
      assert !s.todo[0].SaveBlock? by { assert !s.todo[..count][0].SaveBlock?; }
      assert Paired(t.todo);
      if next.EndBlock? {
        EndIsLast(p, s, count);
        NeedlessOwned(t.disk.tables.txs.Keys, t.todo);
      } else {
        forall i | 0 <= i < count ensures !s.todo[i].SaveTx? {
          assert s.todo[..count][i] == s.todo[i];
        }
        OwnedDrop(s.disk.tables.txs.Keys, s.todo, count);
      }
    }
  }

  lemma EndIsLast(p: Plan, s: State, count: nat)
    requires Proper(p) && Shape(p, s) && count < |s.todo| && s.todo[count].EndBlock?
    ensures count == |s.todo| - 1
  {
    var b := p.Script(s.cursor);
    assert ProperBlock(s.cursor, b);
    var k := |b| - |s.todo| + count;
    assert s.todo[count] == b[k];
  }

  lemma PollAnchored(p: Plan, s: State)
    requires Proper(p) && Tidy(p) && Shape(p, s) && s.todo == []
    ensures Anchored(Fetch(p, s))
  {
    var t := Fetch(p, s);
    if t.todo != [] {
      assert TidyBlock(p.Script(s.cursor)) && ProperBlock(s.cursor, p.Script(s.cursor));
      OwnedMore({}, t.disk.tables.txs.Keys, t.todo);
    }
  }

  lemma IntegrityStep(p: Plan, s: State, a: Act)
    requires Proper(p) && Tidy(p) && Shape(p, s) && Anchored(s) && Linked(s.disk.tables)
    ensures Anchored(Step(p, s, a)) && Linked(Step(p, s, a).disk.tables)
  {
    match a
    case Tick(answered) =>
      if s.todo != [] {
        TickAnchored(p, s, answered);
      }
    case Skip(count) => DropAnchored(p, s, count);
    case Poll =>
      if s.todo == [] {
        PollAnchored(p, s);
      }
    case _ =>
  }

  /** Referential integrity at every step of every run, with crashes at any write boundary and
      with errors that are only logged. */
  lemma {:induction false} ReferentialIntegrity(p: Plan, acts: seq<Act>)
    requires Proper(p) && Tidy(p)
    ensures Linked(After(p, acts).disk.tables)
    ensures Anchored(After(p, acts))
  {
    if acts != [] {
      var before := acts[..|acts| - 1];
      ReferentialIntegrity(p, before);
      ShapeAlways(p, before);
      IntegrityStep(p, After(p, before), acts[|acts| - 1]);
    }
  }
}
