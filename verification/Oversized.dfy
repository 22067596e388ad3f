/** A chain on which a token balance is missed, and one on which the scan stops instead. Block 1
    registers the token contract T, block 2 invokes it; the invocation's first event is a Transfer
    of 10^18, whose history row does not fit. If another event follows, the error is forgotten and
    the balances are never asked for; if none does, the error is fatal. */
module Oversized {
  import opened Wrappers
  import opened Numerals
  import opened Json
  import opened Chain
  import opened Tables
  import opened Script
  import opened Plans
  import opened BlockFacts
  import opened Collect
  import opened Machine
  import opened Replay
  import opened Readings
  import opened Integrity
  import opened Confluence
  import opened Convergence
  import opened Progress
  import opened Misses
  import opened EventLog
  import opened ChainMisses

  // ---- the chain ----

  const REGISTER_NAME := "contract_register_operation"
  const INVOKE_NAME := "contract_invoke_operation"

  /** The operation-name table, as far as this chain uses it. */
  predicate NamesKnown(names: seq<string>) {
    |names| > 79 && names[76] == REGISTER_NAME && names[79] == INVOKE_NAME
  }

  const ABI := ["transfer", "transferFrom", "approve"]
  const OFFLINE_ABI := ["balanceOf", "totalSupply", "precision", "approvedBalanceFrom"]

  function Texts(items: seq<string>): seq<Json> {
    seq(|items|, i requires 0 <= i < |items| => JString(items[i]))
  }

  const CODE: Fields := map["abi" := JArray(Texts(ABI)), "offline_abi" := JArray(Texts(OFFLINE_ABI))]

  const REGISTER_FIELDS: Fields :=
    map["contract_code" := JObject(CODE), "contract_id" := JString("T"), "owner_pubkey" := JString("k"),
        "owner_addr" := JString("a"), "register_time" := JString("0"), "inherit_from" := JString(""),
        "gas_price" := JNumber(Itoa(1)), "init_cost" := JNumber(Itoa(1))]

  /** A transfer of 10^18 units from a to b, and an event that the plugin passes over. */
  const BIG_TRANSFER := Event("T", "Transfer", 0, "a", "", Some(TransferArg("a", "b", AMOUNTS)))
  const APPROVED := Event("T", "Approved", 0, "a", "", None)

  const REGISTERED := Receipt("t", 0, true, [], [])

  function Invoked(events: seq<Event>): Receipt {
    Receipt("x", 0, true, events, [])
  }

  function OpOf(opType: nat, fields: Fields): seq<Json> {
    [JNumber(Itoa(opType)), JObject(fields)]
  }

  function TwoBlocks(names: seq<string>, events: seq<Event>): World {
    World(names,
          [Block("", true, [Tx("t", [OpOf(76, REGISTER_FIELDS)], [REGISTERED])]),
           Block("h", true, [Tx("x", [OpOf(79, map[])], [Invoked(events)])])],
          [], (n: nat, c: Cell) => 0)
  }

  // ---- the script of a block with one contract operation ----

  /** The transaction's row, the operation, what the plugins do, and the receipt. */
  function OneOpTx(num: nat, tx: Tx, opType: nat, opName: string, fields: Fields, plugins: seq<Instr>): seq<Instr>
    requires |tx.receipts| == 1
  {
    var f, table := Augment(num, tx.txid, 0, fields), TableName(opName);
    [SaveTx(tx.txid, TxRow(num, 1, 0, opType)),
     MakeTable(table, f.Keys),
     InsertOp(OpKey(table, tx.txid, 0), f),
     SaveOp(OperationId(num, tx.txid, 0), BaseRow(num, 0, tx.txid, opType, opName, f))]
    + (plugins + [SaveReceipt(tx.receipts[0])])
  }

  lemma OneOpRead(names: seq<string>, opType: nat, opName: string, fields: Fields)
    requires 76 <= opType <= 81 && opType < |names| && names[opType] == opName && PlainName(opName)
    ensures Atoi(Itoa(opType)) == Some(opType)
    ensures ReadOp(names, OpOf(opType, fields)) == Good(opType, opName, fields)
    ensures NamesContract(OpOf(opType, fields))
  {
    AtoiItoa(opType);
  }

  lemma OneOpTxScript(names: seq<string>, num: nat, block: Block, tx: Tx, opType: nat, opName: string, fields: Fields)
    requires 76 <= opType <= 81 && opType < |names| && names[opType] == opName && PlainName(opName)
    requires tx.ops == [OpOf(opType, fields)] && |tx.receipts| == 1
    ensures Leading(tx) == LeadOk(opType)
    ensures var f := Augment(num, tx.txid, 0, fields);
            TxScript(names, num, block, 0, tx, opType)
            == OneOpTx(num, tx, opType, opName, fields,
                       PluginsScript(num, block, tx.txid, 0, opName, f, Some(tx.receipts[0])))
  {
    OneOpRead(names, opType, opName, fields);
    OneOpFetched(tx, OpOf(opType, fields));
    OneReceipt(tx.receipts);
    OneOpLoop(ReaderOf(names), tx.ops, BodyOfOps(num, block, 0, tx));
    var f, table := Augment(num, tx.txid, 0, fields), TableName(opName);
    Regroup(SaveTx(tx.txid, TxRow(num, 1, 0, opType)), MakeTable(table, f.Keys), InsertOp(OpKey(table, tx.txid, 0), f),
            SaveOp(OperationId(num, tx.txid, 0), BaseRow(num, 0, tx.txid, opType, opName, f)),
            PluginsScript(num, block, tx.txid, 0, opName, f, Some(tx.receipts[0])), [SaveReceipt(tx.receipts[0])]);
  }

  lemma OneOpFetched(tx: Tx, op: seq<Json>)
    requires tx.ops == [op] && NamesContract(op)
    ensures FetchedReceipts(tx) == tx.receipts
  {
    assert NamesContract(tx.ops[0]);
  }

  lemma OneReceipt(receipts: seq<Receipt>)
    requires |receipts| == 1
    ensures ReceiptsScript(receipts) == [SaveReceipt(receipts[0])]
  {
    assert receipts[1..] == [] && ReceiptsScript([]) == [];
  }

  lemma OneOpLoop(read: Reader, ops: seq<seq<Json>>, body: OpBody)
    requires |ops| == 1
    ensures OpsLoop(read, ops, 0, body) == body(0, read(ops[0]))
  {
    assert OpsLoop(read, ops, 1, body) == [];
  }

  lemma Regroup(row: Instr, make: Instr, insert: Instr, save: Instr, plugins: seq<Instr>, receipts: seq<Instr>)
    ensures [row] + (([make, insert, save] + plugins) + receipts) == [row, make, insert, save] + (plugins + receipts)
  {
  }

  lemma OneTxBlock(w: World, num: nat, opType: nat, opName: string, fields: Fields)
    requires 1 <= num <= |w.chain| && |BlockAt(w, num).txs| == 1
    requires 76 <= opType <= 81 && opType < |w.names| && w.names[opType] == opName && PlainName(opName)
    requires var tx := BlockAt(w, num).txs[0]; tx.ops == [OpOf(opType, fields)] && |tx.receipts| == 1
    ensures var block, tx := BlockAt(w, num), BlockAt(w, num).txs[0];
            var f := Augment(num, tx.txid, 0, fields);
            var plugins := PluginsScript(num, block, tx.txid, 0, opName, f, Some(tx.receipts[0]));
            BlockScript(w, num)
            == HeadScript(num, block) + (OneOpTx(num, tx, opType, opName, fields, plugins) + [EndBlock(num)])
  {
    var block, tx := BlockAt(w, num), BlockAt(w, num).txs[0];
    OneOpTxScript(w.names, num, block, tx, opType, opName, fields);
    OneTxLoop(LeadsOf(), block.txs, BodyOfTxs(w.names, num, block));
  }

  lemma OneTxLoop(leads: Leads, txs: seq<Tx>, body: TxBody)
    requires |txs| == 1 && leads(txs[0]).LeadOk?
    ensures TxsLoop(leads, txs, 0, body) == body(0, txs[0], leads(txs[0]).firstType)
  {
    assert TxsLoop(leads, txs, 1, body) == [];
  }

  // ---- what the plugins do ----

  /** None of the properties the scanner adds. */
  predicate Unmarked(fields: Fields) {
    && "block_num" !in fields && "trxid" !in fields && "index_in_tx" !in fields
    && "memo" !in fields && "guarantee_id" !in fields
  }

  lemma AugmentKeeps(num: nat, txid: string, fields: Fields)
    requires Unmarked(fields)
    ensures var f := Augment(num, txid, 0, fields);
            && (forall k :: k in fields ==> k in f && f[k] == fields[k])
            && f.Keys == fields.Keys + {"block_num", "trxid", "index_in_tx", "memo", "guarantee_id"}
  {
  }

  predicate Untouching(f: Fields) {
    "addr" !in f && "caller_addr" !in f && "lock_balance_addr" !in f && "foreclose_addr" !in f
  }

  lemma AugmentUntouching(num: nat, txid: string, fields: Fields)
    requires Unmarked(fields) && Untouching(fields)
    ensures Untouching(Augment(num, txid, 0, fields))
  {
    AugmentKeeps(num, txid, fields);
  }

  lemma RegisterFieldsPlain()
    ensures Unmarked(REGISTER_FIELDS) && Untouching(REGISTER_FIELDS)
  {
  }

  lemma NoAssetTouched(f: Fields)
    requires Untouching(f)
    ensures AssetScript(f) == []
  {
    NoneFirst(TRY_ADDR_PROPS, f);
  }

  lemma {:induction false} NoneFirst(props: seq<string>, f: Fields)
    requires forall i :: 0 <= i < |props| ==> props[i] !in f
    ensures FirstString(props, f) == None
  {
    if props != [] {
      NoneFirst(props[1..], f);
    }
  }

  lemma {:induction false} TextsRead(items: seq<string>)
    ensures Strings(Texts(items)) == Some(items)
  {
    if items != [] {
      TextsRead(items[1..]);
      assert Texts(items)[1..] == Texts(items[1..]);
      assert [items[0]] + items[1..] == items;
    }
  }

  const TOKEN_ROW := TokenRow(1, "t", "k", "a", "", 1, 1)

  lemma RegistrationRead(f: Fields)
    requires forall k :: k in REGISTER_FIELDS ==> k in f && f[k] == REGISTER_FIELDS[k]
    ensures DecodeRegistration(f) == Some(Registration("T", ABI, OFFLINE_ABI, "k", "a", "", 1, 1))
  {
    TextsRead(ABI);
    TextsRead(OFFLINE_ABI);
    CodeRead(f);
    OwnerRead(f);
    GasRead(f);
  }

  lemma CodeRead(f: Fields)
    requires forall k :: k in REGISTER_FIELDS ==> k in f && f[k] == REGISTER_FIELDS[k]
    ensures "contract_code" in f && f["contract_code"] == JObject(CODE) && GetString(f, "contract_id") == Some("T")
    ensures "abi" in CODE && CODE["abi"] == JArray(Texts(ABI))
    ensures "offline_abi" in CODE && CODE["offline_abi"] == JArray(Texts(OFFLINE_ABI))
  {
    assert "contract_code" in REGISTER_FIELDS && "contract_id" in REGISTER_FIELDS;
  }

  lemma OwnerRead(f: Fields)
    requires forall k :: k in REGISTER_FIELDS ==> k in f && f[k] == REGISTER_FIELDS[k]
    ensures GetString(f, "owner_pubkey") == Some("k") && GetString(f, "owner_addr") == Some("a")
    ensures GetString(f, "register_time") == Some("0") && GetString(f, "inherit_from") == Some("")
  {
    assert "owner_pubkey" in REGISTER_FIELDS && "owner_addr" in REGISTER_FIELDS;
    assert "register_time" in REGISTER_FIELDS && "inherit_from" in REGISTER_FIELDS;
  }

  lemma GasRead(f: Fields)
    requires forall k :: k in REGISTER_FIELDS ==> k in f && f[k] == REGISTER_FIELDS[k]
    ensures GetInt(f, "gas_price") == Some(1) && GetInt(f, "init_cost") == Some(1)
  {
    AtoiItoa(1);
    assert "gas_price" in REGISTER_FIELDS && "init_cost" in REGISTER_FIELDS;
  }

  lemma RegisterPlugins(block: Block)
    requires block.timestampParses
    ensures var f := Augment(1, "t", 0, REGISTER_FIELDS);
            PluginsScript(1, block, "t", 0, REGISTER_NAME, f, Some(REGISTERED)) == [SaveToken("T", TOKEN_ROW)]
  {
    var f := Augment(1, "t", 0, REGISTER_FIELDS);
    RegisterFieldsPlain();
    AugmentKeeps(1, "t", REGISTER_FIELDS);
    AugmentUntouching(1, "t", REGISTER_FIELDS);
    NoAssetTouched(f);
    RegistrationDecodes(f);
    QuietReceipt(block);
    OnlyRegister(1, block, "t", f, Some(REGISTERED));
  }

  /** Of the first three plugins none has anything to do. */
  lemma OnlyRegister(num: nat, block: Block, txid: string, f: Fields, receipt: Option<Receipt>)
    requires AssetScript(f) == [] && InvokeScript(num, block, txid, 0, receipt) == []
    ensures PluginsScript(num, block, txid, 0, REGISTER_NAME, f, receipt)
            == RegisterScript(num, txid, REGISTER_NAME, f, receipt)
  {
    assert TransferScript(REGISTER_NAME, f) == [] && AccountScript(REGISTER_NAME, f) == [];
  }

  lemma RegistrationDecodes(f: Fields)
    requires forall k :: k in REGISTER_FIELDS ==> k in f && f[k] == REGISTER_FIELDS[k]
    ensures RegisterScript(1, "t", REGISTER_NAME, f, Some(REGISTERED)) == [SaveToken("T", TOKEN_ROW)]
  {
    RegistrationRead(f);
  }

  lemma QuietReceipt(block: Block)
    requires block.timestampParses
    ensures InvokeScript(1, block, "t", 0, Some(REGISTERED)) == []
  {
  }

  lemma InvokePlugins(block: Block, events: seq<Event>)
    requires block.timestampParses
    ensures var f, r := Augment(2, "x", 0, map[]), Invoked(events);
            PluginsScript(2, block, "x", 0, INVOKE_NAME, f, Some(r))
            == EventsScript(2, "x", 0, events) + LeftoverScript(2, "x", 0, r)
  {
    var f := Augment(2, "x", 0, map[]);
    AugmentUntouching(2, "x", map[]);
    NoAssetTouched(f);
  }

  // ---- the plan ----

  function FirstBlock(): seq<Instr> {
    [SaveBlock(1, BlockRow("", 1, ""))]
    + (OneOpTx(1, Tx("t", [OpOf(76, REGISTER_FIELDS)], [REGISTERED]), 76, REGISTER_NAME, REGISTER_FIELDS,
               [SaveToken("T", TOKEN_ROW)])
       + [EndBlock(1)])
  }

  /** The second block, with what the events cause. */
  function SecondBlock(events: seq<Event>, effects: seq<Instr>): seq<Instr> {
    [SaveBlock(2, BlockRow("h", 1, "")), BackFill(2, "h")]
    + (OneOpTx(2, Tx("x", [OpOf(79, map[])], [Invoked(events)]), 79, INVOKE_NAME, map[], effects) + [EndBlock(2)])
  }

  lemma NamesPlain()
    ensures PlainName(REGISTER_NAME) && PlainName(INVOKE_NAME)
  {
  }

  lemma FirstScript(names: seq<string>, events: seq<Event>)
    requires NamesKnown(names)
    ensures BlockScript(TwoBlocks(names, events), 1) == FirstBlock()
  {
    var w := TwoBlocks(names, events);
    NamesPlain();
    OneTxBlock(w, 1, 76, REGISTER_NAME, REGISTER_FIELDS);
    RegisterPlugins(BlockAt(w, 1));
    assert HeadScript(1, BlockAt(w, 1)) == [SaveBlock(1, BlockRow("", 1, ""))];
  }

  lemma SecondScript(names: seq<string>, events: seq<Event>)
    requires NamesKnown(names)
    ensures BlockScript(TwoBlocks(names, events), 2)
            == SecondBlock(events, EventsScript(2, "x", 0, events) + LeftoverScript(2, "x", 0, Invoked(events)))
  {
    var w := TwoBlocks(names, events);
    NamesPlain();
    OneTxBlock(w, 2, 79, INVOKE_NAME, map[]);
    InvokePlugins(BlockAt(w, 2), events);
    assert HeadScript(2, BlockAt(w, 2)) == [SaveBlock(2, BlockRow("h", 1, "")), BackFill(2, "h")];
  }

  const KEY := ReceiptKey("x", 0)

  /** What the oversized transfer causes: nothing, unless the operation has a history row. */
  const REFUSED: seq<Instr> :=
    [SaveHistory(KEY, HistoryRow("T", "a", "b", AMOUNTS, 2)),
     Refresh(TokenCell("T", "a"), IfRecorded("T", KEY), ByTransferEvent("a", "b")),
     Refresh(TokenCell("T", "b"), IfRecorded("T", KEY), ByTransferEvent("a", "b"))]

  lemma BigScript()
    ensures EventScript(2, "x", 0, BIG_TRANSFER) == REFUSED
  {
    var arg := BIG_TRANSFER.arg.value;
    assert UsersToUpdate(arg) == ["a", "b"] && ["a", "b"][1..] == ["b"] && ["b"][1..] == [];
    assert UserRefreshes(BIG_TRANSFER, arg, IfRecorded("T", KEY), []) == [];
  }

  /** Followed by another event, the transfer leaves no error behind. */
  lemma FollowedEffects()
    ensures var events := [BIG_TRANSFER, APPROVED];
            EventsScript(2, "x", 0, events) + LeftoverScript(2, "x", 0, Invoked(events)) == REFUSED
  {
    var events := [BIG_TRANSFER, APPROVED];
    BigScript();
    assert events[1..] == [APPROVED] && [APPROVED][1..] == [];
    assert EventScript(2, "x", 0, APPROVED) == [] && EventsScript(2, "x", 0, []) == [];
    assert EventsScript(2, "x", 0, [APPROVED]) == [];
    assert LeftoverScript(2, "x", 0, Invoked(events)) == [];
  }

  /** As the last event it does. */
  lemma LastEffects()
    ensures var events := [BIG_TRANSFER];
            EventsScript(2, "x", 0, events) + LeftoverScript(2, "x", 0, Invoked(events))
            == REFUSED + [Halt(UnlessRecorded("T", KEY))]
  {
    var events := [BIG_TRANSFER];
    BigScript();
    assert events[1..] == [] && EventsScript(2, "x", 0, []) == [];
    assert LeftoverScript(2, "x", 0, Invoked(events)) == [Halt(UnlessRecorded("T", KEY))];
  }

  // ---- what any such script has in common ----

  /** Nothing here waits for more than a history row, and there is none that fits. */
  predicate Untried(i: Instr) {
    && !i.Halt? && !i.SaveAccount?
    && (i.SaveHistory? ==> !HistoryFits(i.hkey, i.hrow))
    && (i.SaveToken? ==> TokenFits(i.contract, i.token))
    && (i.Refresh? ==> i.guard.IfRecorded?)
  }

  predicate AllUntried(a: seq<Instr>) {
    forall i :: 0 <= i < |a| ==> Untried(a[i])
  }

  /** A dynamic insert comes right after the creation of its table. */
  predicate TablesMade(a: seq<Instr>) {
    forall i :: 0 <= i < |a| && a[i].InsertOp? ==> i > 0 && a[i - 1].MakeTable? && a[i - 1].table == a[i].key.table
  }

  predicate NoneFits(a: seq<Instr>) {
    forall i :: 0 <= i < |a| && a[i].SaveHistory? ==> !HistoryFits(a[i].hkey, a[i].hrow)
  }

  lemma {:induction false} NothingRecorded(a: seq<Instr>)
    requires NoneFits(a)
    ensures Replayed(a).history == map[]
  {
    if a != [] {
      NothingRecorded(a[..|a| - 1]);
    }
  }

  lemma PassesUntried(q: Plan, i: nat, h: nat)
    requires AllUntried(All(q)) && TablesMade(All(q)) && i < |All(q)|
    ensures Passes(q, i, h)
  {
    var a := All(q);
    assert Untried(a[i]);
    NothingRecorded(a[..i]);
    if a[i].InsertOp? {
      PrefixStep(a, i - 1);
    }
  }

  /** A block in which every refresh waits for a history row, on a script without one. */
  lemma WaitsInVain(p: Plan, n: nat, c: Cell)
    requires 1 <= n <= p.Length() && Start(p, n + 1) <= |All(p)| && AllUntried(All(p))
    requires forall i :: Start(p, n) <= i < Start(p, n + 1) ==> !All(p)[i].SaveToken?
    ensures Unasked(p, n, n, c)
  {
    forall i | Start(p, n) <= i < Start(p, n + 1) ensures !Refreshes(p, i, c) && !Introduces(All(p), i, c) {
      assert Untried(All(p)[i]);
      NothingRecorded(All(p)[..i]);
    }
  }

  /** With one registration, before anything waits for it, events follow registrations. */
  lemma OneRegistration(a: seq<Instr>, j: nat)
    requires j < |a| && a[j].SaveToken?
    requires forall i :: 0 <= i <= j ==> Needed(a[i]).None?
    requires forall i :: j < i < |a| && Needed(a[i]).Some? ==> Needed(a[i]).value == a[j].contract
    ensures EventsFollowRegistration(a)
  {
    assert Registers(a[j], a[j].contract);
  }

  lemma TwoScripts(p: Plan, first: seq<Instr>, second: seq<Instr>)
    requires p.scripts == [first, second]
    ensures Start(p, 2) == |first| && Start(p, 3) == |first| + |second| && All(p) == first + second
  {
    assert UpTo(p, 0) == [] && UpTo(p, 1) == first;
  }

  // ---- the missed balance ----

  const FOLLOWED := [BIG_TRANSFER, APPROVED]
  const LAST := [BIG_TRANSFER]

  lemma PlanScripts(names: seq<string>, events: seq<Event>, effects: seq<Instr>)
    requires NamesKnown(names)
    requires EventsScript(2, "x", 0, events) + LeftoverScript(2, "x", 0, Invoked(events)) == effects
    ensures PlanOf(TwoBlocks(names, events)).scripts == [FirstBlock(), SecondBlock(events, effects)]
  {
    var p := PlanOf(TwoBlocks(names, events));
    FirstScript(names, events);
    SecondScript(names, events);
    assert p.scripts[0] == p.Script(1) && p.scripts[1] == p.Script(2);
  }

  lemma FirstElements()
    ensures var b := FirstBlock();
            && |b| == 8 && b[0].SaveBlock? && b[1].SaveTx? && b[2].MakeTable?
            && b[3].InsertOp? && b[3].key.table == b[2].table && b[4].SaveOp?
            && b[5] == SaveToken("T", TOKEN_ROW) && b[6].SaveReceipt? && b[7].EndBlock?
  {
  }

  lemma FirstFacts()
    ensures |FirstBlock()| == 8 && FirstBlock()[5] == SaveToken("T", TOKEN_ROW)
    ensures AllUntried(FirstBlock()) && TablesMade(FirstBlock())
    ensures forall i :: 0 <= i < 8 ==> Needed(FirstBlock()[i]).None?
  {
    FirstElements();
    EightFacts(FirstBlock());
  }

  lemma EightFacts(b: seq<Instr>)
    requires |b| == 8 && b[0].SaveBlock? && b[1].SaveTx? && b[2].MakeTable?
    requires b[3].InsertOp? && b[3].key.table == b[2].table && b[4].SaveOp?
    requires b[5] == SaveToken("T", TOKEN_ROW) && b[6].SaveReceipt? && b[7].EndBlock?
    ensures AllUntried(b) && TablesMade(b) && forall i :: 0 <= i < 8 ==> Needed(b[i]).None?
  {
  }

  /** How a second block begins and goes on. */
  predicate Second(b: seq<Instr>, effects: seq<Instr>) {
    && |b| == 8 + |effects|
    && b[0].SaveBlock? && b[1].BackFill? && b[2].SaveTx? && b[3].MakeTable?
    && b[4].InsertOp? && b[4].key.table == b[3].table && b[5].SaveOp?
    && (forall i :: 0 <= i < |effects| ==> b[6 + i] == effects[i])
    && b[6 + |effects|].SaveReceipt? && b[7 + |effects|].EndBlock?
  }

  lemma SecondShape(head: seq<Instr>, op: seq<Instr>, effects: seq<Instr>, receipt: Instr, end: Instr)
    requires |head| == 2 && head[0].SaveBlock? && head[1].BackFill?
    requires |op| == 4 && op[0].SaveTx? && op[1].MakeTable?
    requires op[2].InsertOp? && op[2].key.table == op[1].table && op[3].SaveOp?
    requires receipt.SaveReceipt? && end.EndBlock?
    ensures Second(head + ((op + (effects + [receipt])) + [end]), effects)
  {
  }

  lemma SecondElements(events: seq<Event>, effects: seq<Instr>)
    ensures Second(SecondBlock(events, effects), effects)
  {
    var f, table := Augment(2, "x", 0, map[]), TableName(INVOKE_NAME);
    SecondShape([SaveBlock(2, BlockRow("h", 1, "")), BackFill(2, "h")],
                [SaveTx("x", TxRow(2, 1, 0, 79)), MakeTable(table, f.Keys), InsertOp(OpKey(table, "x", 0), f),
                 SaveOp(OperationId(2, "x", 0), BaseRow(2, 0, "x", 79, INVOKE_NAME, f))],
                effects, SaveReceipt(Invoked(events)), EndBlock(2));
  }

  lemma RefusedFacts(b: seq<Instr>, effects: seq<Instr>)
    requires Second(b, effects) && REFUSED <= effects
    ensures b[6] == REFUSED[0] && b[7] == REFUSED[1] && b[8] == REFUSED[2]
    ensures !HistoryFits(REFUSED[0].hkey, REFUSED[0].hrow)
  {
    assert effects[0] == REFUSED[0] && effects[1] == REFUSED[1] && effects[2] == REFUSED[2];
    assert b[6 + 0] == effects[0] && b[6 + 1] == effects[1] && b[6 + 2] == effects[2];
  }

  /** The second block of the chain on which the transfer is followed by another event. */
  lemma FollowedFacts(b: seq<Instr>)
    requires Second(b, REFUSED)
    ensures |b| == 11 && AllUntried(b) && TablesMade(b) && b[7] == REFUSED[1] && b[8] == REFUSED[2]
    ensures forall i :: 0 <= i < 11 ==> !b[i].SaveToken? && (Needed(b[i]).Some? ==> Needed(b[i]).value == "T")
  {
    RefusedFacts(b, REFUSED);
  }

  lemma FollowedPlan(q: Plan)
    requires q.scripts == [FirstBlock(), SecondBlock(FOLLOWED, REFUSED)]
    ensures Start(q, 2) == 8 && Start(q, 3) == 19 == |All(q)|
    ensures AllUntried(All(q)) && TablesMade(All(q)) && EventsFollowRegistration(All(q))
    ensures forall i :: 8 <= i < 19 ==> !All(q)[i].SaveToken?
    ensures Registers(All(q)[5], "T") && All(q)[15] == REFUSED[1] && All(q)[16] == REFUSED[2]
  {
    var first, second := FirstBlock(), SecondBlock(FOLLOWED, REFUSED);
    FirstFacts();
    SecondElements(FOLLOWED, REFUSED);
    FollowedFacts(second);
    TwoScripts(q, first, second);
    FollowedJoined(first, second);
  }

  lemma FollowedJoined(first: seq<Instr>, second: seq<Instr>)
    requires |first| == 8 && AllUntried(first) && TablesMade(first) && first[5] == SaveToken("T", TOKEN_ROW)
    requires forall i :: 0 <= i < 8 ==> Needed(first[i]).None?
    requires |second| == 11 && AllUntried(second) && TablesMade(second)
    requires forall i :: 0 <= i < 11 ==>
               !second[i].SaveToken? && (Needed(second[i]).Some? ==> Needed(second[i]).value == "T")
    ensures AllUntried(first + second) && TablesMade(first + second) && EventsFollowRegistration(first + second)
    ensures forall i :: 8 <= i < 19 ==> (first + second)[i] == second[i - 8] && !(first + second)[i].SaveToken?
  {
    var a := first + second;
    forall i | 0 <= i < |a| ensures Untried(a[i]) && (i >= 8 ==> a[i] == second[i - 8]) {
      assert if i < 8 then Untried(first[i]) else Untried(second[i - 8]);
    }
    OneRegistration(a, 5);
  }

  /** On the chain with the followed transfer neither balance is ever asked for. */
  lemma FollowedTransferMissed(names: seq<string>, owner: string)
    requires NamesKnown(names) && owner in ["a", "b"]
    ensures Missed(PlanOf(TwoBlocks(names, FOLLOWED)), 2, TokenCell("T", owner))
  {
    var p, c := PlanOf(TwoBlocks(names, FOLLOWED)), TokenCell("T", owner);
    FollowedEffects();
    PlanScripts(names, FOLLOWED, REFUSED);
    FollowedPlan(p);
    assert Names(All(p), if owner == "a" then 15 else 16, c);
    WaitsInVain(p, 2, c);
    assert NamedIn(p, 2, c) && Unasked(p, 2, 2, c);
  }

  lemma TwoTxsOk(w: World, first: Tx, second: Tx)
    requires |w.chain| == 2 && w.chain[0].txs == [first] && w.chain[1].txs == [second] && first.txid != second.txid
    requires OwnReceipts(first) && OwnReceipts(second)
    ensures UniqueTxids(w) && ReceiptsCarryTxid(w)
  {
  }

  /** The chain keeps the assumptions about transaction ids. */
  lemma TwoBlocksOk(names: seq<string>, events: seq<Event>)
    ensures UniqueTxids(TwoBlocks(names, events)) && ReceiptsCarryTxid(TwoBlocks(names, events))
  {
    var w := TwoBlocks(names, events);
    TwoTxsOk(w, w.chain[0].txs[0], w.chain[1].txs[0]);
  }

  /** The same, read off the chain. */
  lemma FollowedTransferLost(names: seq<string>, owner: string)
    requires NamesKnown(names) && owner in ["a", "b"]
    ensures Lost(LogOf(TwoBlocks(names, FOLLOWED)), 2, 2, TokenCell("T", owner))
  {
    FollowedEffects();
    PlanScripts(names, FOLLOWED, REFUSED);
    FollowedPlan(PlanOf(TwoBlocks(names, FOLLOWED)));
    TwoBlocksOk(names, FOLLOWED);
    FollowedTransferMissed(names, owner);
    MissedOnChain(TwoBlocks(names, FOLLOWED), 2, TokenCell("T", owner));
  }

  /** So there is a ledger and a run that leave the balance out of date with nothing left to
      scan. */
  lemma FollowedTransferGoesStale(names: seq<string>, owner: string)
    requires NamesKnown(names) && owner in ["a", "b"]
    ensures exists ledger ::
              GoesStale(WithLedger(PlanOf(TwoBlocks(names, FOLLOWED)), ledger), 2, TokenCell("T", owner))
  {
    var w := TwoBlocks(names, FOLLOWED);
    var p, c := PlanOf(w), TokenCell("T", owner);
    FollowedEffects();
    PlanScripts(names, FOLLOWED, REFUSED);
    FollowedPlan(p);
    PlanProper(w);
    forall n {:trigger StepLedger(c, n)} ensures Followable(WithLedger(p, StepLedger(c, n)), 2) {
      FollowedFollowable(WithLedger(p, StepLedger(c, n)));
    }
    FollowedTransferMissed(names, owner);
    assert p.shown(c, 0) == 0 && p.shown(c, 1) == 1;
    MissedExactly(p, 2, c);
  }

  lemma FollowedFollowable(q: Plan)
    requires q.scripts == [FirstBlock(), SecondBlock(FOLLOWED, REFUSED)]
    ensures Followable(q, 2)
  {
    FollowedPlan(q);
    forall i | 0 <= i < |All(q)| && i < Start(q, 3) ensures Passes(q, i, HomeOf(q, i)) {
      PassesUntried(q, i, HomeOf(q, i));
    }
  }

  // ---- the scan that stops ----

  /** A Halt that waits for a history row never to come is not passed. */
  lemma UnrecordedStops(p: Plan, acts: seq<Act>, i: nat, contract: string, key: ReceiptKey)
    requires Sound(p) && FailStop(acts) && i < |All(p)| && All(p)[i] == Halt(UnlessRecorded(contract, key))
    requires RegisteredBefore(All(p), i, contract) && NoneFits(All(p)[..i])
    ensures After(p, acts).hwm <= i
  {
    TokensReplayed(All(p), i, contract);
    NothingRecorded(All(p)[..i]);
    forall h: nat ensures !Passes(p, i, h) {
    }
    NeverReached(p, i);
    ReachAlways(p, acts);
    ReachEnds(p, After(p, acts), i);
  }

  lemma LastFacts(b: seq<Instr>)
    requires Second(b, REFUSED + [Halt(UnlessRecorded("T", KEY))])
    ensures |b| == 12 && NoneFits(b) && b[9] == Halt(UnlessRecorded("T", KEY))
    ensures forall i :: 0 <= i < 12 ==> !b[i].SaveToken? && (Needed(b[i]).Some? ==> Needed(b[i]).value == "T")
  {
    var effects := REFUSED + [Halt(UnlessRecorded("T", KEY))];
    RefusedFacts(b, effects);
    assert b[6 + 3] == effects[3];
  }

  /** If nothing follows the transfer, its error is returned and fatal: no run with crashes only
      ever finishes block 2, and the scanner never gets to the head. */
  lemma LastTransferStops(names: seq<string>, acts: seq<Act>)
    requires NamesKnown(names) && FailStop(acts)
    ensures var p := PlanOf(TwoBlocks(names, LAST)); After(p, acts).hwm < Start(p, 3)
  {
    var w := TwoBlocks(names, LAST);
    var p := PlanOf(w);
    LastEffects();
    PlanScripts(names, LAST, REFUSED + [Halt(UnlessRecorded("T", KEY))]);
    PlanProper(w);
    LastPlan(p);
    UnrecordedStops(p, acts, 17, "T", KEY);
  }

  lemma LastPlan(p: Plan)
    requires p.scripts == [FirstBlock(), SecondBlock(LAST, REFUSED + [Halt(UnlessRecorded("T", KEY))])]
    ensures Start(p, 3) == 20 == |All(p)| && All(p)[17] == Halt(UnlessRecorded("T", KEY))
    ensures EventsFollowRegistration(All(p)) && RegisteredBefore(All(p), 17, "T") && NoneFits(All(p)[..17])
  {
    var first, second := FirstBlock(), SecondBlock(LAST, REFUSED + [Halt(UnlessRecorded("T", KEY))]);
    FirstFacts();
    SecondElements(LAST, REFUSED + [Halt(UnlessRecorded("T", KEY))]);
    LastFacts(second);
    TwoScripts(p, first, second);
    LastJoined(first, second);
  }

  lemma LastJoined(first: seq<Instr>, second: seq<Instr>)
    requires |first| == 8 && AllUntried(first) && first[5] == SaveToken("T", TOKEN_ROW)
    requires forall i :: 0 <= i < 8 ==> Needed(first[i]).None?
    requires |second| == 12 && NoneFits(second)
    requires forall i :: 0 <= i < 12 ==> Needed(second[i]).Some? ==> Needed(second[i]).value == "T"
    ensures var a := first + second;
            EventsFollowRegistration(a) && RegisteredBefore(a, 17, "T") && NoneFits(a[..17]) && a[17] == second[9]
  {
    var a := first + second;
    assert forall i :: 8 <= i < 20 ==> a[i] == second[i - 8];
    assert Registers(a[5], "T");
    OneRegistration(a, 5);
    forall i | 0 <= i < 17 && a[i].SaveHistory? ensures !HistoryFits(a[i].hkey, a[i].hrow) {
      if i < 8 {
        assert Untried(first[i]);
      }
    }
  }
}
