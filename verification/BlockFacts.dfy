/** Every script the loops produce is proper: which instructions a block's body can hold. */
module BlockFacts {
  import opened Wrappers
  import opened Numerals
  import opened Json
  import opened Chain
  import opened Tables
  import opened Script
  import opened Plans

  /** Fit for a place after the head of block num. */
  predicate AllFit(num: nat, s: seq<Instr>) {
    forall k :: 0 <= k < |s| ==> Fits(num, 2, s[k])
  }

  lemma {:induction false} UsersFit(num: nat, e: Event, arg: TransferArg, guard: Guard, users: seq<string>)
    requires forall k :: 0 <= k < |users| ==> users[k] != "" && users[k] in {arg.from, arg.to}
    requires GuardFits(guard, e.contract)
    ensures AllFit(num, UserRefreshes(e, arg, guard, users))
  {
    if users != [] {
      UsersFit(num, e, arg, guard, users[1..]);
    }
  }

  lemma EventFits(num: nat, txid: string, index: nat, e: Event)
    ensures AllFit(num, EventScript(num, txid, index, e))
  {
    if e.name == "Transfer" && e.arg.Some? {
      var arg := e.arg.value;
      UsersFit(num, e, arg, TransferGuard(ReceiptKey(txid, index), HistoryOf(num, e, arg)), UsersToUpdate(arg));
    }
  }

  lemma {:induction false} EventsFit(num: nat, txid: string, index: nat, events: seq<Event>)
    ensures AllFit(num, EventsScript(num, txid, index, events))
  {
    if events != [] {
      EventFits(num, txid, index, events[0]);
      EventsFit(num, txid, index, events[1..]);
    }
  }

  lemma {:induction false} DepositsFit(num: nat, deposits: seq<Json>)
    ensures AllFit(num, DepositsScript(deposits))
  {
    if deposits != [] {
      DepositsFit(num, deposits[1..]);
    }
  }

  lemma InvokeFits(num: nat, block: Block, txid: string, index: nat, receipt: Option<Receipt>)
    ensures AllFit(num, InvokeScript(num, block, txid, index, receipt))
  {
    if receipt.Some? {
      EventsFit(num, txid, index, receipt.value.events);
      DepositsFit(num, receipt.value.deposits);
      assert AllFit(num, LeftoverScript(num, txid, index, receipt.value));
    }
  }

  lemma PluginsFit(num: nat, block: Block, txid: string, index: nat, opName: string, f: Fields,
                   receipt: Option<Receipt>)
    ensures AllFit(num, PluginsScript(num, block, txid, index, opName, f, receipt))
  {
    TransferFits(num, opName, f);
    assert AllFit(num, AccountScript(opName, f));
    assert AllFit(num, AssetScript(f));
    RegisterFits(num, txid, opName, f, receipt);
    InvokeFits(num, block, txid, index, receipt);
    FiveFit(num, TransferScript(opName, f), AccountScript(opName, f), AssetScript(f),
            RegisterScript(num, txid, opName, f, receipt), InvokeScript(num, block, txid, index, receipt));
  }

  lemma TransferFits(num: nat, opName: string, f: Fields)
    ensures AllFit(num, TransferScript(opName, f))
  {
  }

  lemma RegisterFits(num: nat, txid: string, opName: string, f: Fields, receipt: Option<Receipt>)
    ensures AllFit(num, RegisterScript(num, txid, opName, f, receipt))
  {
  }

  lemma FiveFit(num: nat, a: seq<Instr>, b: seq<Instr>, c: seq<Instr>, d: seq<Instr>, e: seq<Instr>)
    requires AllFit(num, a) && AllFit(num, b) && AllFit(num, c) && AllFit(num, d) && AllFit(num, e)
    ensures AllFit(num, a + (b + (c + (d + e))))
  {
  }

  lemma HeadFit(num: nat, make: Instr, insert: Instr, save: Instr, plugins: seq<Instr>)
    requires Fits(num, 2, make) && insert.InsertOp? && save.SaveOp? && AllFit(num, plugins)
    ensures AllFit(num, [make, insert, save] + plugins)
  {
  }

  lemma OpFits(num: nat, block: Block, t: nat, tx: Tx, o: nat, form: OpForm)
    ensures AllFit(num, OpScript(num, block, t, tx, o, form))
  {
    if form.Good? {
      var f := Augment(num, tx.txid, o, form.fields);
      var table := TableName(form.opName);
      var save := SaveOp(OperationId(num, tx.txid, o), BaseRow(num, t, tx.txid, form.opType, form.opName, f));
      PluginsFit(num, block, tx.txid, o, form.opName, f, ReceiptFor(tx, o));
      HeadFit(num, MakeTable(table, f.Keys), InsertOp(OpKey(table, tx.txid, o), f), save,
              PluginsScript(num, block, tx.txid, o, form.opName, f, ReceiptFor(tx, o)));
    }
  }

  lemma {:induction false} OpsLoopFits(num: nat, read: Reader, ops: seq<seq<Json>>, o: nat, body: OpBody)
    requires o <= |ops| && forall i, form :: AllFit(num, body(i, form))
    ensures AllFit(num, OpsLoop(read, ops, o, body))
    decreases |ops| - o
  {
    if o < |ops| {
      assert AllFit(num, body(o, read(ops[o])));
      if read(ops[o]).Good? {
        OpsLoopFits(num, read, ops, o + 1, body);
      }
    }
  }

  lemma {:induction false} ReceiptsFit(num: nat, receipts: seq<Receipt>)
    ensures AllFit(num, ReceiptsScript(receipts))
  {
    if receipts != [] {
      ReceiptsFit(num, receipts[1..]);
    }
  }

  lemma TxFits(names: seq<string>, num: nat, block: Block, t: nat, tx: Tx, firstType: int)
    ensures AllFit(num, TxScript(names, num, block, t, tx, firstType))
  {
    var body := BodyOfOps(num, block, t, tx);
    forall i, form ensures AllFit(num, body(i, form)) {
      OpFits(num, block, t, tx, i, form);
    }
    OpsLoopFits(num, ReaderOf(names), tx.ops, 0, body);
    ReceiptsFit(num, FetchedReceipts(tx));
  }

  lemma {:induction false} TxsLoopFits(num: nat, leads: Leads, txs: seq<Tx>, t: nat, body: TxBody)
    requires t <= |txs| && forall i, tx, ft :: AllFit(num, body(i, tx, ft))
    ensures AllFit(num, TxsLoop(leads, txs, t, body))
    decreases |txs| - t
  {
    if t < |txs| {
      var lead := leads(txs[t]);
      if lead.LeadOk? {
        TxsLoopFits(num, leads, txs, t + 1, body);
        assert AllFit(num, body(t, txs[t], lead.firstType));
      }
    }
  }

  lemma TxsFit(names: seq<string>, num: nat, block: Block)
    ensures AllFit(num, TxsScript(names, num, block))
  {
    var body := BodyOfTxs(names, num, block);
    forall i, tx, ft ensures AllFit(num, body(i, tx, ft)) {
      TxFits(names, num, block, i, tx, ft);
    }
    TxsLoopFits(num, LeadsOf(), block.txs, 0, body);
  }

  /** The last instruction of a block is its EndBlock, the head comes first, and everything
      else fits the block's body. */
  lemma BlockProper(w: World, num: nat)
    requires 1 <= num <= |w.chain|
    ensures ProperBlock(num, BlockScript(w, num))
  {
    var block := BlockAt(w, num);
    TxsFit(w.names, num, block);
    PartsProper(num, HeadScript(num, block), TxsScript(w.names, num, block));
  }

  lemma PartsProper(num: nat, head: seq<Instr>, txs: seq<Instr>)
    requires |head| == if num > 1 then 2 else 1
    requires head[0].SaveBlock? && Fits(num, 0, head[0])
    requires num > 1 ==> head[1].BackFill? && Fits(num, 1, head[1])
    requires AllFit(num, txs)
    ensures ProperBlock(num, head + (txs + [EndBlock(num)]))
  {
    var b := head + (txs + [EndBlock(num)]);
    forall k | 0 <= k < |b| - 1 ensures Fits(num, k, b[k]) {
      if k >= |head| {
        assert b[k] == txs[k - |head|];
        assert Fits(num, 2, b[k]);
      }
    }
  }

  lemma PlanProper(w: World)
    ensures Proper(PlanOf(w))
  {
    forall n | 1 <= n <= |w.chain| ensures ProperBlock(n, PlanOf(w).Script(n)) {
      BlockProper(w, n);
    }
  }

  // ---- plugins store neither transactions nor operations ----

  predicate PluginInstr(i: Instr) {
    i.Refresh? || i.SaveAccount? || i.SaveToken? || i.SaveHistory? || i.Halt?
  }

  predicate OnlyPlugins(s: seq<Instr>) {
    forall k :: 0 <= k < |s| ==> PluginInstr(s[k])
  }

  lemma {:induction false} UsersOnly(e: Event, arg: TransferArg, guard: Guard, users: seq<string>)
    ensures OnlyPlugins(UserRefreshes(e, arg, guard, users))
  {
    if users != [] {
      UsersOnly(e, arg, guard, users[1..]);
    }
  }

  lemma EventOnly(num: nat, txid: string, index: nat, e: Event)
    ensures OnlyPlugins(EventScript(num, txid, index, e))
  {
    if e.arg.Some? {
      var arg := e.arg.value;
      UsersOnly(e, arg, TransferGuard(ReceiptKey(txid, index), HistoryOf(num, e, arg)), UsersToUpdate(arg));
    }
  }

  lemma {:induction false} EventsOnly(num: nat, txid: string, index: nat, events: seq<Event>)
    ensures OnlyPlugins(EventsScript(num, txid, index, events))
  {
    if events != [] {
      EventOnly(num, txid, index, events[0]);
      EventsOnly(num, txid, index, events[1..]);
    }
  }

  lemma {:induction false} DepositsOnly(deposits: seq<Json>)
    ensures OnlyPlugins(DepositsScript(deposits))
  {
    if deposits != [] {
      DepositsOnly(deposits[1..]);
    }
  }

  lemma PluginsOnly(num: nat, block: Block, txid: string, index: nat, opName: string, f: Fields,
                    receipt: Option<Receipt>)
    ensures OnlyPlugins(PluginsScript(num, block, txid, index, opName, f, receipt))
  {
    TransferOnly(opName, f);
    assert OnlyPlugins(AccountScript(opName, f));
    assert OnlyPlugins(AssetScript(f));
    RegisterOnly(num, txid, opName, f, receipt);
    InvokeOnly(num, block, txid, index, receipt);
    FiveOnly(TransferScript(opName, f), AccountScript(opName, f), AssetScript(f),
             RegisterScript(num, txid, opName, f, receipt), InvokeScript(num, block, txid, index, receipt));
  }

  lemma TransferOnly(opName: string, f: Fields)
    ensures OnlyPlugins(TransferScript(opName, f))
  {
  }

  lemma RegisterOnly(num: nat, txid: string, opName: string, f: Fields, receipt: Option<Receipt>)
    ensures OnlyPlugins(RegisterScript(num, txid, opName, f, receipt))
  {
  }

  lemma InvokeOnly(num: nat, block: Block, txid: string, index: nat, receipt: Option<Receipt>)
    ensures OnlyPlugins(InvokeScript(num, block, txid, index, receipt))
  {
    if receipt.Some? {
      EventsOnly(num, txid, index, receipt.value.events);
      DepositsOnly(receipt.value.deposits);
      assert OnlyPlugins(LeftoverScript(num, txid, index, receipt.value));
    }
  }

  lemma FiveOnly(a: seq<Instr>, b: seq<Instr>, c: seq<Instr>, d: seq<Instr>, e: seq<Instr>)
    requires OnlyPlugins(a) && OnlyPlugins(b) && OnlyPlugins(c) && OnlyPlugins(d) && OnlyPlugins(e)
    ensures OnlyPlugins(a + (b + (c + (d + e))))
  {
  }
}
