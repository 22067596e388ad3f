/** When nothing is ever missed: a Transfer event whose history row fits its columns is never
    left half done, so on a chain of such events the database catches up for every number. */
module Amounts {
  import opened Wrappers
  import opened Numerals
  import opened Json
  import opened Chain
  import opened Tables
  import opened Script
  import opened Plans
  import opened BlockFacts
  import opened Machine
  import opened Replay
  import opened Convergence
  import FixedPoint

  /** A token amount fits its column exactly if the column of balances, of the same type, could
      hold it. */
  lemma AmountsLikeBalances(n: nat)
    ensures n < AMOUNTS <==> FixedPoint.FitsColumn(n * FixedPoint.Pow10(FixedPoint.FRACTION_DIGITS))
  {
    var units := FixedPoint.Pow10(FixedPoint.FRACTION_DIGITS);
    FixedPoint.PowerFacts();
    Scaled(n, AMOUNTS, units);
  }

  lemma Scaled(a: nat, b: nat, units: nat)
    requires units > 0
    ensures a < b <==> a * units < b * units
  {
  }

  /** The history row of the event fits, if it has one. */
  predicate EventFitsColumns(num: nat, txid: string, index: nat, e: Event) {
    e.name == "Transfer" && e.arg.Some? ==> HistoryFits(ReceiptKey(txid, index), HistoryOf(num, e, e.arg.value))
  }

  predicate AllEventsFit(num: nat, txid: string, index: nat, events: seq<Event>) {
    forall i :: 0 <= i < |events| ==> EventFitsColumns(num, txid, index, events[i])
  }

  predicate TxAmountsFit(num: nat, tx: Tx) {
    forall o :: 0 <= o < |tx.receipts| && tx.receipts[o].succeeded ==>
      AllEventsFit(num, tx.txid, o, tx.receipts[o].events)
  }

  /** Every Transfer event of a successful receipt of the chain has an amount below 10^18 and names that fit. */
  predicate AmountsFit(w: World) {
    forall n, t :: 1 <= n <= |w.chain| && 0 <= t < |BlockAt(w, n).txs| ==> TxAmountsFit(n, BlockAt(w, n).txs[t])
  }

  /** No instruction depends on whether an operation has a history row. */
  predicate Unconditional(s: seq<Instr>) {
    forall k :: 0 <= k < |s| && (s[k].Refresh? || s[k].Halt?) ==> s[k].guard.Always? || s[k].guard.IfToken?
  }

  lemma UnconditionalConcat(a: seq<Instr>, b: seq<Instr>)
    requires Unconditional(a) && Unconditional(b)
    ensures Unconditional(a + b)
  {
  }

  lemma {:induction false} UsersUnconditional(e: Event, arg: TransferArg, guard: Guard, users: seq<string>)
    requires guard.IfToken?
    ensures Unconditional(UserRefreshes(e, arg, guard, users))
  {
    if users != [] {
      UsersUnconditional(e, arg, guard, users[1..]);
    }
  }

  lemma EventUnconditional(num: nat, txid: string, index: nat, e: Event)
    requires EventFitsColumns(num, txid, index, e)
    ensures Unconditional(EventScript(num, txid, index, e))
  {
    if e.name == "Transfer" && e.arg.Some? {
      var arg := e.arg.value;
      UsersUnconditional(e, arg, TransferGuard(ReceiptKey(txid, index), HistoryOf(num, e, arg)), UsersToUpdate(arg));
    }
  }

  lemma {:induction false} EventsUnconditional(num: nat, txid: string, index: nat, events: seq<Event>)
    requires AllEventsFit(num, txid, index, events)
    ensures Unconditional(EventsScript(num, txid, index, events))
  {
    if events != [] {
      EventUnconditional(num, txid, index, events[0]);
      EventsUnconditional(num, txid, index, events[1..]);
    }
  }

  lemma {:induction false} DepositsUnconditional(deposits: seq<Json>)
    ensures Unconditional(DepositsScript(deposits))
  {
    if deposits != [] {
      DepositsUnconditional(deposits[1..]);
    }
  }

  lemma LeftoverUnconditional(num: nat, txid: string, index: nat, r: Receipt)
    requires AllEventsFit(num, txid, index, r.events)
    ensures Unconditional(LeftoverScript(num, txid, index, r))
  {
    if r.events != [] {
      assert EventFitsColumns(num, txid, index, r.events[|r.events| - 1]);
    }
  }

  lemma InvokeUnconditional(num: nat, block: Block, txid: string, index: nat, receipt: Option<Receipt>)
    requires receipt.Some? && receipt.value.succeeded ==> AllEventsFit(num, txid, index, receipt.value.events)
    ensures Unconditional(InvokeScript(num, block, txid, index, receipt))
  {
    if receipt.Some? && receipt.value.succeeded {
      EventsUnconditional(num, txid, index, receipt.value.events);
      DepositsUnconditional(receipt.value.deposits);
      LeftoverUnconditional(num, txid, index, receipt.value);
    }
  }

  lemma OperationUnconditional(num: nat, txid: string, opName: string, f: Fields, receipt: Option<Receipt>)
    ensures Unconditional(TransferScript(opName, f)) && Unconditional(AccountScript(opName, f))
    ensures Unconditional(AssetScript(f)) && Unconditional(RegisterScript(num, txid, opName, f, receipt))
  {
  }

  lemma PluginsUnconditional(num: nat, block: Block, txid: string, index: nat, opName: string, f: Fields,
                             receipt: Option<Receipt>)
    requires receipt.Some? && receipt.value.succeeded ==> AllEventsFit(num, txid, index, receipt.value.events)
    ensures Unconditional(PluginsScript(num, block, txid, index, opName, f, receipt))
  {
    var d, e := RegisterScript(num, txid, opName, f, receipt), InvokeScript(num, block, txid, index, receipt);
    OperationUnconditional(num, txid, opName, f, receipt);
    InvokeUnconditional(num, block, txid, index, receipt);
    UnconditionalConcat(d, e);
    UnconditionalConcat(AssetScript(f), d + e);
    UnconditionalConcat(AccountScript(opName, f), AssetScript(f) + (d + e));
    UnconditionalConcat(TransferScript(opName, f), AccountScript(opName, f) + (AssetScript(f) + (d + e)));
  }

  lemma HeadUnconditional(make: Instr, insert: Instr, save: Instr, plugins: seq<Instr>)
    requires make.MakeTable? && insert.InsertOp? && save.SaveOp? && Unconditional(plugins)
    ensures Unconditional([make, insert, save] + plugins)
  {
  }

  lemma OpUnconditional(num: nat, block: Block, t: nat, tx: Tx, o: nat, form: OpForm)
    requires TxAmountsFit(num, tx)
    ensures Unconditional(OpScript(num, block, t, tx, o, form))
  {
    if form.Good? {
      var f, table := Augment(num, tx.txid, o, form.fields), TableName(form.opName);
      var save := SaveOp(OperationId(num, tx.txid, o), BaseRow(num, t, tx.txid, form.opType, form.opName, f));
      PluginsUnconditional(num, block, tx.txid, o, form.opName, f, ReceiptFor(tx, o));
      HeadUnconditional(MakeTable(table, f.Keys), InsertOp(OpKey(table, tx.txid, o), f), save,
                        PluginsScript(num, block, tx.txid, o, form.opName, f, ReceiptFor(tx, o)));
    }
  }

  lemma {:induction false} OpsUnconditional(read: Reader, ops: seq<seq<Json>>, o: nat, body: OpBody)
    requires o <= |ops| && forall i, form :: Unconditional(body(i, form))
    ensures Unconditional(OpsLoop(read, ops, o, body))
    decreases |ops| - o
  {
    if o < |ops| {
      var rest := if read(ops[o]).Good? then OpsLoop(read, ops, o + 1, body) else [];
      if read(ops[o]).Good? {
        OpsUnconditional(read, ops, o + 1, body);
      }
      UnconditionalConcat(body(o, read(ops[o])), rest);
    }
  }

  lemma {:induction false} ReceiptsUnconditional(receipts: seq<Receipt>)
    ensures Unconditional(ReceiptsScript(receipts))
  {
    if receipts != [] {
      ReceiptsUnconditional(receipts[1..]);
    }
  }

  lemma TxUnconditional(names: seq<string>, num: nat, block: Block, t: nat, tx: Tx, firstType: int)
    requires TxAmountsFit(num, tx)
    ensures Unconditional(TxScript(names, num, block, t, tx, firstType))
  {
    var body := BodyOfOps(num, block, t, tx);
    forall i, form ensures Unconditional(body(i, form)) {
      OpUnconditional(num, block, t, tx, i, form);
    }
    OpsUnconditional(ReaderOf(names), tx.ops, 0, body);
    ReceiptsUnconditional(FetchedReceipts(tx));
  }

  lemma {:induction false} TxsUnconditional(leads: Leads, txs: seq<Tx>, t: nat, body: TxBody)
    requires t <= |txs| && forall i: nat, ft: int :: i < |txs| ==> Unconditional(body(i, txs[i], ft))
    ensures Unconditional(TxsLoop(leads, txs, t, body))
    decreases |txs| - t
  {
    if t < |txs| && leads(txs[t]).LeadOk? {
      TxsUnconditional(leads, txs, t + 1, body);
      UnconditionalConcat(body(t, txs[t], leads(txs[t]).firstType), TxsLoop(leads, txs, t + 1, body));
    }
  }

  lemma BlockUnconditional(w: World, num: nat)
    requires AmountsFit(w) && 1 <= num <= |w.chain|
    ensures Unconditional(BlockScript(w, num))
  {
    var block := BlockAt(w, num);
    var body := BodyOfTxs(w.names, num, block);
    forall i: nat, ft: int | i < |block.txs| ensures Unconditional(body(i, block.txs[i], ft)) {
      TxUnconditional(w.names, num, block, i, block.txs[i], ft);
    }
    TxsUnconditional(LeadsOf(), block.txs, 0, body);
    UnconditionalConcat(TxsScript(w.names, num, block), [EndBlock(num)]);
    UnconditionalConcat(HeadScript(num, block), TxsScript(w.names, num, block) + [EndBlock(num)]);
  }

  /** If no guard asks for a history row, whatever names a number leads to asking for it. */
  lemma UnconditionalNeverMisses(p: Plan, head: nat, c: Cell)
    requires Unconditional(All(p)) && head <= p.Length()
    ensures !Missed(p, head, c)
  {
    forall n | 1 <= n <= head && NamedIn(p, n, c) ensures !Unasked(p, n, head, c) {
      var i :| Start(p, n) <= i < Start(p, n + 1) && Names(All(p), i, c);
      StartMonotone(p, n + 1, head + 1);
      assert Refreshes(p, i, c);
    }
  }

  /** If every Transfer event fits, nothing is missed, whatever block the node is at. */
  lemma NothingMissed(w: World, head: nat, c: Cell)
    requires AmountsFit(w) && head <= |w.chain|
    ensures !Missed(PlanOf(w), head, c)
  {
    PlanUnconditional(w, |w.chain|);
    UnconditionalNeverMisses(PlanOf(w), head, c);
  }

  lemma {:induction false} PlanUnconditional(w: World, n: nat)
    requires AmountsFit(w) && n <= |w.chain|
    ensures Unconditional(UpTo(PlanOf(w), n))
  {
    if n > 0 {
      PlanUnconditional(w, n - 1);
      BlockUnconditional(w, n);
      UnconditionalConcat(UpTo(PlanOf(w), n - 1), PlanOf(w).Script(n));
    }
  }

  /** So on such a chain the database is up to date once the scanner has nothing left to scan. */
  lemma CaughtUpAtHead(w: World, acts: seq<Act>, c: Cell)
    requires AmountsFit(w) && EventsFollowRegistration(All(PlanOf(w))) && LedgerLocal(PlanOf(w)) && FailStop(acts)
    requires var s := After(PlanOf(w), acts); s.todo == [] && s.cursor == s.head + 1
    ensures !Stale(PlanOf(w), After(PlanOf(w), acts), c)
  {
    var p := PlanOf(w);
    PlanProper(w);
    ConvergedAtHead(p, acts, c);
    NothingMissed(w, After(p, acts).head, c);
  }
}
