/** What ends the scan for good: operations whose type's name PostgreSQL would need quoted, pairs
    that start with null, transfers and registrations the plugins cannot read, and invocations in
    a block whose timestamp does not parse. */
module Stops {
  import opened Wrappers
  import opened Numerals
  import opened Json
  import opened Chain
  import opened Tables
  import opened Readings
  import opened Script
  import opened Plans
  import opened BlockFacts
  import opened Machine
  import opened Invariant
  import opened Places
  import opened OpContents

  // ---- the specification, with no reference to scripts ----

  /** An operation that is taken and that a plugin fails on, whatever the database holds. */
  ghost predicate FailsPlugin(w: World, x: Place) {
    exists opType, name, fields ::
      Taken(w, x, opType, name, fields) && Fails(BlockAt(w, x.n), TxAt(w, x), x.o, name, fields)
  }

  /** Operation x ends the scan. */
  ghost predicate DeadStop(w: World, x: Place) {
    && Tried(w, x)
    && var op := TxAt(w, x).ops[x.o];
       || (|op| == 2 && op[0] == JNull)
       || (exists opType, name, fields :: IsOp(w.names, op, opType, name, fields) && NeedsQuotes(name))
       || FailsPlugin(w, x)
  }

  // ---- what stops the script of an operation ----

  lemma NoDeposits(deposits: seq<Json>)
    ensures DepositsScript(deposits) == [] <==> forall addr, asset :: !Deposits(deposits, addr, asset)
  {
    forall addr, asset
      ensures Refresh(AddressCell(addr, asset), Always, ByDeposit) in DepositsScript(deposits)
              <==> Deposits(deposits, addr, asset)
    {
      DepositsExactly(deposits, addr, asset);
    }
    DepositsAsk(deposits);
    if DepositsScript(deposits) != [] {
      var i := DepositsScript(deposits)[0];
      assert i in DepositsScript(deposits) && i == Refresh(AddressCell(i.cell.addr, i.cell.asset), Always, ByDeposit);
    }
  }

  /** The receipt's events leave an error behind, no deposit overwrites it, and it is fatal if
      the guard is open. */
  ghost predicate LeavesError(num: nat, txid: string, o: nat, r: Receipt, guard: Guard) {
    && r.events != [] && (forall addr, asset :: !Deposits(r.deposits, addr, asset))
    && var e, key := r.events[|r.events| - 1], ReceiptKey(txid, o);
       && e.name == "Transfer"
       && if e.arg.None? then guard == IfToken(e.contract)
          else guard == UnlessRecorded(e.contract, key) && forall row :: IsRowOf(row, num, e) ==> !HistoryFits(key, row)
  }

  lemma LeftoverExactly(num: nat, txid: string, o: nat, r: Receipt, guard: Guard)
    ensures Halt(guard) in LeftoverScript(num, txid, o, r) <==> LeavesError(num, txid, o, r, guard)
  {
    NoDeposits(r.deposits);
    if r.events != [] {
      var e := r.events[|r.events| - 1];
      if IsTransfer(e) {
        assert IsRowOf(HistoryOf(num, e, e.arg.value), num, e);
      }
    }
  }

  /** A fatal error in the invoke plugin: the block's timestamp does not parse, or the events
      leave one. */
  lemma InvokeHalts(num: nat, block: Block, tx: Tx, o: nat, guard: Guard)
    ensures Halt(guard) in InvokeScript(num, block, tx.txid, o, ReceiptFor(tx, o))
            <==> exists r :: IsReceiptOf(tx, o, r) && r.succeeded
                   && if block.timestampParses then LeavesError(num, tx.txid, o, r, guard) else guard == Always
  {
    forall r ensures ReceiptFor(tx, o) == Some(r) <==> IsReceiptOf(tx, o, r) {
      ReceiptExactly(tx, o, r);
    }
    if ReceiptFor(tx, o).Some? {
      var r := ReceiptFor(tx, o).value;
      EventsOfEvents(num, tx.txid, o, r.events);
      DepositsAsk(r.deposits);
      LeftoverExactly(num, tx.txid, o, r, guard);
    }
  }

  lemma HaltIn(num: nat, block: Block, t: nat, tx: Tx, o: nat, form: OpForm, guard: Guard)
    requires form.Good?
    ensures var f, r := Augment(num, tx.txid, o, form.fields), ReceiptFor(tx, o);
            Halt(guard) in OpScript(num, block, t, tx, o, form)
            <==> || (guard == Always && BadTransfer(form.opName, form.fields))
                 || (guard == Always && r.Some? && r.value.succeeded && form.opName == "contract_register_operation"
                     && !Decodes(form.fields))
                 || Halt(guard) in InvokeScript(num, block, tx.txid, o, r)
  {
    var f, r := Augment(num, tx.txid, o, form.fields), ReceiptFor(tx, o);
    AugmentElsewhere(num, tx.txid, o, form.fields);
    InParts(num, block, t, tx, o, form, Halt(guard));
    PartsOf(num, block, tx.txid, o, form.opName, f, r, Halt(guard));
    TransferHalts(form.opName, form.fields, f);
    BadRegistration(num, tx.txid, form.opName, form.fields, f, r);
    assert forall i :: i in AssetScript(f) ==> i.Refresh?;
  }

  /** A plugin fails on the operation whatever the database holds. */
  ghost predicate Fails(block: Block, tx: Tx, o: nat, name: string, fields: Fields) {
    || BadTransfer(name, fields)
    || exists r :: IsReceiptOf(tx, o, r) && r.succeeded
         && (!block.timestampParses || (name == "contract_register_operation" && !Decodes(fields)))
  }

  lemma FailsExactly(num: nat, block: Block, t: nat, tx: Tx, o: nat, form: OpForm)
    requires form.Good?
    ensures Halt(Always) in OpScript(num, block, t, tx, o, form) <==> Fails(block, tx, o, form.opName, form.fields)
  {
    HaltIn(num, block, t, tx, o, form, Always);
    InvokeHalts(num, block, tx, o, Always);
    if ReceiptFor(tx, o).Some? {
      ReceiptExactly(tx, o, ReceiptFor(tx, o).value);
    }
    forall r | IsReceiptOf(tx, o, r) ensures ReceiptFor(tx, o) == Some(r) {
      ReceiptExactly(tx, o, r);
    }
  }

  lemma TransferHalts(name: string, fields: Fields, f: Fields)
    requires SameElsewhere(f, fields)
    ensures Halt(Always) in TransferScript(name, f) <==> BadTransfer(name, fields)
  {
    TransferExactly(name, fields, f, "", "", "");
  }

  // ---- exactly these operations have an unguarded stop ----

  lemma OtherStops(w: World, x: Place)
    requires Tried(w, x) && !FormOf(w, x).Good?
    ensures Halt(Always) in OpInstrs(w, x) <==> DeadStop(w, x)
  {
    var form, op := FormOf(w, x), TxAt(w, x).ops[x.o];
    forall opType, name, fields ensures !Taken(w, x, opType, name, fields) {
      ReadExactly(w.names, op, opType, name, fields);
    }
    forall opType, name, fields | IsOp(w.names, op, opType, name, fields) ensures form == Unquoted(name, fields) {
      ReadExactly(w.names, op, opType, name, fields);
    }
    if form.Unquoted? {
      ReadExactly(w.names, op, 0, form.opName, form.fields);
      var s := OpInstrs(w, x);
      assert s[|s| - 1] == Halt(Always);
    }
  }

  lemma GoodStops(w: World, x: Place)
    requires Tried(w, x) && FormOf(w, x).Good?
    ensures Halt(Always) in OpInstrs(w, x) <==> FailsPlugin(w, x)
  {
    var form := FormOf(w, x);
    forall opType, name, fields ensures Taken(w, x, opType, name, fields) <==> form == Good(opType, name, fields) {
      ReadExactly(w.names, TxAt(w, x).ops[x.o], opType, name, fields);
    }
    FailsExactly(x.n, BlockAt(w, x.n), x.t, TxAt(w, x), x.o, form);
    assert Taken(w, x, form.opType, form.opName, form.fields);
  }

  /** The script of an operation has a stop that nothing guards exactly if it is one of these. */
  lemma StopsExactly(w: World, x: Place)
    requires Tried(w, x)
    ensures Halt(Always) in OpInstrs(w, x) <==> DeadStop(w, x)
  {
    if FormOf(w, x).Good? {
      GoodStops(w, x);
      var form := FormOf(w, x);
      ReadExactly(w.names, TxAt(w, x).ops[x.o], form.opType, form.opName, form.fields);
    } else {
      OtherStops(w, x);
    }
  }

  /** And one that waits for the tables exactly if its receipt's events leave an error. */
  lemma ErrorsExactly(w: World, x: Place, opType: nat, name: string, fields: Fields, guard: Guard)
    requires Taken(w, x, opType, name, fields) && guard != Always
    ensures Halt(guard) in OpInstrs(w, x)
            <==> exists r :: IsHeard(BlockAt(w, x.n), TxAt(w, x), x.o, r)
                             && LeavesError(x.n, TxAt(w, x).txid, x.o, r, guard)
  {
    ReadExactly(w.names, TxAt(w, x).ops[x.o], opType, name, fields);
    HaltIn(x.n, BlockAt(w, x.n), x.t, TxAt(w, x), x.o, FormOf(w, x), guard);
    InvokeHalts(x.n, BlockAt(w, x.n), TxAt(w, x), x.o, guard);
  }

  // ---- no run passes them ----

  lemma HaltStep(p: Plan, s: State, act: Act, i: nat)
    requires Proper(p) && Shape(p, s) && i < |All(p)| && All(p)[i] == Halt(Always) && s.hwm <= i && !act.Skip?
    ensures Step(p, s, act).hwm <= i
  {
    if act.Tick? && s.todo != [] {
      AtPosition(p, s);
    }
  }

  /** No run with crashes only gets past a Halt that nothing guards. */
  lemma {:induction false} HaltNeverPassed(p: Plan, acts: seq<Act>, i: nat)
    requires Proper(p) && FailStop(acts) && i < |All(p)| && All(p)[i] == Halt(Always)
    ensures After(p, acts).hwm <= i
  {
    if acts != [] {
      var before := acts[..|acts| - 1];
      HaltNeverPassed(p, before, i);
      ShapeAlways(p, before);
      HaltStep(p, After(p, before), acts[|acts| - 1], i);
    }
  }

  lemma StopInLog(p: Plan, l: Layout, x: Place) returns (i: nat)
    requires Laid(p, l) && l.log(x).Some? && Halt(Always) in l.log(x).value
    ensures 1 <= x.n <= p.Length() && i < Start(p, x.n + 1) <= |All(p)| && All(p)[i] == Halt(Always)
  {
    var r :| 0 <= r < |l.log(x).value| && l.log(x).value[r] == Halt(Always);
    assert Stands(p, l.log, l.pos, x);
    i := l.pos(x) + r;
  }

  /** However often it is restarted, the scanner never finishes the block of such an operation. */
  lemma BlockNeverFinished(w: World, acts: seq<Act>, x: Place)
    requires FailStop(acts) && DeadStop(w, x)
    ensures After(PlanOf(w), acts).hwm < Start(PlanOf(w), x.n + 1)
  {
    PlanProper(w);
    OpsLaid(w);
    StopsExactly(w, x);
    var i := StopInLog(PlanOf(w), OpLayout(w), x);
    HaltNeverPassed(PlanOf(w), acts, i);
  }

  // ---- a transaction that panics ----

  /** Its first operation's pair is empty. */
  predicate PanicsAt(w: World, n: nat, t: nat) {
    && 1 <= n <= |w.chain| && t < |BlockAt(w, n).txs| && (forall j :: 0 <= j < t ==> CanSave(BlockAt(w, n).txs[j]))
    && BlockAt(w, n).txs[t].ops != [] && BlockAt(w, n).txs[t].ops[0] == []
  }

  lemma {:induction false} LoopPanics(leads: Leads, txs: seq<Tx>, t: nat, last: nat, body: TxBody)
    requires t <= last < |txs| && (forall j :: t <= j < last ==> leads(txs[j]).LeadOk?) && leads(txs[last]).LeadPanics?
    ensures Halt(Always) in TxsLoop(leads, txs, t, body)
    decreases last - t
  {
    if t < last {
      LoopPanics(leads, txs, t + 1, last, body);
    }
  }

  lemma InWhole(head: seq<Instr>, txs: seq<Instr>, end: Instr, i: Instr) returns (k: nat)
    requires i in txs
    ensures k < |head + (txs + [end])| && (head + (txs + [end]))[k] == i
  {
    var j :| 0 <= j < |txs| && txs[j] == i;
    k := |head| + j;
  }

  lemma PanicHalts(w: World, n: nat, t: nat) returns (k: nat)
    requires PanicsAt(w, n, t)
    ensures k < |BlockScript(w, n)| && BlockScript(w, n)[k] == Halt(Always)
  {
    var block := BlockAt(w, n);
    LoopPanics(LeadsOf(), block.txs, 0, t, BodyOfTxs(w.names, n, block));
    k := InWhole(HeadScript(n, block), TxsScript(w.names, n, block), EndBlock(n), Halt(Always));
  }

  /** Its block is never finished either. */
  lemma PanicNeverFinished(w: World, acts: seq<Act>, n: nat, t: nat)
    requires FailStop(acts) && PanicsAt(w, n, t)
    ensures After(PlanOf(w), acts).hwm < Start(PlanOf(w), n + 1)
  {
    var k := PanicHalts(w, n, t);
    PlanProper(w);
    BlockPlace(PlanOf(w), n, k);
    HaltNeverPassed(PlanOf(w), acts, Start(PlanOf(w), n) + k);
  }

  // ---- inputs that stop the scan ----

  /** A chain of one block with one transaction with these operations. */
  function OneTxWorld(names: seq<string>, ops: seq<seq<Json>>): World {
    World(names, [Block("", true, [Tx("t", ops, [])])], [], (n: nat, c: Cell) => 0)
  }

  /** An operation of type number t without properties. */
  function EmptyOp(t: nat): seq<Json> {
    [JNumber(Itoa(t)), JObject(map[])]
  }

  lemma EmptyOpIs(names: seq<string>, t: nat)
    requires t < |names| && t <= INT64_MAX
    ensures IsOp(names, EmptyOp(t), t, names[t], map[]) && (Scannable(names, EmptyOp(t)) <==> !NeedsQuotes(names[t]))
  {
    AtoiItoa(t);
  }

  const QUOTED_NAME := "graphene::chain::eth_seri_guard_sign_operation"

  /** A single operation whose type has the name the table lists for type 94: its block is never
      finished, and so no later one ever begun. */
  lemma QuotedNameStops(acts: seq<Act>)
    requires FailStop(acts)
    ensures var w := OneTxWorld([QUOTED_NAME], [EmptyOp(0)]);
            DeadStop(w, Place(1, 0, 0)) && After(PlanOf(w), acts).hwm < |All(PlanOf(w))|
  {
    var w := OneTxWorld([QUOTED_NAME], [EmptyOp(0)]);
    NamesInTable();
    EmptyOpIs(w.names, 0);
    BlockNeverFinished(w, acts, Place(1, 0, 0));
  }

  /** So does an operation pair that starts with null, after one that is good. */
  lemma NullPairStops(acts: seq<Act>)
    requires FailStop(acts)
    ensures var w := OneTxWorld(["transfer_operation"], [EmptyOp(0), [JNull, JNull]]);
            DeadStop(w, Place(1, 0, 1)) && After(PlanOf(w), acts).hwm < |All(PlanOf(w))|
  {
    var w := OneTxWorld(["transfer_operation"], [EmptyOp(0), [JNull, JNull]]);
    NamesInTable();
    EmptyOpIs(w.names, 0);
    BlockNeverFinished(w, acts, Place(1, 0, 1));
  }

  /** Names of the operation-name table that need quotes, and one that does not. */
  lemma NamesInTable()
    ensures NeedsQuotes(QUOTED_NAME)
    ensures NeedsQuotes("add_whiteOperation_list_operation") && NeedsQuotes("cancel_whiteOperation_list_operation")
    ensures !NeedsQuotes("transfer_operation")
  {
    assert IsSpecial(QUOTED_NAME[8]);
    assert IsSpecial("add_whiteOperation_list_operation"[9]);
    assert IsSpecial("cancel_whiteOperation_list_operation"[12]);
  }
}
