/** In which order the instructions of an operation come: its rows, its plugins one after the
    other, and within them events, sides of a transfer and deposits. */
module OpOrder {
  import opened Wrappers
  import opened Numerals
  import opened Json
  import opened Chain
  import opened Tables
  import opened Readings
  import opened Script
  import opened OpContents

  /** Which step of the operation an instruction is: its table, its two rows, then the plugins:
      transfer, account, asset, registration, and of the invocation events before deposits. */
  function StepOf(i: Instr): nat {
    match i
    case MakeTable(_, _) => 0
    case InsertOp(_, _) => 1
    case SaveOp(_, _) => 2
    case SaveAccount(_, _) => 4
    case SaveToken(_, _) => 6
    case Refresh(c, _, cause) =>
      if !c.AddressCell? then 7 else if cause == ByTransferOp then 3 else if cause == ByAssetOp then 5 else 8
    case _ => 7
  }

  /** Dead stops aside, the steps of s go up from at least low to at most high. */
  predicate Steps(s: seq<Instr>, low: nat, high: nat) {
    && (forall k :: 0 <= k < |s| && !s[k].Halt? ==> low <= StepOf(s[k]) <= high)
    && (forall j, k :: 0 <= j < k < |s| && !s[j].Halt? && !s[k].Halt? ==> StepOf(s[j]) <= StepOf(s[k]))
  }

  lemma StepsConcat(a: seq<Instr>, b: seq<Instr>, low: nat, mid: nat, high: nat)
    requires Steps(a, low, mid) && Steps(b, mid, high) && low <= mid <= high
    ensures Steps(a + b, low, high)
  {
  }

  lemma StepsWithin(s: seq<Instr>, step: nat, low: nat, high: nat)
    requires low <= step <= high && forall k :: 0 <= k < |s| && !s[k].Halt? ==> StepOf(s[k]) == step
    ensures Steps(s, low, high)
  {
  }

  lemma InvokeSteps(num: nat, block: Block, txid: string, index: nat, r: Option<Receipt>)
    ensures Steps(InvokeScript(num, block, txid, index, r), 7, 8)
  {
    if r.Some? && r.value.succeeded && block.timestampParses {
      var events, deposits := EventsScript(num, txid, index, r.value.events), DepositsScript(r.value.deposits);
      EventsOfEvents(num, txid, index, r.value.events);
      DepositsAsk(r.value.deposits);
      forall k | 0 <= k < |deposits| ensures StepOf(deposits[k]) == 8 {
        assert deposits[k] in deposits;
      }
      StepsWithin(events, 7, 7, 7);
      StepsWithin(deposits, 8, 8, 8);
      StepsWithin(LeftoverScript(num, txid, index, r.value), 8, 8, 8);
      StepsConcat(deposits, LeftoverScript(num, txid, index, r.value), 8, 8, 8);
      StepsWithin(events, 7, 7, 8);
      StepsConcat(events, deposits + LeftoverScript(num, txid, index, r.value), 7, 8, 8);
    }
  }

  lemma PartSteps(num: nat, txid: string, name: string, f: Fields, r: Option<Receipt>)
    ensures Steps(TransferScript(name, f), 3, 4) && Steps(AccountScript(name, f), 4, 5)
    ensures Steps(RegisterScript(num, txid, name, f, r), 6, 7)
  {
    StepsWithin(TransferScript(name, f), 3, 3, 4);
    StepsWithin(AccountScript(name, f), 4, 4, 5);
    StepsWithin(RegisterScript(num, txid, name, f, r), 6, 6, 7);
  }

  lemma AssetSteps(f: Fields)
    ensures Steps(AssetScript(f), 5, 6)
  {
    StepsWithin(AssetScript(f), 5, 5, 6);
  }

  lemma OwnSteps(num: nat, t: nat, tx: Tx, o: nat, opType: nat, name: string, f: Fields)
    ensures Steps(OwnRows(num, t, tx, o, opType, name, f), 0, 3)
  {
  }

  lemma SixSteps(h: seq<Instr>, a: seq<Instr>, b: seq<Instr>, c: seq<Instr>, d: seq<Instr>, e: seq<Instr>)
    requires Steps(h, 0, 3) && Steps(a, 3, 4) && Steps(b, 4, 5) && Steps(c, 5, 6) && Steps(d, 6, 7) && Steps(e, 7, 8)
    ensures Steps(h + (a + (b + (c + (d + e)))), 0, 8)
  {
    StepsConcat(d, e, 6, 7, 8);
    StepsConcat(c, d + e, 5, 6, 8);
    StepsConcat(b, c + (d + e), 4, 5, 8);
    StepsConcat(a, b + (c + (d + e)), 3, 4, 8);
    StepsConcat(h, a + (b + (c + (d + e))), 0, 3, 8);
  }

  lemma PluginSteps(num: nat, block: Block, txid: string, o: nat, name: string, f: Fields, r: Option<Receipt>,
                    own: seq<Instr>)
    requires Steps(own, 0, 3)
    ensures Steps(own + PluginsScript(num, block, txid, o, name, f, r), 0, 8)
  {
    PartSteps(num, txid, name, f, r);
    AssetSteps(f);
    InvokeSteps(num, block, txid, o, r);
    SixSteps(own, TransferScript(name, f), AccountScript(name, f), AssetScript(f),
             RegisterScript(num, txid, name, f, r), InvokeScript(num, block, txid, o, r));
  }

  /** The operation's table and rows come before its plugins, and these in their order. */
  lemma StepsInOrder(num: nat, block: Block, t: nat, tx: Tx, o: nat, form: OpForm)
    requires form.Good?
    ensures Steps(OpScript(num, block, t, tx, o, form), 0, 8)
  {
    var f, r := Augment(num, tx.txid, o, form.fields), ReceiptFor(tx, o);
    OwnSteps(num, t, tx, o, form.opType, form.opName, f);
    PluginSteps(num, block, tx.txid, o, form.opName, f, r, OwnRows(num, t, tx, o, form.opType, form.opName, f));
  }

  // ---- within the invoke plugin ----

  /** The numbers a Transfer has asked for, in order: those of sender and receiver, each once and
      the empty address never, then the supply if a side is empty. */
  function ToldCells(contract: string, from: string, to: string): seq<Cell> {
    (if from != "" then [TokenCell(contract, from)] else [])
    + (if to != "" && to != from then [TokenCell(contract, to)] else [])
    + (if from == "" || to == "" then [SupplyCell(contract)] else [])
  }

  /** The instructions refresh these numbers, one each. */
  predicate AskFor(s: seq<Instr>, cells: seq<Cell>) {
    |s| == |cells| && forall k :: 0 <= k < |s| ==> s[k].Refresh? && s[k].cell == cells[k]
  }

  lemma AskConcat(a: seq<Instr>, b: seq<Instr>, x: seq<Cell>, y: seq<Cell>)
    requires AskFor(a, x) && AskFor(b, y)
    ensures AskFor(a + b, x + y)
  {
  }

  function TokenCells(contract: string, users: seq<string>): seq<Cell> {
    seq(|users|, k requires 0 <= k < |users| => TokenCell(contract, users[k]))
  }

  lemma {:induction false} RefreshesAsk(e: Event, arg: TransferArg, guard: Guard, users: seq<string>)
    ensures AskFor(UserRefreshes(e, arg, guard, users), TokenCells(e.contract, users))
  {
    if users != [] {
      RefreshesAsk(e, arg, guard, users[1..]);
    }
  }

  lemma UsersAsk(e: Event, arg: TransferArg, guard: Guard)
    ensures AskFor(UsersScript(e, arg, guard),
                   (if arg.from != "" then [TokenCell(e.contract, arg.from)] else [])
                   + (if arg.to != "" && arg.to != arg.from then [TokenCell(e.contract, arg.to)] else []))
  {
    RefreshesAsk(e, arg, guard, UsersToUpdate(arg));
  }

  /** A Transfer's history row, as it was told, comes before the numbers, and these in order. */
  lemma TransferInOrder(num: nat, txid: string, index: nat, e: Event)
    requires IsTransfer(e)
    ensures var s, arg := EventScript(num, txid, index, e), e.arg.value;
            && |s| > 0
            && s[0] == SaveHistory(ReceiptKey(txid, index), HistoryRow(e.contract, arg.from, arg.to, arg.amount, num))
            && AskFor(s[1..], ToldCells(e.contract, arg.from, arg.to))
  {
    var arg := e.arg.value;
    var guard := TransferGuard(ReceiptKey(txid, index), HistoryOf(num, e, arg));
    UsersAsk(e, arg, guard);
    AskConcat(UsersScript(e, arg, guard), SupplyScript(e, arg, guard),
              (if arg.from != "" then [TokenCell(e.contract, arg.from)] else [])
              + (if arg.to != "" && arg.to != arg.from then [TokenCell(e.contract, arg.to)] else []),
              if arg.from == "" || arg.to == "" then [SupplyCell(e.contract)] else []);
  }

  /** Events and deposits are gone through in their order. */
  lemma {:induction false} EventsInOrder(num: nat, txid: string, index: nat, a: seq<Event>, b: seq<Event>)
    ensures EventsScript(num, txid, index, a + b)
            == EventsScript(num, txid, index, a) + EventsScript(num, txid, index, b)
  {
    if a == [] {
      assert a + b == b;
    } else {
      EventsInOrder(num, txid, index, a[1..], b);
      Rotated(a, b);
      EventsStep(num, txid, index, a + b);
      EventsStep(num, txid, index, a);
    }
  }

  lemma Rotated<T>(a: seq<T>, b: seq<T>)
    requires a != []
    ensures a + b != [] && (a + b)[0] == a[0] && (a + b)[1..] == a[1..] + b
  {
  }

  lemma EventsStep(num: nat, txid: string, index: nat, events: seq<Event>)
    requires events != []
    ensures EventsScript(num, txid, index, events)
            == EventScript(num, txid, index, events[0]) + EventsScript(num, txid, index, events[1..])
  {
  }

  lemma DepositsStep(deposits: seq<Json>)
    requires deposits != []
    ensures DepositsScript(deposits) == DepositsScript([deposits[0]]) + DepositsScript(deposits[1..])
  {
    assert [deposits[0]][1..] == [];
    assert DepositsScript([]) == [];
  }

  lemma {:induction false} DepositsInOrder(a: seq<Json>, b: seq<Json>)
    ensures DepositsScript(a + b) == DepositsScript(a) + DepositsScript(b)
  {
    if a == [] {
      assert a + b == b;
    } else {
      DepositsInOrder(a[1..], b);
      Rotated(a, b);
      DepositsStep(a + b);
      DepositsStep(a);
    }
  }
}
