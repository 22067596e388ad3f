/** The assumption that events follow registrations, read off the chain. */
module ChainOrder {
  import opened Wrappers
  import opened Json
  import opened Chain
  import opened Tables
  import opened Readings
  import opened Script
  import opened Plans
  import opened Replay
  import opened Places
  import opened OpContents
  import opened ChainNames
  import opened EventLog
  import opened ChainMisses
  import opened Stops

  /** An event of a contract that is ever registered as a token comes after an operation that
      registers it, or in one. */
  ghost predicate RegisteredFirst(w: World) {
    forall x: Spot {:trigger EventAt(w, x)} ::
      Seen(w, x) && EventAt(w, x).value.name in {"Inited", "Transfer"}
      && RegisteredBy(w, |w.chain|, EventAt(w, x).value.contract) ==>
        HasRegistered(w, OpOf(x), EventAt(w, x).value.contract)
  }

  /** The operation, or one before it, registers the contract. */
  ghost predicate HasRegistered(w: World, x: Place, contract: string) {
    exists y, row :: (y == x || Earlier(y, x)) && RegistersAt(w, y, contract, row)
  }

  // ---- where the invoke plugin begins ----

  function HeadSize(w: World, x: Place): nat
    requires Tried(w, x) && FormOf(w, x).Good?
  {
    |OpHead(x.n, BlockAt(w, x.n), x.t, TxAt(w, x), x.o, FormOf(w, x))|
  }

  /** Before it, nothing waits for a registration; from there on, nothing registers. */
  lemma PartsNeed(num: nat, block: Block, txid: string, index: nat, name: string, f: Fields, r: Option<Receipt>,
                  i: Instr)
    ensures (|| i in TransferScript(name, f) || i in AccountScript(name, f) || i in AssetScript(f)
             || i in RegisterScript(num, txid, name, f, r))
            ==> Needed(i).None?
    ensures i in InvokeScript(num, block, txid, index, r) ==> !i.SaveToken?
  {
    PartsOf(num, block, txid, index, name, f, r, i);
  }

  lemma HeadNeeds(num: nat, block: Block, t: nat, tx: Tx, o: nat, form: OpForm, i: Instr)
    requires form.Good? && i in OpHead(num, block, t, tx, o, form)
    ensures Needed(i).None?
  {
    PartsNeed(num, block, tx.txid, o, form.opName, Augment(num, tx.txid, o, form.fields), ReceiptFor(tx, o), i);
  }

  lemma SplitAt(s: seq<Instr>, head: seq<Instr>, invoke: seq<Instr>, r: nat)
    requires s == head + invoke && r < |s|
    requires forall i :: i in head ==> Needed(i).None?
    requires forall i :: i in invoke ==> !i.SaveToken?
    ensures Needed(s[r]).Some? ==> r >= |head|
    ensures s[r].SaveToken? ==> r < |head|
  {
    assert if r < |head| then s[r] in head else s[r] in invoke;
  }

  lemma Sides(w: World, x: Place, r: nat)
    requires Tried(w, x) && FormOf(w, x).Good? && r < |OpInstrs(w, x)|
    ensures Needed(OpInstrs(w, x)[r]).Some? ==> r >= HeadSize(w, x)
    ensures OpInstrs(w, x)[r].SaveToken? ==> r < HeadSize(w, x)
  {
    var tx, form, block := TxAt(w, x), FormOf(w, x), BlockAt(w, x.n);
    var f, receipt := Augment(x.n, tx.txid, x.o, form.fields), ReceiptFor(tx, x.o);
    OpSplit(x.n, block, x.t, tx, x.o, form);
    forall i | i in OpHead(x.n, block, x.t, tx, x.o, form) ensures Needed(i).None? {
      HeadNeeds(x.n, block, x.t, tx, x.o, form, i);
    }
    forall i | i in InvokeScript(x.n, block, tx.txid, x.o, receipt) ensures !i.SaveToken? {
      PartsNeed(x.n, block, tx.txid, x.o, form.opName, f, receipt, i);
    }
    SplitAt(OpInstrs(w, x), OpHead(x.n, block, x.t, tx, x.o, form), InvokeScript(x.n, block, tx.txid, x.o, receipt), r);
  }

  // ---- what waits for a registration comes from an event ----

  lemma EventNeeds(num: nat, txid: string, index: nat, e: Event, r: nat)
    requires r < |EventScript(num, txid, index, e)|
    ensures Needed(EventScript(num, txid, index, e)[r]) == Some(e.contract) && e.name in {"Inited", "Transfer"}
  {
    InstrOf(num, txid, index, e, r);
  }

  /** The event k of operation x is one that makes others wait, for that contract. */
  predicate WaitsFor(w: World, x: Place, k: nat, contract: string) {
    && Seen(w, Spot(x.n, x.t, x.o, k))
    && EventAt(w, Spot(x.n, x.t, x.o, k)).value.name in {"Inited", "Transfer"}
    && EventAt(w, Spot(x.n, x.t, x.o, k)).value.contract == contract
  }

  lemma SeenThere(w: World, x: Place, r: Receipt, k: nat, contract: string)
    requires Tried(w, x) && Scannable(w.names, TxAt(w, x).ops[x.o]) && IsHeard(BlockAt(w, x.n), TxAt(w, x), x.o, r)
    requires k < |r.events| && r.events[k].name in {"Inited", "Transfer"} && r.events[k].contract == contract
    ensures WaitsFor(w, x, k, contract)
  {
  }

  lemma NeededByEvent(w: World, x: Place, r: nat, contract: string) returns (k: nat)
    requires Tried(w, x) && r < |OpInstrs(w, x)| && OfEvent(OpInstrs(w, x)[r])
    requires Needed(OpInstrs(w, x)[r]) == Some(contract)
    ensures WaitsFor(w, x, k, contract)
  {
    EventIn(w, x, r);
    EffectsStand(w, x);
    k := NeededInEvents(OpInstrs(w, x), HeadOf(w, x), x.n, TxAt(w, x).txid, x.o, EventsOf(w, x), r, contract);
    SeenThere(w, x, TxAt(w, x).receipts[x.o], k, contract);
  }

  lemma NeededInEvents(s: seq<Instr>, head: seq<Instr>, num: nat, txid: string, index: nat, events: seq<Event>, r: nat,
                       contract: string) returns (k: nat)
    requires head + EventsScript(num, txid, index, events) <= s
    requires |head| <= r < |head| + |EventsScript(num, txid, index, events)| && Needed(s[r]) == Some(contract)
    ensures k < |events| && events[k].name in {"Inited", "Transfer"} && events[k].contract == contract
  {
    PrefixAt(s, head, EventsScript(num, txid, index, events), r);
    k := NeededInEffects(num, txid, index, events, r - |head|, contract);
  }

  lemma {:induction false} NeededInEffects(num: nat, txid: string, index: nat, events: seq<Event>, i: nat,
                                           contract: string) returns (k: nat)
    requires i < |EventsScript(num, txid, index, events)|
    requires Needed(EventsScript(num, txid, index, events)[i]) == Some(contract)
    ensures k < |events| && events[k].name in {"Inited", "Transfer"} && events[k].contract == contract
  {
    var first := EventScript(num, txid, index, events[0]);
    if i < |first| {
      EventNeeds(num, txid, index, events[0], i);
      k := 0;
    } else {
      k := NeededInEffects(num, txid, index, events[1..], i - |first|, contract);
      k := k + 1;
    }
  }

  lemma PrefixAt(s: seq<Instr>, head: seq<Instr>, mid: seq<Instr>, r: nat)
    requires head + mid <= s && |head| <= r < |head| + |mid|
    ensures s[r] == mid[r - |head|]
  {
    assert (head + mid)[r] == s[r];
  }

  lemma ErrorNeeds(num: nat, txid: string, o: nat, r: Receipt, guard: Guard)
    requires LeavesError(num, txid, o, r, guard)
    ensures var e := r.events[|r.events| - 1]; e.name == "Transfer" && Needed(Halt(guard)) == Some(e.contract)
  {
  }

  /** The last event of the operation makes its stop wait. */
  lemma HaltSource(num: nat, block: Block, tx: Tx, o: nat, guard: Guard, contract: string) returns (r: Receipt, k: nat)
    requires Halt(guard) in InvokeScript(num, block, tx.txid, o, ReceiptFor(tx, o)) && guard != Always
    requires Needed(Halt(guard)) == Some(contract)
    ensures IsHeard(block, tx, o, r) && k < |r.events|
    ensures r.events[k].name == "Transfer" && r.events[k].contract == contract
  {
    InvokeHalts(num, block, tx, o, guard);
    r :| IsHeard(block, tx, o, r) && LeavesError(num, tx.txid, o, r, guard);
    ErrorNeeds(num, tx.txid, o, r, guard);
    k := |r.events| - 1;
  }

  lemma NeededByHalt(w: World, x: Place, guard: Guard, contract: string) returns (k: nat)
    requires Tried(w, x) && FormOf(w, x).Good? && Halt(guard) in OpInstrs(w, x) && guard != Always
    requires Needed(Halt(guard)) == Some(contract)
    ensures WaitsFor(w, x, k, contract)
  {
    HaltIn(x.n, BlockAt(w, x.n), x.t, TxAt(w, x), x.o, FormOf(w, x), guard);
    var r;
    r, k := HaltSource(x.n, BlockAt(w, x.n), TxAt(w, x), x.o, guard, contract);
    SeenThere(w, x, r, k, contract);
  }

  /** Whatever waits for the registration of a contract is in an operation with an event of it. */
  lemma NeededSpot(w: World, x: Place, r: nat, contract: string) returns (k: nat)
    requires Tried(w, x) && r < |OpInstrs(w, x)| && Needed(OpInstrs(w, x)[r]) == Some(contract)
    ensures FormOf(w, x).Good? && WaitsFor(w, x, k, contract)
  {
    var form, i := FormOf(w, x), OpInstrs(w, x)[r];
    if !form.Good? {
      OthersExactly(x.n, BlockAt(w, x.n), x.t, TxAt(w, x), x.o, form, i);
    }
    if i.Halt? {
      k := NeededByHalt(w, x, i.guard, contract);
    } else {
      NeededNotAddress(x.n, BlockAt(w, x.n), x.t, TxAt(w, x), x.o, form, i);
      k := NeededByEvent(w, x, r, contract);
    }
  }

  lemma NeededNotAddress(num: nat, block: Block, t: nat, tx: Tx, o: nat, form: OpForm, i: Instr)
    requires form.Good? && i in OpScript(num, block, t, tx, o, form) && Needed(i).Some? && !i.Halt?
    ensures OfEvent(i)
  {
    if i.Refresh? && i.cell.AddressCell? {
      CauseExactly(num, block, t, tx, o, form, i);
    }
  }

  // ---- the assumption ----

  /** In a plan laid out so, a registration in an operation comes before what waits for it in the
      same or a later one. */
  lemma ComesBefore(p: Plan, l: Layout, x: Place, r: nat, y: Place, q: nat, contract: string)
    requires Laid(p, l) && l.log(x).Some? && l.log(y).Some? && r < |l.log(x).value| && q < |l.log(y).value|
    requires Registers(l.log(y).value[q], contract) && (Earlier(y, x) || (y == x && q < r))
    ensures l.pos(x) + r <= |All(p)| && RegisteredBefore(All(p), l.pos(x) + r, contract)
  {
    assert Stands(p, l.log, l.pos, x) && Stands(p, l.log, l.pos, y) && InOrder(l.log, l.pos, y, x);
    assert Registers(All(p)[l.pos(y) + q], contract);
  }

  lemma RegistersIn(w: World, y: Place, contract: string, row: TokenRow) returns (q: nat)
    requires RegistersAt(w, y, contract, row)
    ensures Tried(w, y) && FormOf(w, y).Good? && q < |OpInstrs(w, y)| && Registers(OpInstrs(w, y)[q], contract)
  {
    TokenAt(w, y, contract, row);
    var s := OpInstrs(w, y);
    q :| 0 <= q < |s| && s[q] == SaveToken(contract, row);
    if !FormOf(w, y).Good? {
      OthersExactly(y.n, BlockAt(w, y.n), y.t, TxAt(w, y), y.o, FormOf(w, y), s[q]);
    }
  }

  lemma RegistrationOf(w: World, x: Place, r: nat, contract: string) returns (y: Place, q: nat)
    requires RegisteredFirst(w) && Tried(w, x) && r < |OpInstrs(w, x)| && Needed(OpInstrs(w, x)[r]) == Some(contract)
    requires RegisteredBy(w, |w.chain|, contract)
    ensures Tried(w, y) && q < |OpInstrs(w, y)| && Registers(OpInstrs(w, y)[q], contract)
    ensures Earlier(y, x) || (y == x && q < r)
  {
    var k := NeededSpot(w, x, r, contract);
    assert EventAt(w, Spot(x.n, x.t, x.o, k)).Some? && HasRegistered(w, x, contract);
    var row;
    y, row :| (y == x || Earlier(y, x)) && RegistersAt(w, y, contract, row);
    q := RegistersIn(w, y, contract, row);
    Sides(w, x, r);
    Sides(w, y, q);
  }

  lemma NeederOf(w: World, i: nat) returns (x: Place, r: nat)
    requires i < |All(PlanOf(w))| && Needed(All(PlanOf(w))[i]).Some?
    ensures Tried(w, x) && r < |OpInstrs(w, x)| && i == PosIn(w, x) + r && All(PlanOf(w))[i] == OpInstrs(w, x)[r]
  {
    OpsLaid(w);
    x, r := OwnerIn(PlanOf(w), OpLayout(w), i);
  }

  lemma BeforeNeeder(w: World, x: Place, r: nat, y: Place, q: nat, contract: string)
    requires Tried(w, x) && Tried(w, y) && r < |OpInstrs(w, x)| && q < |OpInstrs(w, y)|
    requires Registers(OpInstrs(w, y)[q], contract) && (Earlier(y, x) || (y == x && q < r))
    ensures PosIn(w, x) + r <= |All(PlanOf(w))| && RegisteredBefore(All(PlanOf(w)), PosIn(w, x) + r, contract)
  {
    OpsLaid(w);
    ComesBefore(PlanOf(w), OpLayout(w), x, r, y, q, contract);
  }

  lemma WaitsAfter(w: World, i: nat, contract: string)
    requires RegisteredFirst(w) && i < |All(PlanOf(w))| && Needed(All(PlanOf(w))[i]) == Some(contract)
    requires RegisteredBy(w, |w.chain|, contract)
    ensures RegisteredBefore(All(PlanOf(w)), i, contract)
  {
    var x, r := NeederOf(w, i);
    var y, q := RegistrationOf(w, x, r, contract);
    BeforeNeeder(w, x, r, y, q, contract);
  }

  /** If on the chain events follow registrations, they do in the script. */
  lemma FollowsOnChain(w: World)
    requires RegisteredFirst(w)
    ensures EventsFollowRegistration(All(PlanOf(w)))
  {
    var a := All(PlanOf(w));
    forall i | 0 <= i < |a| && Needed(a[i]).Some? && RegisteredBefore(a, |a|, Needed(a[i]).value)
      ensures RegisteredBefore(a, i, Needed(a[i]).value)
    {
      RegisteredExactly(w, |w.chain|, Needed(a[i]).value);
      WaitsAfter(w, i, Needed(a[i]).value);
    }
  }
}
