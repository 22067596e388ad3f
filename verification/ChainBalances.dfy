/** Balances, read off the chain: what a block moves, that the scanner asks for exactly that, and
    that balances of addresses therefore catch up. */
module ChainBalances {
  import opened Wrappers
  import opened Json
  import opened Chain
  import opened Tables
  import opened Readings
  import opened Script
  import opened Plans
  import opened BlockFacts
  import opened Machine
  import opened Replay
  import opened Confluence
  import opened Convergence
  import opened Misses
  import opened Places
  import opened OpContents
  import opened ChainNames
  import opened EventLog
  import opened ChainMisses
  import FixedPoint
  import Invariant

  // ---- what a block moves ----

  /** An operation of block n moves the asset of the address. */
  ghost predicate MovesAt(w: World, x: Place, addr: string, asset: string) {
    exists opType, name, fields ::
      && Taken(w, x, opType, name, fields)
      && Moves(BlockAt(w, x.n), TxAt(w, x), x.o, name, fields, addr, asset)
  }

  ghost predicate MovesIn(w: World, n: nat, addr: string, asset: string) {
    exists x: Place :: x.n == n && MovesAt(w, x, addr, asset)
  }

  /** The script of an operation asks for the balance exactly if the operation moves it. */
  lemma MovesThere(w: World, x: Place, addr: string, asset: string)
    requires Tried(w, x)
    ensures MovesAt(w, x, addr, asset)
            <==> exists i :: i in OpInstrs(w, x) && i.Refresh? && i.cell == AddressCell(addr, asset)
  {
    var form, tx := FormOf(w, x), TxAt(w, x);
    forall opType, name, fields ensures Taken(w, x, opType, name, fields) <==> form == Good(opType, name, fields) {
      TakenForm(w, x, opType, name, fields);
    }
    if form.Good? {
      MovesExactly(x.n, BlockAt(w, x.n), x.t, tx, x.o, form, addr, asset);
      assert Taken(w, x, form.opType, form.opName, form.fields);
    } else {
      forall i | i in OpInstrs(w, x) ensures !i.Refresh? {
        OthersExactly(x.n, BlockAt(w, x.n), x.t, tx, x.o, form, i);
      }
    }
  }

  lemma NamedMoves(w: World, n: nat, addr: string, asset: string)
    requires 1 <= n <= |w.chain| && NamedIn(PlanOf(w), n, AddressCell(addr, asset))
    ensures MovesIn(w, n, addr, asset)
  {
    var p := PlanOf(w);
    var i: nat :| Start(p, n) <= i < Start(p, n + 1) && Names(All(p), i, AddressCell(addr, asset));
    OpsLaid(w);
    var x, r := OwnerIn(p, OpLayout(w), i);
    OneBlock(p, i, n, x.n);
    MovesThere(w, x, addr, asset);
  }

  lemma AskedInLog(p: Plan, l: Layout, x: Place, i: Instr, c: Cell)
    requires Proper(p) && Laid(p, l) && l.log(x).Some? && i in l.log(x).value && i.Refresh? && i.cell == c
    requires c.AddressCell?
    ensures 1 <= x.n <= p.Length() && NamedIn(p, x.n, c)
  {
    var r :| 0 <= r < |l.log(x).value| && l.log(x).value[r] == i;
    assert Stands(p, l.log, l.pos, x);
    assert All(p)[l.pos(x) + r] == i;
    RefreshPlace(p, l.pos(x) + r);
    assert Names(All(p), l.pos(x) + r, c);
  }

  lemma MovesNamed(w: World, x: Place, addr: string, asset: string)
    requires MovesAt(w, x, addr, asset)
    ensures 1 <= x.n <= |w.chain| && NamedIn(PlanOf(w), x.n, AddressCell(addr, asset))
  {
    PlanProper(w);
    OpsLaid(w);
    MovesThere(w, x, addr, asset);
    var i :| i in OpInstrs(w, x) && i.Refresh? && i.cell == AddressCell(addr, asset);
    AskedInLog(PlanOf(w), OpLayout(w), x, i, AddressCell(addr, asset));
  }

  /** The scanner asks for exactly the balances that a block's operations move: those of both
      sides of a transfer, those an operation has among its properties, and those its receipt
      deposits. */
  lemma AskedExactlyMoved(w: World, n: nat, addr: string, asset: string)
    requires 1 <= n <= |w.chain|
    ensures NamedIn(PlanOf(w), n, AddressCell(addr, asset)) <==> MovesIn(w, n, addr, asset)
  {
    if NamedIn(PlanOf(w), n, AddressCell(addr, asset)) {
      NamedMoves(w, n, addr, asset);
    } else if MovesIn(w, n, addr, asset) {
      var x: Place :| x.n == n && MovesAt(w, x, addr, asset);
      MovesNamed(w, x, addr, asset);
    }
  }

  lemma AtInLog(p: Plan, l: Layout, x: Place, r: nat, a: Instr, b: Instr) returns (i: nat)
    requires Laid(p, l) && l.log(x).Some? && r + 1 < |l.log(x).value|
    requires l.log(x).value[r] == a && l.log(x).value[r + 1] == b
    ensures 1 <= x.n <= p.Length() && Start(p, x.n) <= i && i + 1 < Start(p, x.n + 1) <= |All(p)|
    ensures All(p)[i] == a && All(p)[i + 1] == b
  {
    i := l.pos(x) + r;
    assert Stands(p, l.log, l.pos, x);
    assert All(p)[l.pos(x) + (r + 1)] == l.log(x).value[r + 1];
  }

  lemma TransferThere(num: nat, block: Block, t: nat, tx: Tx, o: nat, form: OpForm, from: string, to: string,
                      asset: string)
    requires form.Good? && Transfers(form.opName, form.fields, from, to, asset)
    ensures var s := OpScript(num, block, t, tx, o, form);
            && |s| > 4 && s[3] == Refresh(AddressCell(from, asset), Always, ByTransferOp)
            && s[4] == Refresh(AddressCell(to, asset), Always, ByTransferOp)
  {
    var f := Augment(num, tx.txid, o, form.fields);
    AugmentElsewhere(num, tx.txid, o, form.fields);
    TransferExactly(form.opName, form.fields, f, from, to, asset);
  }

  /** Of a transfer, the sender's balance is asked for right before the receiver's. */
  lemma SenderFirst(w: World, x: Place, opType: nat, name: string, fields: Fields, from: string, to: string,
                    asset: string) returns (i: nat)
    requires Taken(w, x, opType, name, fields) && Transfers(name, fields, from, to, asset)
    ensures Start(PlanOf(w), x.n) <= i && i + 1 < Start(PlanOf(w), x.n + 1) <= |All(PlanOf(w))|
    ensures All(PlanOf(w))[i] == Refresh(AddressCell(from, asset), Always, ByTransferOp)
    ensures All(PlanOf(w))[i + 1] == Refresh(AddressCell(to, asset), Always, ByTransferOp)
  {
    TakenForm(w, x, opType, name, fields);
    TransferThere(x.n, BlockAt(w, x.n), x.t, TxAt(w, x), x.o, FormOf(w, x), from, to, asset);
    OpsLaid(w);
    i := AtInLog(PlanOf(w), OpLayout(w), x, 3, Refresh(AddressCell(from, asset), Always, ByTransferOp),
                 Refresh(AddressCell(to, asset), Always, ByTransferOp));
  }

  // ---- the assumption on the ledger ----

  /** The contract is registered for the first time in block n. */
  ghost predicate NewIn(w: World, n: nat, contract: string) {
    n > 0 && RegisteredBy(w, n, contract) && !RegisteredBy(w, n - 1, contract)
  }

  /** Block n explains a change of the number: an operation moves the balance, an event tells
      about the token number, or the contract is new. Numbers of contracts that are never
      registered are not mirrored. */
  ghost predicate Explains(w: World, n: nat, c: Cell) {
    match c
    case AddressCell(addr, asset) => MovesIn(w, n, addr, asset)
    case TokenCell(contract, _) => RegisteredBy(w, |w.chain|, contract) ==> ToldIn(LogOf(w), n, c)
    case SupplyCell(contract) =>
      RegisteredBy(w, |w.chain|, contract) ==> ToldIn(LogOf(w), n, c) || NewIn(w, n, contract)
  }

  /** The node's number is another one with block n. */
  predicate Changes(w: World, n: nat, c: Cell) {
    n > 0 && w.ledger(n, c) != w.ledger(n - 1, c)
  }

  /** The node's numbers change only for reasons the chain shows. */
  ghost predicate LedgerFollows(w: World) {
    forall n: nat, c: Cell {:trigger Changes(w, n, c)} :: n <= |w.chain| && Changes(w, n, c) ==> Explains(w, n, c)
  }

  lemma IntroducedExactly(p: Plan, n: nat, contract: string)
    requires 1 <= n <= p.Length()
    ensures Start(p, n) <= Start(p, n + 1) <= |All(p)|
    ensures IntroducedIn(p, n, SupplyCell(contract))
            <==> RegisteredBefore(All(p), Start(p, n + 1), contract) && !RegisteredBefore(All(p), Start(p, n), contract)
  {
    StartMonotone(p, n + 1, p.Length() + 1);
    var a := All(p);
    if RegisteredBefore(a, Start(p, n + 1), contract) && !RegisteredBefore(a, Start(p, n), contract) {
      var j := FirstRegistration(a, Start(p, n + 1), contract);
      assert Registers(a[j], contract);
      assert Start(p, n) <= j < Start(p, n + 1) && Introduces(a, j, SupplyCell(contract));
    }
    if j :| Start(p, n) <= j < Start(p, n + 1) && Introduces(a, j, SupplyCell(contract)) {
      assert Registers(a[j], contract);
      RegisteredLater(a, Start(p, n), j, contract);
    }
  }

  lemma NewExactly(w: World, n: nat, contract: string)
    requires 1 <= n <= |w.chain|
    ensures IntroducedIn(PlanOf(w), n, SupplyCell(contract)) <==> NewIn(w, n, contract)
  {
    RegisteredExactly(w, n, contract);
    RegisteredExactly(w, n - 1, contract);
    IntroducedExactly(PlanOf(w), n, contract);
  }

  lemma EverExactly(w: World, contract: string)
    ensures RegisteredBefore(All(PlanOf(w)), |All(PlanOf(w))|, contract) <==> RegisteredBy(w, |w.chain|, contract)
  {
    RegisteredExactly(w, |w.chain|, contract);
  }

  lemma ExplainsExactly(w: World, n: nat, c: Cell)
    requires UniqueTxids(w) && 1 <= n <= |w.chain|
    ensures Explains(w, n, c)
            <==> (Tracked(All(PlanOf(w)), c) ==> NamedIn(PlanOf(w), n, c) || IntroducedIn(PlanOf(w), n, c))
  {
    if c.AddressCell? {
      AskedExactlyMoved(w, n, c.addr, c.asset);
    } else {
      LogLaid(w);
      NamedExactly(PlanOf(w), LogOf(w), EventPosOf(w), n, c);
      EverExactly(w, c.contract);
      NewExactly(w, n, c.contract);
    }
  }

  lemma FollowsThenLocal(w: World)
    requires UniqueTxids(w) && LedgerFollows(w)
    ensures LedgerLocal(PlanOf(w))
  {
    forall n: nat, c: Cell | n < |w.chain| && Tracked(All(PlanOf(w)), c) && ChangedBy(PlanOf(w), n, c)
      ensures NamedIn(PlanOf(w), n + 1, c) || IntroducedIn(PlanOf(w), n + 1, c)
    {
      assert Changes(w, n + 1, c);
      ExplainsExactly(w, n + 1, c);
    }
  }

  lemma LocalThenFollows(w: World)
    requires UniqueTxids(w) && LedgerLocal(PlanOf(w))
    ensures LedgerFollows(w)
  {
    forall n: nat, c: Cell | n <= |w.chain| && Changes(w, n, c) ensures Explains(w, n, c) {
      assert ChangedBy(PlanOf(w), n - 1, c);
      ExplainsExactly(w, n, c);
    }
  }

  /** What convergence asks of the ledger is just that. */
  lemma LedgerExactly(w: World)
    requires UniqueTxids(w)
    ensures LedgerFollows(w) <==> LedgerLocal(PlanOf(w))
  {
    if LedgerFollows(w) {
      FollowsThenLocal(w);
    } else if LedgerLocal(PlanOf(w)) {
      LocalThenFollows(w);
    }
  }

  // ---- balances of addresses catch up ----

  /** Entry k is the first the node lists for the asset. */
  predicate IsListing(assets: seq<AssetInfo>, asset: string, k: nat) {
    k < |assets| && assets[k].id == asset && forall j :: 0 <= j < k ==> assets[j].id != asset
  }

  lemma {:induction false} FirstListed(assets: seq<AssetInfo>, asset: string, k: nat)
    requires IsListing(assets, asset, k)
    ensures PrecisionIn(assets, asset) == Some(assets[k].precision)
  {
    if k > 0 {
      assert forall j :: 0 <= j < k - 1 ==> assets[1..][j] == assets[j + 1];
      FirstListed(assets[1..], asset, k - 1);
    }
  }

  lemma NamedRefreshes(p: Plan, n: nat, h: nat, c: Cell) returns (i: nat)
    requires Proper(p) && 1 <= n <= h <= p.Length() && NamedIn(p, n, c) && c.AddressCell?
    ensures Refreshes(p, i, c) && i < Start(p, h + 1)
  {
    i :| Start(p, n) <= i < Start(p, n + 1) && Names(All(p), i, c);
    RefreshPlace(p, i);
    StartMonotone(p, n + 1, h + 1);
  }

  lemma RefreshedIsStored(p: Plan, s: State, i: nat, c: Cell)
    requires s.head <= p.Length() && Mirrors(p, s) && Refreshes(p, i, c) && i < s.hwm
    ensures c in s.disk.live
  {
  }

  lemma MovedIsStored(p: Plan, acts: seq<Act>, n: nat, c: Cell)
    requires Sound(p) && LedgerLocal(p) && FailStop(acts) && AtHead(After(p, acts), After(p, acts).head)
    requires 1 <= n <= After(p, acts).head <= p.Length() && NamedIn(p, n, c) && c.AddressCell?
    ensures c in After(p, acts).disk.live
  {
    MirrorsAlways(p, acts);
    var i := NamedRefreshes(p, n, After(p, acts).head, c);
    RefreshedIsStored(p, After(p, acts), i, c);
  }

  /** Once a scan with crashes only has nothing left to scan, the balance of an address that some
      block up to the head moves is stored, and it is the node's balance at the head, scaled by
      the precision the node lists for the asset; a balance that is not stored has not changed. */
  lemma BalancesOnChain(w: World, acts: seq<Act>, addr: string, asset: string)
    requires UniqueTxids(w) && EventsFollowRegistration(All(PlanOf(w))) && LedgerFollows(w) && FailStop(acts)
    requires AtHead(After(PlanOf(w), acts), After(PlanOf(w), acts).head)
    ensures var s, c := After(PlanOf(w), acts), AddressCell(addr, asset);
            && (forall n: nat :: 1 <= n <= s.head && MovesIn(w, n, addr, asset) ==> c in s.disk.live)
            && (c in s.disk.live ==> forall k: nat :: IsListing(w.assets, asset, k) ==>
                  s.disk.live[c] == FixedPoint.Scale(w.ledger(s.head, c), w.assets[k].precision))
            && (c !in s.disk.live ==> w.ledger(s.head, c) == w.ledger(0, c))
  {
    var p, s, c := PlanOf(w), After(PlanOf(w), acts), AddressCell(addr, asset);
    PlanProper(w);
    LedgerExactly(w);
    ConvergedAtHead(p, acts, c);
    AddressNeverMissed(p, s.head, c);
    forall n: nat | 1 <= n <= s.head && MovesIn(w, n, addr, asset) ensures c in s.disk.live {
      AskedExactlyMoved(w, n, addr, asset);
      MovedIsStored(p, acts, n, c);
    }
    forall k: nat | IsListing(w.assets, asset, k) ensures PrecisionIn(w.assets, asset) == Some(w.assets[k].precision) {
      FirstListed(w.assets, asset, k);
    }
    assert Current(p, s, c) == Shown(w, c, w.ledger(s.head, c));
  }

  /** The same for the numbers of token contracts, lost ones excepted: what is stored is what the
      node says at its head, and a balance that is not stored has not changed. */
  lemma NumbersOnChain(w: World, acts: seq<Act>, c: Cell)
    requires UniqueTxids(w) && EventsFollowRegistration(All(PlanOf(w))) && LedgerFollows(w) && FailStop(acts)
    requires AtHead(After(PlanOf(w), acts), After(PlanOf(w), acts).head) && !c.AddressCell?
    ensures var s := After(PlanOf(w), acts);
            !Lost(LogOf(w), |w.chain|, s.head, c) ==>
              && (c in s.disk.live ==> s.disk.live[c] == w.ledger(s.head, c))
              && (c !in s.disk.live && c.TokenCell? && RegisteredBy(w, |w.chain|, c.contract) ==>
                    w.ledger(s.head, c) == w.ledger(0, c))
  {
    LedgerExactly(w);
    if Stale(PlanOf(w), After(PlanOf(w), acts), c) {
      StaleWasLost(w, acts, c);
    } else {
      EverExactly(w, c.contract);
      NotStale(PlanOf(w), After(PlanOf(w), acts), c);
      TokenShown(w, c);
    }
  }

  /** Token numbers are stored as they are. */
  lemma TokenShown(w: World, c: Cell)
    requires !c.AddressCell?
    ensures forall n :: PlanOf(w).shown(c, n) == n
  {
  }

  lemma NotStale(p: Plan, s: State, c: Cell)
    requires !Stale(p, s, c)
    ensures c in s.disk.live ==> s.disk.live[c] == p.shown(c, p.ledger(s.head, c))
    ensures c !in s.disk.live && c.TokenCell? && RegisteredBefore(All(p), |All(p)|, c.contract) ==>
              p.ledger(s.head, c) == p.ledger(0, c)
  {
  }

  // ---- supplies are there from the start ----

  /** The node answers every query. */
  predicate AllAnswered(acts: seq<Act>) {
    forall i :: 0 <= i < |acts| && acts[i].Tick? ==> acts[i].answered
  }

  /** Every token contract has its supply stored, and a registration that waits has an answer. */
  ghost predicate SuppliesThere(s: State) {
    && (forall contract :: contract in s.disk.tables.tokens ==> SupplyCell(contract) in s.disk.live)
    && !s.answer.NoNumber?
  }

  ghost predicate SuppliesIn(tokens: set<string>, live: set<Cell>) {
    forall contract :: contract in tokens ==> SupplyCell(contract) in live
  }

  lemma SupplySaved(p: Plan, s: State, contract: string, row: TokenRow)
    requires SuppliesThere(s)
    ensures var o := DoToken(p, s, contract, row, true);
            SuppliesIn(o.disk.tables.tokens.Keys, o.disk.live.Keys) && !o.answer.NoNumber?
  {
    TokenTables(p, s, contract, row, true);
  }

  lemma TokensKept(p: Plan, s: State, i: Instr)
    requires !i.SaveToken?
    ensures Execute(p, s, i, true).disk.tables.tokens == s.disk.tables.tokens
  {
    if i.InsertOp? {
      InsertTables(p, s, i, true);
    } else {
      EffectTables(p, s, i, true);
      assert Effect(s.disk.tables, i).tokens == s.disk.tables.tokens;
    }
  }

  lemma SupplyKept(p: Plan, s: State, i: Instr)
    requires SuppliesThere(s) && !i.SaveToken?
    ensures var o := Execute(p, s, i, true);
            s.disk.live.Keys <= o.disk.live.Keys && !o.answer.NoNumber?
  {
    match i
    case Refresh(c, guard, _) => assert s.disk.live.Keys <= DoRefresh(p, s, c, guard, true).disk.live.Keys;
    case _ =>
  }

  lemma SupplyTick(p: Plan, s: State)
    requires s.todo != [] && SuppliesThere(s)
    ensures SuppliesThere(RunInstr(p, s, true))
  {
    var i := s.todo[0];
    if i.SaveToken? {
      SupplySaved(p, s, i.contract, i.token);
    } else {
      TokensKept(p, s, i);
      SupplyKept(p, s, i);
    }
    assert SuppliesIn(Execute(p, s, i, true).disk.tables.tokens.Keys, Execute(p, s, i, true).disk.live.Keys);
  }

  /** If the node answers, a token contract has its supply from its registration on, whatever
      crashes there are. */
  lemma {:induction false} SuppliesStored(p: Plan, acts: seq<Act>)
    requires FailStop(acts) && AllAnswered(acts)
    ensures SuppliesThere(After(p, acts))
  {
    if acts != [] {
      var before := acts[..|acts| - 1];
      SuppliesStored(p, before);
      if acts[|acts| - 1].Tick? && After(p, before).todo != [] {
        SupplyTick(p, After(p, before));
      }
    }
  }
}
