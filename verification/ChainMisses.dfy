/** Which numbers are missed, read off the chain: those whose events since some block all belong
    to operations that had no history row that fits. */
module ChainMisses {
  import opened Wrappers
  import opened Chain
  import opened Tables
  import opened Readings
  import opened Script
  import opened Plans
  import opened BlockFacts
  import opened Collect
  import opened Machine
  import opened Replay
  import opened Confluence
  import opened Convergence
  import opened Misses
  import opened FirstWriters
  import opened EventLog

  // ---- the specification, with no reference to scripts ----

  /** The event tells that the number may have changed. */
  predicate Tells(e: Event, c: Cell) {
    match c
    case AddressCell(_, _) => false
    case TokenCell(contract, owner) =>
      e.contract == contract && IsTransfer(e) && owner != "" && owner in {e.arg.value.from, e.arg.value.to}
    case SupplyCell(contract) =>
      e.contract == contract
      && (e.name == "Inited" || (IsTransfer(e) && "" in {e.arg.value.from, e.arg.value.to}))
  }

  predicate TellsAt(log: EventMap, x: Spot, c: Cell) {
    log.event(x).Some? && Tells(log.event(x).value, c)
  }

  /** A decodable Transfer of a contract that is registered on the chain of that many blocks,
      with a row that fits. */
  ghost predicate Records(log: EventMap, blocks: nat, x: Spot) {
    && log.event(x).Some? && IsTransfer(log.event(x).value)
    && log.registered(blocks, log.event(x).value.contract)
    && exists row :: IsRowOf(row, x.n, log.event(x).value) && HistoryFits(log.key(x), row)
  }

  /** The event, or an earlier one of its operation, records a history row. */
  ghost predicate Recorded(log: EventMap, blocks: nat, x: Spot) {
    exists k: nat :: k <= x.k && Records(log, blocks, x.(k := k))
  }

  /** The event gets the node asked: an Inited event always does, and a Transfer once the
      operation has a history row. */
  ghost predicate Asks(log: EventMap, blocks: nat, x: Spot) {
    log.event(x).Some? && (log.event(x).value.name == "Inited" || Recorded(log, blocks, x))
  }

  ghost predicate ToldIn(log: EventMap, n: nat, c: Cell) {
    exists x: Spot :: x.n == n && TellsAt(log, x, c)
  }

  ghost predicate NeverAsked(log: EventMap, blocks: nat, n: nat, h: nat, c: Cell) {
    forall x: Spot :: n <= x.n <= h && TellsAt(log, x, c) ==> !Asks(log, blocks, x)
  }

  /** Block n tells about the number of a token contract, but from there to block h no event that
      does so gets the node asked, nor does a new supply. */
  ghost predicate LostIn(log: EventMap, blocks: nat, n: nat, h: nat, c: Cell)
    requires n > 0 && !c.AddressCell?
  {
    && ToldIn(log, n, c) && NeverAsked(log, blocks, n, h, c)
    && log.registered(blocks, c.contract)
    && (c.SupplyCell? ==> log.registered(n - 1, c.contract))
  }

  ghost predicate Lost(log: EventMap, blocks: nat, h: nat, c: Cell)
    requires !c.AddressCell?
  {
    exists n: nat :: 1 <= n <= h && LostIn(log, blocks, n, h, c)
  }

  // ---- what an event's instructions are ----

  /** A refresh of the number of the token contract, under the event's guard. */
  predicate IsRefresh(i: Instr, c: Cell, guard: Guard) {
    i.Refresh? && i.cell == c && i.guard == guard
  }

  function EventGuard(num: nat, key: ReceiptKey, e: Event): Guard {
    if IsTransfer(e) then TransferGuard(key, HistoryOf(num, e, e.arg.value)) else IfToken(e.contract)
  }

  lemma {:induction false} UserInstr(e: Event, arg: TransferArg, guard: Guard, users: seq<string>, r: nat)
    requires r < |users|
    ensures r < |UserRefreshes(e, arg, guard, users)|
    ensures IsRefresh(UserRefreshes(e, arg, guard, users)[r], TokenCell(e.contract, users[r]), guard)
  {
    if r > 0 {
      UserInstr(e, arg, guard, users[1..], r - 1);
    }
  }

  lemma {:induction false} UsersCount(e: Event, arg: TransferArg, guard: Guard, users: seq<string>)
    ensures |users| == |UserRefreshes(e, arg, guard, users)|
  {
    if users != [] {
      UsersCount(e, arg, guard, users[1..]);
    }
  }

  /** The first instruction of a Transfer offers its history row; all others refresh numbers
      that the event tells about. */
  lemma InstrOf(num: nat, txid: string, index: nat, e: Event, r: nat)
    requires r < |EventScript(num, txid, index, e)|
    ensures var i, key := EventScript(num, txid, index, e)[r], ReceiptKey(txid, index);
            if IsTransfer(e) && r == 0 then i == SaveHistory(key, HistoryOf(num, e, e.arg.value))
            else i.Refresh? && i.guard == EventGuard(num, key, e) && Tells(e, i.cell)
  {
    if IsTransfer(e) && r > 0 {
      var arg, guard := e.arg.value, EventGuard(num, ReceiptKey(txid, index), e);
      var users := UserRefreshes(e, arg, guard, UsersToUpdate(arg));
      UsersCount(e, arg, guard, UsersToUpdate(arg));
      if r <= |users| {
        UserInstr(e, arg, guard, UsersToUpdate(arg), r - 1);
      }
    }
  }

  /** Every number the event tells about is refreshed by one of its instructions. */
  lemma ToldRefreshed(num: nat, txid: string, index: nat, e: Event, c: Cell) returns (r: nat)
    requires Tells(e, c)
    ensures r < |EventScript(num, txid, index, e)| && (IsTransfer(e) ==> r > 0)
    ensures EventScript(num, txid, index, e)[r].Refresh? && EventScript(num, txid, index, e)[r].cell == c
  {
    r := 0;
    if IsTransfer(e) {
      var arg, guard := e.arg.value, EventGuard(num, ReceiptKey(txid, index), e);
      var users := UsersToUpdate(arg);
      UsersCount(e, arg, guard, users);
      r := 1 + |users|;
      if c.TokenCell? {
        var u: nat :| u < |users| && users[u] == c.owner;
        UserInstr(e, arg, guard, users, u);
        r := 1 + u;
      }
    }
  }

  // ---- when an operation has a history row ----

  /** Instruction r of event x, seen from the whole script. */
  lemma InstrAt(p: Plan, log: EventMap, pos: Spot -> nat, x: Spot, r: nat)
    requires EventsLaid(p, log, pos) && log.event(x).Some? && r < |Instrs(log, x)|
    ensures pos(x) + r < |All(p)| && All(p)[pos(x) + r] == Instrs(log, x)[r]
    ensures var i, e := Instrs(log, x)[r], log.event(x).value;
            if IsTransfer(e) && r == 0 then i == SaveHistory(log.key(x), HistoryOf(x.n, e, e.arg.value))
            else i.Refresh? && i.guard == EventGuard(x.n, log.key(x), e) && Tells(e, i.cell)
  {
    assert EventStands(p, log, pos, x);
    InstrOf(x.n, log.key(x).txid, x.o, log.event(x).value, r);
  }

  lemma EverRegistered(p: Plan, log: EventMap, pos: Spot -> nat, contract: string)
    requires EventsLaid(p, log, pos)
    ensures RegisteredBefore(All(p), |All(p)|, contract) <==> log.registered(p.Length(), contract)
  {
    assert KnowsToken(p, log, p.Length(), contract);
  }

  /** The instruction offers a history row under the key, and the row will be taken. */
  predicate OffersRow(a: seq<Instr>, j: int, key: ReceiptKey) {
    && 0 <= j < |a| && a[j].SaveHistory? && a[j].hkey == key
    && RegisteredBefore(a, |a|, a[j].hrow.contract) && HistoryFits(key, a[j].hrow)
  }

  lemma RecordedBefore(a: seq<Instr>, i: nat, key: ReceiptKey)
    requires EventsFollowRegistration(a) && i <= |a|
    ensures key in Replayed(a[..i]).history <==> exists j :: j < i && OffersRow(a, j, key)
  {
    var f := x => TransferPut(a, x);
    HistoryCollected(a, i);
    KeyExactly(a[..i], f, key);
    if j :| Offers(a[..i], f, j, key) {
      assert OffersRow(a, j, key);
    }
    if j :| j < i && OffersRow(a, j, key) {
      assert Offers(a[..i], f, j, key);
    }
  }

  /** A row offered under an operation's key comes from an event of that operation. */
  lemma OfferRecords(p: Plan, log: EventMap, pos: Spot -> nat, j: nat, x: Spot, r: nat) returns (k: nat)
    requires EventsLaid(p, log, pos) && log.event(x).Some? && r < |Instrs(log, x)| && j < pos(x) + r
    requires OffersRow(All(p), j, log.key(x))
    ensures k <= x.k && Records(log, p.Length(), x.(k := k))
  {
    assert OfSomeEvent(log, pos, j);
    var y :| log.event(y).Some? && pos(y) <= j < pos(y) + |Instrs(log, y)|;
    InstrAt(p, log, pos, y, j - pos(y));
    assert Ordered(log, pos, x, y);
    EverRegistered(p, log, pos, log.event(y).value.contract);
    k := y.k;
  }

  lemma RecordOffers(p: Plan, log: EventMap, pos: Spot -> nat, y: Spot, x: Spot, r: nat)
    requires EventsLaid(p, log, pos) && log.event(x).Some? && Records(log, p.Length(), y)
    requires y == x.(k := y.k) && y.k <= x.k
    requires r < |Instrs(log, x)| && Instrs(log, x)[r].Refresh?
    ensures pos(y) < pos(x) + r && OffersRow(All(p), pos(y), log.key(x))
  {
    assert Ordered(log, pos, y, x);
    InstrAt(p, log, pos, y, 0);
    EverRegistered(p, log, pos, log.event(y).value.contract);
  }

  lemma RecordedBy(p: Plan, log: EventMap, pos: Spot -> nat, x: Spot, r: nat)
    requires EventsLaid(p, log, pos) && EventsFollowRegistration(All(p)) && log.event(x).Some? && r < |Instrs(log, x)|
    requires pos(x) + r <= |All(p)| && log.key(x) in Ideal(p, pos(x) + r).history
    ensures Recorded(log, p.Length(), x)
  {
    RecordedBefore(All(p), pos(x) + r, log.key(x));
    var j: nat :| j < pos(x) + r && OffersRow(All(p), j, log.key(x));
    var k := OfferRecords(p, log, pos, j, x, r);
  }

  /** When an event refreshes a number, its operation has a history row in the ideal pass exactly
      if the event or an earlier one of the operation records one. */
  lemma RecordedExactly(p: Plan, log: EventMap, pos: Spot -> nat, x: Spot, r: nat)
    requires EventsLaid(p, log, pos) && EventsFollowRegistration(All(p))
    requires log.event(x).Some? && r < |Instrs(log, x)| && Instrs(log, x)[r].Refresh?
    ensures pos(x) + r <= |All(p)|
    ensures log.key(x) in Ideal(p, pos(x) + r).history <==> Recorded(log, p.Length(), x)
  {
    InstrAt(p, log, pos, x, r);
    if log.key(x) in Ideal(p, pos(x) + r).history {
      RecordedBy(p, log, pos, x, r);
    }
    if Recorded(log, p.Length(), x) {
      var k: nat :| k <= x.k && Records(log, p.Length(), x.(k := k));
      RecordOffers(p, log, pos, x.(k := k), x, r);
      RecordedBefore(All(p), pos(x) + r, log.key(x));
    }
  }

  // ---- which instructions name and ask for a number ----

  lemma NamesExactly(p: Plan, log: EventMap, pos: Spot -> nat, x: Spot, r: nat, c: Cell)
    requires EventsLaid(p, log, pos) && log.event(x).Some? && r < |Instrs(log, x)| && !c.AddressCell?
    ensures Names(All(p), pos(x) + r, c)
            <==> Instrs(log, x)[r].Refresh? && Instrs(log, x)[r].cell == c && log.registered(p.Length(), c.contract)
    ensures Names(All(p), pos(x) + r, c) ==> Tells(log.event(x).value, c)
  {
    InstrAt(p, log, pos, x, r);
    EverRegistered(p, log, pos, c.contract);
  }

  lemma AsksExactly(p: Plan, log: EventMap, pos: Spot -> nat, x: Spot, r: nat, c: Cell)
    requires EventsLaid(p, log, pos) && EventsFollowRegistration(All(p))
    requires log.event(x).Some? && r < |Instrs(log, x)| && !c.AddressCell?
    requires Names(All(p), pos(x) + r, c)
    ensures Refreshes(p, pos(x) + r, c) <==> Asks(log, p.Length(), x)
  {
    InstrAt(p, log, pos, x, r);
    NamesExactly(p, log, pos, x, r, c);
    RecordedExactly(p, log, pos, x, r);
    if IsTransfer(log.event(x).value) && Instrs(log, x)[r].guard.IfToken? {
      assert x == x.(k := x.k) && Records(log, p.Length(), x);
    }
  }

  /** An instruction that names the number belongs to an event that tells about it. */
  lemma NamedByEvent(p: Plan, log: EventMap, pos: Spot -> nat, i: nat, c: Cell) returns (x: Spot)
    requires EventsLaid(p, log, pos) && !c.AddressCell? && Names(All(p), i, c)
    ensures TellsAt(log, x, c) && pos(x) <= i < pos(x) + |Instrs(log, x)|
    ensures log.registered(p.Length(), c.contract)
    ensures 1 <= x.n <= p.Length() && Start(p, x.n) <= i < Start(p, x.n + 1)
  {
    assert OfSomeEvent(log, pos, i);
    x :| log.event(x).Some? && pos(x) <= i < pos(x) + |Instrs(log, x)|;
    NamesExactly(p, log, pos, x, i - pos(x), c);
    assert EventStands(p, log, pos, x);
  }

  lemma EventNames(p: Plan, log: EventMap, pos: Spot -> nat, x: Spot, c: Cell) returns (r: nat)
    requires EventsLaid(p, log, pos) && TellsAt(log, x, c) && log.registered(p.Length(), c.contract)
    ensures r < |Instrs(log, x)| && Names(All(p), pos(x) + r, c)
    ensures 1 <= x.n <= p.Length() && Start(p, x.n) <= pos(x) + r < Start(p, x.n + 1)
  {
    r := ToldRefreshed(x.n, log.key(x).txid, x.o, log.event(x).value, c);
    NamesExactly(p, log, pos, x, r, c);
    assert EventStands(p, log, pos, x);
  }

  lemma OneBlock(p: Plan, i: nat, m: nat, n: nat)
    requires 1 <= m <= p.Length() && 1 <= n <= p.Length()
    requires Start(p, m) <= i < Start(p, m + 1) && Start(p, n) <= i < Start(p, n + 1)
    ensures m == n
  {
    if m < n {
      StartMonotone(p, m + 1, n);
    } else if n < m {
      StartMonotone(p, n + 1, m);
    }
  }

  /** A block names the number exactly if one of its events tells about it. */
  lemma NamedExactly(p: Plan, log: EventMap, pos: Spot -> nat, n: nat, c: Cell)
    requires EventsLaid(p, log, pos) && 1 <= n <= p.Length() && !c.AddressCell?
    ensures NamedIn(p, n, c) <==> log.registered(p.Length(), c.contract) && ToldIn(log, n, c)
  {
    if i: nat :| Start(p, n) <= i < Start(p, n + 1) && Names(All(p), i, c) {
      var x := NamedByEvent(p, log, pos, i, c);
      OneBlock(p, i, n, x.n);
    }
    if x: Spot :| log.registered(p.Length(), c.contract) && x.n == n && TellsAt(log, x, c) {
      var r := EventNames(p, log, pos, x, c);
    }
  }

  lemma NoEventAsks(p: Plan, log: EventMap, pos: Spot -> nat, n: nat, h: nat, c: Cell)
    requires EventsLaid(p, log, pos) && EventsFollowRegistration(All(p)) && 1 <= n <= h <= p.Length()
    requires !c.AddressCell? && log.registered(p.Length(), c.contract)
    requires forall i :: Start(p, n) <= i < Start(p, h + 1) ==> !Refreshes(p, i, c)
    ensures NeverAsked(log, p.Length(), n, h, c)
  {
    forall x: Spot | n <= x.n <= h && TellsAt(log, x, c) ensures !Asks(log, p.Length(), x) {
      var r := EventNames(p, log, pos, x, c);
      StartMonotone(p, n, x.n);
      StartMonotone(p, x.n + 1, h + 1);
      AsksExactly(p, log, pos, x, r, c);
    }
  }

  /** In blocks n to h no instruction asks for the number exactly if no event there gets the node
      asked. */
  lemma AskedExactly(p: Plan, log: EventMap, pos: Spot -> nat, n: nat, h: nat, c: Cell)
    requires EventsLaid(p, log, pos) && EventsFollowRegistration(All(p)) && 1 <= n <= h <= p.Length()
    requires !c.AddressCell? && log.registered(p.Length(), c.contract)
    ensures NeverAsked(log, p.Length(), n, h, c)
            <==> forall i :: Start(p, n) <= i < Start(p, h + 1) ==> !Refreshes(p, i, c)
  {
    if NeverAsked(log, p.Length(), n, h, c) {
      forall i: nat | Start(p, n) <= i < Start(p, h + 1) && Names(All(p), i, c) ensures !Refreshes(p, i, c) {
        var x := NamedByEvent(p, log, pos, i, c);
        BlockWithin(p, i, n, h, x.n);
        AsksExactly(p, log, pos, x, i - pos(x), c);
      }
    } else if forall i :: Start(p, n) <= i < Start(p, h + 1) ==> !Refreshes(p, i, c) {
      NoEventAsks(p, log, pos, n, h, c);
    }
  }

  lemma BlockWithin(p: Plan, i: nat, n: nat, h: nat, m: nat)
    requires 1 <= n <= h <= p.Length() && 1 <= m <= p.Length()
    requires Start(p, n) <= i < Start(p, h + 1) && Start(p, m) <= i < Start(p, m + 1)
    ensures n <= m <= h
  {
    if m < n {
      StartMonotone(p, m + 1, n);
    } else if h < m {
      StartMonotone(p, h + 1, m);
    }
  }

  /** A supply named in block n is introduced from there on exactly if it is not known before. */
  lemma IntroducedExactly(p: Plan, log: EventMap, pos: Spot -> nat, n: nat, h: nat, contract: string)
    requires EventsLaid(p, log, pos) && Sound(p) && 1 <= n <= h <= p.Length() && NamedIn(p, n, SupplyCell(contract))
    ensures log.registered(n - 1, contract)
            <==> forall i :: Start(p, n) <= i < Start(p, h + 1) ==> !Introduces(All(p), i, SupplyCell(contract))
  {
    var a := All(p);
    assert KnowsToken(p, log, n - 1, contract);
    if RegisteredBefore(a, Start(p, n), contract) {
      forall i | Start(p, n) <= i < Start(p, h + 1) ensures !Introduces(a, i, SupplyCell(contract)) {
        if i < |a| {
          RegisteredLater(a, Start(p, n), i, contract);
        }
      }
    } else {
      var i :| Start(p, n) <= i < Start(p, n + 1) && Names(a, i, SupplyCell(contract));
      StartMonotone(p, n + 1, h + 1);
      RefreshPlace(p, i);
      assert Needed(a[i]) == Some(contract);
      var j := FirstRegistration(a, i, contract);
      assert Introduces(a, j, SupplyCell(contract));
    }
  }

  /** What is missed according to the plan is what is lost according to the log. */
  lemma MissedIsLost(p: Plan, log: EventMap, pos: Spot -> nat, h: nat, c: Cell)
    requires EventsLaid(p, log, pos) && Sound(p) && h <= p.Length() && !c.AddressCell?
    ensures Missed(p, h, c) <==> Lost(log, p.Length(), h, c)
  {
    forall n: nat | 1 <= n <= h
      ensures NamedIn(p, n, c) && Unasked(p, n, h, c) <==> LostIn(log, p.Length(), n, h, c)
    {
      NamedExactly(p, log, pos, n, c);
      if NamedIn(p, n, c) {
        AskedExactly(p, log, pos, n, h, c);
        if c.SupplyCell? {
          IntroducedExactly(p, log, pos, n, h, c.contract);
        }
      }
    }
  }

  /** The numbers missed up to block h, read off the chain: a token balance or a supply is missed
      if and only if, from some block that tells about it on, no event that does so gets the node
      asked (and, for a supply, the contract was registered before). */
  lemma MissedOnChain(w: World, h: nat, c: Cell)
    requires UniqueTxids(w) && EventsFollowRegistration(All(PlanOf(w))) && h <= |w.chain| && !c.AddressCell?
    ensures Missed(PlanOf(w), h, c) <==> Lost(LogOf(w), |w.chain|, h, c)
  {
    PlanProper(w);
    LogLaid(w);
    MissedIsLost(PlanOf(w), LogOf(w), EventPosOf(w), h, c);
  }

  /** Nothing else goes out of date: whatever is stale with nothing left to scan was lost on the
      chain. */
  lemma StaleWasLost(w: World, acts: seq<Act>, c: Cell)
    requires UniqueTxids(w) && EventsFollowRegistration(All(PlanOf(w))) && LedgerLocal(PlanOf(w)) && FailStop(acts)
    requires AtHead(After(PlanOf(w), acts), After(PlanOf(w), acts).head)
    requires Stale(PlanOf(w), After(PlanOf(w), acts), c)
    ensures !c.AddressCell? && Lost(LogOf(w), |w.chain|, After(PlanOf(w), acts).head, c)
  {
    var p := PlanOf(w);
    var h := After(p, acts).head;
    PlanProper(w);
    ConvergedAtHead(p, acts, c);
    if c.AddressCell? {
      AddressNeverMissed(p, h, c);
    } else {
      MissedOnChain(w, h, c);
    }
  }

  /** And on a chain that the scanner can keep level with, every lost number does for some
      ledger. */
  lemma LostExactly(w: World, h: nat, c: Cell)
    requires UniqueTxids(w) && EventsFollowRegistration(All(PlanOf(w))) && h <= |w.chain| && !c.AddressCell?
    requires forall n {:trigger StepLedger(c, n)} :: Followable(WithLedger(PlanOf(w), StepLedger(c, n)), h)
    ensures Lost(LogOf(w), |w.chain|, h, c) <==> exists ledger :: GoesStale(WithLedger(PlanOf(w), ledger), h, c)
  {
    PlanProper(w);
    MissedOnChain(w, h, c);
    assert PlanOf(w).shown(c, 0) == 0 && PlanOf(w).shown(c, 1) == 1;
    MissedExactly(PlanOf(w), h, c);
  }
}
