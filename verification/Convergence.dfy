/** The rows that mirror live numbers of the node (address balances, token balances, total
    supplies) catch up with its ledger: a stored number can be out of date only while an
    instruction that will ask for it again is still ahead, or if it was missed. */
module Convergence {
  import opened Wrappers
  import opened Chain
  import opened Tables
  import opened Script
  import opened Plans
  import opened Machine
  import opened Invariant
  import opened Replay
  import opened Confluence

  /** Instruction i names c: an operation, a deposit, or an event of a contract that the chain
      registers. */
  predicate Names(a: seq<Instr>, i: int, c: Cell) {
    && 0 <= i < |a| && a[i].Refresh? && a[i].cell == c
    && (!a[i].guard.Always? ==> RegisteredBefore(a, |a|, a[i].guard.contract))
  }

  /** Instruction i will ask the node for c again: it names c, and an event whose history row
      does not fit finds that its operation has one already. */
  predicate Refreshes(p: Plan, i: int, c: Cell) {
    Names(All(p), i, c) && (All(p)[i].guard.IfRecorded? ==> All(p)[i].guard.key in Ideal(p, i).history)
  }

  /** Instruction i is the first registration of the contract whose supply c is. */
  predicate Introduces(a: seq<Instr>, i: int, c: Cell) {
    0 <= i < |a| && c.SupplyCell? && Registers(a[i], c.contract) && !RegisteredBefore(a, i, c.contract)
  }

  /** Numbers of contracts that never become tokens are not mirrored. */
  predicate Tracked(a: seq<Instr>, c: Cell) {
    match c
    case AddressCell(_, _) => true
    case TokenCell(contract, _) => RegisteredBefore(a, |a|, contract)
    case SupplyCell(contract) => RegisteredBefore(a, |a|, contract)
  }

  predicate NamedIn(p: Plan, n: nat, c: Cell)
    requires 1 <= n <= p.Length()
  {
    exists i :: Start(p, n) <= i < Start(p, n + 1) && Names(All(p), i, c)
  }

  predicate IntroducedIn(p: Plan, n: nat, c: Cell)
    requires 1 <= n <= p.Length()
  {
    exists i :: Start(p, n) <= i < Start(p, n + 1) && Introduces(All(p), i, c)
  }

  /** Blocks n to last, last included, never ask for c. */
  ghost predicate Unasked(p: Plan, n: nat, last: nat, c: Cell)
    requires 1 <= n && last <= p.Length() && n <= last + 1
  {
    forall i :: Start(p, n) <= i < Start(p, last + 1) ==> !Refreshes(p, i, c) && !Introduces(All(p), i, c)
  }

  /** A block up to head names c, but neither it nor a later one asks for it: the history rows
      of all its events that name c did not fit, and the events were left. */
  ghost predicate Missed(p: Plan, head: nat, c: Cell)
    requires head <= p.Length()
  {
    exists n :: 1 <= n <= head && NamedIn(p, n, c) && Unasked(p, n, head, c)
  }

  /** Block n + 1 changes the node's number for c. */
  predicate ChangedBy(p: Plan, n: nat, c: Cell) {
    p.ledger(n + 1, c) != p.ledger(n, c)
  }

  /** The stated assumption on the ledger: a block changes a tracked number only if one of its
      operations or events names it (or registers the contract). */
  ghost predicate LedgerLocal(p: Plan) {
    forall n: nat, c: Cell {:trigger ChangedBy(p, n, c)} ::
      n < p.Length() && Tracked(All(p), c) && ChangedBy(p, n, c) ==> NamedIn(p, n + 1, c) || IntroducedIn(p, n + 1, c)
  }

  /** A refresh of c lies at or after the cursor, in a block the node already has. */
  ghost predicate Pending(p: Plan, s: State, c: Cell)
    requires s.head <= p.Length()
  {
    exists i :: Position(p, s) <= i < Start(p, s.head + 1) && Refreshes(p, i, c)
  }

  function Current(p: Plan, s: State, c: Cell): int {
    p.shown(c, p.ledger(s.head, c))
  }

  /** A stored number is tracked, and current, about to be asked for again, or missed. */
  ghost predicate CellOk(p: Plan, s: State, c: Cell)
    requires s.head <= p.Length() && s.hwm <= |All(p)| && c in s.disk.live
  {
    && Tracked(All(p), c)
    && (c.SupplyCell? ==> RegisteredBefore(All(p), s.hwm, c.contract))
    && (s.disk.live[c] == Current(p, s, c) || Pending(p, s, c) || Missed(p, s.head, c))
  }

  /** The invariant behind convergence. */
  ghost predicate Mirrors(p: Plan, s: State)
    requires s.head <= p.Length()
  {
    && s.hwm <= |All(p)|
    && (forall c :: c in s.disk.live ==> CellOk(p, s, c))
    && (forall i, c :: 0 <= i < s.hwm && Refreshes(p, i, c) ==> c in s.disk.live)
  }

  // ---- a changed number has an explanation ----

  lemma {:induction false} ChangeExplained(p: Plan, h1: nat, h2: nat, c: Cell) returns (n: nat)
    requires LedgerLocal(p) && h1 <= h2 <= p.Length() && Tracked(All(p), c)
    requires p.ledger(h1, c) != p.ledger(h2, c)
    ensures h1 < n <= h2 && (NamedIn(p, n, c) || IntroducedIn(p, n, c))
  {
    if ChangedBy(p, h2 - 1, c) {
      n := h2;
    } else {
      n := ChangeExplained(p, h1, h2 - 1, c);
    }
  }

  /** Blocks h1 + 1 to h2 ask for c. */
  ghost predicate Asked(p: Plan, h1: nat, h2: nat, c: Cell)
    requires h1 <= h2 <= p.Length()
  {
    exists i :: Start(p, h1 + 1) <= i < Start(p, h2 + 1) && Refreshes(p, i, c)
  }

  /** The contract (if c is a supply) was registered before block h1 ended. */
  predicate KnownBy(p: Plan, h1: nat, c: Cell)
    requires h1 <= p.Length()
  {
    c.SupplyCell? ==> Start(p, h1 + 1) <= |All(p)| && RegisteredBefore(All(p), Start(p, h1 + 1), c.contract)
  }

  lemma NotIntroducedAfter(p: Plan, h1: nat, i: int, c: Cell)
    requires h1 <= p.Length() && KnownBy(p, h1, c) && Start(p, h1 + 1) <= i < |All(p)|
    ensures !Introduces(All(p), i, c)
  {
    if c.SupplyCell? {
      RegisteredLater(All(p), Start(p, h1 + 1), i, c.contract);
    }
  }

  /** A block that names c makes it asked for, or missed. */
  lemma NamedAskedOrMissed(p: Plan, h1: nat, n: nat, h2: nat, c: Cell)
    requires h1 < n <= h2 <= p.Length() && NamedIn(p, n, c) && KnownBy(p, h1, c)
    ensures Asked(p, h1, h2, c) || Missed(p, h2, c)
  {
    StartMonotone(p, h1 + 1, n);
    StartMonotone(p, h2 + 1, p.Length() + 1);
    if !Asked(p, h1, h2, c) {
      forall i | Start(p, n) <= i < Start(p, h2 + 1) ensures !Refreshes(p, i, c) && !Introduces(All(p), i, c) {
        NotIntroducedAfter(p, h1, i, c);
      }
      assert Unasked(p, n, h2, c);
    }
  }

  /** If c has changed since block h1, the blocks after h1 ask for it, or it was missed. */
  lemma StaleHasRefresh(p: Plan, h1: nat, h2: nat, c: Cell)
    requires LedgerLocal(p) && h1 <= h2 <= p.Length() && Tracked(All(p), c) && KnownBy(p, h1, c)
    requires p.ledger(h1, c) != p.ledger(h2, c)
    ensures Asked(p, h1, h2, c) || Missed(p, h2, c)
  {
    var n := ChangeExplained(p, h1, h2, c);
    StartMonotone(p, h1 + 1, n);
    StartMonotone(p, n + 1, p.Length() + 1);
    forall i | Start(p, n) <= i < Start(p, n + 1) ensures !Introduces(All(p), i, c) {
      NotIntroducedAfter(p, h1, i, c);
    }
    NamedAskedOrMissed(p, h1, n, h2, c);
  }

  /** The next block asks for a missed number, or it stays missed. */
  lemma MissedAdvances(p: Plan, h: nat, c: Cell)
    requires h < p.Length() && Missed(p, h, c) && KnownBy(p, h, c)
    ensures Asked(p, h, h + 1, c) || Missed(p, h + 1, c)
  {
    var n :| 1 <= n <= h && NamedIn(p, n, c) && Unasked(p, n, h, c);
    StartMonotone(p, h + 2, p.Length() + 1);
    if !Asked(p, h, h + 1, c) {
      forall i | Start(p, n) <= i < Start(p, h + 2) ensures !Refreshes(p, i, c) && !Introduces(All(p), i, c) {
        if i >= Start(p, h + 1) {
          NotIntroducedAfter(p, h, i, c);
        }
      }
      assert Unasked(p, n, h + 1, c);
    }
  }

  /** The number is asked for in blocks the scanner has not come to. */
  lemma AskedIsPending(p: Plan, s: State, h1: nat, c: Cell)
    requires s.head <= p.Length() && h1 <= s.head && Asked(p, h1, s.head, c) && Position(p, s) <= Start(p, h1 + 1)
    ensures Pending(p, s, c)
  {
    var i :| Start(p, h1 + 1) <= i < Start(p, s.head + 1) && Refreshes(p, i, c);
    assert Position(p, s) <= i < Start(p, s.head + 1);
  }

  // ---- steps ----

  lemma PendingKept(p: Plan, s: State, t: State, c: Cell)
    requires Shape(p, s) && Shape(p, t) && Pending(p, s, c)
    requires Position(p, t) <= Position(p, s) && t.head >= s.head
    ensures Pending(p, t, c)
  {
    StartMonotone(p, s.head + 1, t.head + 1);
    var i :| Position(p, s) <= i < Start(p, s.head + 1) && Refreshes(p, i, c);
    assert Position(p, t) <= i < Start(p, t.head + 1);
  }

  lemma AdvanceCell(p: Plan, s: State, t: State, c: Cell)
    requires Proper(p) && LedgerLocal(p) && Shape(p, s) && s.head < p.Length() && Shape(p, t)
    requires t == s.(head := s.head + 1) && c in s.disk.live && s.hwm <= |All(p)| && CellOk(p, s, c)
    ensures CellOk(p, t, c)
  {
    assert Position(p, t) == Position(p, s) <= Start(p, s.head + 1);
    StartMonotone(p, s.head + 1, p.Length() + 1);
    if c.SupplyCell? {
      RegisteredLater(All(p), s.hwm, Start(p, s.head + 1), c.contract);
    }
    if Pending(p, s, c) {
      PendingKept(p, s, t, c);
    } else if Missed(p, s.head, c) {
      MissedAdvances(p, s.head, c);
      if Asked(p, s.head, t.head, c) {
        AskedIsPending(p, t, s.head, c);
      }
    } else if p.ledger(s.head, c) != p.ledger(t.head, c) {
      StaleHasRefresh(p, s.head, t.head, c);
      if Asked(p, s.head, t.head, c) {
        AskedIsPending(p, t, s.head, c);
      }
    }
  }

  lemma MirrorsAdvance(p: Plan, s: State)
    requires Proper(p) && LedgerLocal(p) && Shape(p, s) && Mirrors(p, s) && s.head < p.Length()
    ensures var t := s.(head := s.head + 1); Shape(p, t) && Mirrors(p, t)
  {
    var t := s.(head := s.head + 1);
    ShapeStep(p, s, NodeAdvance);
    forall c | c in t.disk.live ensures CellOk(p, t, c) {
      AdvanceCell(p, s, t, c);
    }
  }

  lemma HistoryGrows(p: Plan, i: nat, n: nat)
    requires i <= n <= |All(p)|
    ensures Ideal(p, i).history.Keys <= Ideal(p, n).history.Keys
  {
    var a, keys := All(p), Ideal(p, i).history.Keys;
    var holds := (d: Tables) => keys <= d.history.Keys;
    forall d, j | 0 <= j < |a| && holds(d) ensures holds(EffectOf()(d, a[j])) {
      HistoryKept(d, a[j]);
    }
    Lasts(a, EffectOf(), holds, i, n);
  }

  lemma HistoryKept(d: Tables, i: Instr)
    ensures d.history.Keys <= Effect(d, i).history.Keys
  {
  }

  /** An instruction that refreshes a number in the ideal pass is open whenever it is executed. */
  lemma RefreshesOpen(p: Plan, i: nat, n: nat, c: Cell)
    requires Sound(p) && i <= n <= |All(p)| && i < |All(p)| && Refreshes(p, i, c)
    requires All(p)[i].guard.Always? || GuardFits(All(p)[i].guard, All(p)[i].guard.contract)
    ensures Open(Ideal(p, n), All(p)[i].guard)
  {
    var a, guard := All(p), All(p)[i].guard;
    if !guard.Always? {
      assert Needed(a[i]) == Some(guard.contract);
      RegisteredLater(a, i, n, guard.contract);
      TokensReplayed(a, n, guard.contract);
      HistoryGrows(p, i, n);
    }
  }

  /** A refresh whose guard is closed now is none of those. */
  lemma ClosedNeverRefreshes(p: Plan, s: State, c: Cell)
    requires Sound(p) && Shape(p, s) && Confluent(p, s, true) && !s.soft && s.todo != []
    requires s.todo[0].Refresh? && !Open(s.disk.tables, s.todo[0].guard)
    ensures !Refreshes(p, Position(p, s), c)
  {
    AtPosition(p, s);
    if Refreshes(p, Position(p, s), c) {
      RefreshesOpen(p, Position(p, s), s.hwm, c);
    }
  }

  lemma OpenRegistered(p: Plan, s: State, contract: string)
    requires Sound(p) && Shape(p, s) && Confluent(p, s, true) && !s.soft && s.todo != []
    requires s.todo[0].Refresh? && GuardFits(s.todo[0].guard, contract) && contract in s.disk.tables.tokens
    ensures RegisteredBefore(All(p), |All(p)|, contract)
    ensures 0 <= Position(p, s) <= |All(p)| && RegisteredBefore(All(p), Position(p, s), contract)
  {
    var a, i := All(p), Position(p, s);
    AtPosition(p, s);
    TokensReplayed(a, s.hwm, contract);
    RegisteredLater(a, s.hwm, |a|, contract);
    assert Needed(a[i]) == Some(contract);
  }

  /** Popping an instruction leaves every number it does not write as pending as before. */
  lemma PopKeepsOthers(p: Plan, s: State, t: State, c: Cell)
    requires Proper(p) && Shape(p, s) && Popped(p, s, t) && Shape(p, t)
    requires Pending(p, s, c) && !Refreshes(p, Position(p, s), c)
    ensures Pending(p, t, c)
  {
    AtPosition(p, s);
    PopPlace(p, s, t);
    var i :| Position(p, s) <= i < Start(p, s.head + 1) && Refreshes(p, i, c);
    assert Position(p, t) <= i < Start(p, t.head + 1);
  }

  /** What one popped instruction did to the live numbers: nothing, or it stored for its own
      cell the number the node gave at block h, at or past the block being scanned. */
  predicate Stored(p: Plan, s: State, live: map<Cell, int>, c: Cell, h: nat) {
    && s.cursor <= h <= s.head
    && live == s.disk.live[c := p.shown(c, p.ledger(h, c))]
  }

  lemma PopIdle(p: Plan, s: State, t: State)
    requires Sound(p) && Shape(p, s) && Mirrors(p, s) && Popped(p, s, t) && Shape(p, t) && t.hwm <= |All(p)|
    requires t.disk.live == s.disk.live
    requires forall c :: !Refreshes(p, Position(p, s), c)
    ensures Mirrors(p, t)
  {
    forall c | c in t.disk.live ensures CellOk(p, t, c) {
      OtherCell(p, s, t, c);
    }
    NoNewRefresh(p, s, t);
  }

  /** Raising the mark over an instruction that is no refresh adds no refreshed number. */
  lemma NoNewRefresh(p: Plan, s: State, t: State)
    requires Proper(p) && Shape(p, s) && Mirrors(p, s) && s.todo != []
    requires t.hwm <= |All(p)| && t.hwm <= Reached(p, s)
    requires forall c :: !Refreshes(p, Position(p, s), c)
    ensures forall i, c :: 0 <= i < t.hwm && Refreshes(p, i, c) ==> c in s.disk.live
  {
  }

  /** A number that the popped instruction neither wrote nor refreshes. */
  lemma OtherCell(p: Plan, s: State, t: State, c: Cell)
    requires Proper(p) && Shape(p, s) && Popped(p, s, t) && Shape(p, t) && s.hwm <= t.hwm <= |All(p)|
    requires c in s.disk.live && CellOk(p, s, c) && c in t.disk.live && t.disk.live[c] == s.disk.live[c]
    requires !Refreshes(p, Position(p, s), c)
    ensures CellOk(p, t, c)
  {
    if c.SupplyCell? {
      RegisteredLater(All(p), s.hwm, t.hwm, c.contract);
    }
    if Pending(p, s, c) {
      PopKeepsOthers(p, s, t, c);
    }
  }

  /** The number just stored is the node's, or will be asked for again, or is missed. */
  lemma StoredIsCurrent(p: Plan, s: State, t: State, c: Cell, h: nat)
    requires Sound(p) && LedgerLocal(p) && Shape(p, s)
    requires Popped(p, s, t) && Shape(p, t)
    requires s.cursor <= h <= s.head && Tracked(All(p), c)
    requires 0 <= Position(p, s) < |All(p)|
    requires c.SupplyCell? ==> RegisteredBefore(All(p), Position(p, s) + 1, c.contract)
    requires p.ledger(h, c) != p.ledger(s.head, c)
    ensures Pending(p, t, c) || Missed(p, t.head, c)
  {
    var a := All(p);
    AtPosition(p, s);
    PopPlace(p, s, t);
    StartMonotone(p, s.cursor + 1, h + 1);
    StartMonotone(p, h + 1, p.Length() + 1);
    if c.SupplyCell? {
      RegisteredLater(a, Position(p, s) + 1, Start(p, h + 1), c.contract);
    }
    StaleHasRefresh(p, h, s.head, c);
    if Asked(p, h, t.head, c) {
      AskedIsPending(p, t, h, c);
    }
  }

  lemma PopStored(p: Plan, s: State, t: State, c: Cell, h: nat)
    requires Sound(p) && LedgerLocal(p) && Shape(p, s) && Mirrors(p, s)
    requires Popped(p, s, t) && Shape(p, t) && t.hwm <= |All(p)|
    requires Stored(p, s, t.disk.live, c, h) && Tracked(All(p), c)
    requires 0 <= Position(p, s) < |All(p)|
    requires c.SupplyCell? ==> RegisteredBefore(All(p), Position(p, s) + 1, c.contract)
    requires forall x :: Refreshes(p, Position(p, s), x) ==> x == c
    ensures Mirrors(p, t)
  {
    assert t.hwm >= Position(p, s) + 1;
    forall x | x in t.disk.live ensures CellOk(p, t, x) {
      if x == c {
        if c.SupplyCell? {
          RegisteredLater(All(p), Position(p, s) + 1, t.hwm, c.contract);
        }
        if p.ledger(h, c) != p.ledger(s.head, c) {
          StoredIsCurrent(p, s, t, c, h);
        }
      } else {
        OtherCell(p, s, t, x);
      }
    }
  }

  /** The three ways a substep of a refresh can go. */
  lemma RefreshOutcome(p: Plan, s: State, answered: bool)
    requires Shape(p, s) && s.todo != [] && s.todo[0].Refresh?
    ensures var o := Execute(p, s, s.todo[0], answered);
            if !Open(s.disk.tables, s.todo[0].guard) then o.done && o.disk == s.disk
            else if !o.done then o.disk == s.disk && !o.effect
            else s.answer.Number? && Stored(p, s, o.disk.live, s.todo[0].cell, s.answer.head)
  {
  }

  lemma RefreshMirrors(p: Plan, s: State, t: State)
    requires Sound(p) && LedgerLocal(p) && Shape(p, s) && Mirrors(p, s) && Confluent(p, s, true) && !s.soft
    requires s.todo != [] && s.todo[0].Refresh?
    requires Shape(p, t) && t.hwm <= |All(p)|
    requires if !Open(s.disk.tables, s.todo[0].guard) then Popped(p, s, t) && t.disk.live == s.disk.live
             else StaysLive(p, s, t)
                  || (s.answer.Number? && Popped(p, s, t) && Stored(p, s, t.disk.live, s.todo[0].cell, s.answer.head))
    ensures Mirrors(p, t)
  {
    var c, guard := s.todo[0].cell, s.todo[0].guard;
    AtPosition(p, s);
    if !Open(s.disk.tables, guard) {
      forall x ensures !Refreshes(p, Position(p, s), x) {
        ClosedNeverRefreshes(p, s, x);
      }
      PopIdle(p, s, t);
    } else if StaysLive(p, s, t) {
      StayMirrors(p, s, t);
    } else {
      assert RefreshFits(c, guard, s.todo[0].cause);
      if !guard.Always? {
        OpenRegistered(p, s, guard.contract);
        RegisteredLater(All(p), Position(p, s), Position(p, s) + 1, guard.contract);
      }
      PopStored(p, s, t, c, s.answer.head);
    }
  }

  /** Nothing that matters to the live numbers moved, except perhaps the cursor back. */
  predicate StaysLive(p: Plan, s: State, t: State) {
    t.disk.live == s.disk.live && t.head == s.head && t.hwm == s.hwm && Position(p, t) <= Position(p, s)
  }

  lemma StayMirrors(p: Plan, s: State, t: State)
    requires Shape(p, s) && Mirrors(p, s) && Shape(p, t)
    requires StaysLive(p, s, t)
    ensures Mirrors(p, t)
  {
    forall c | c in t.disk.live ensures CellOk(p, t, c) {
      if Pending(p, s, c) {
        PendingKept(p, s, t, c);
      }
    }
  }

  /** The three ways a substep of a registration can go. */
  lemma TokenOutcome(p: Plan, s: State, answered: bool)
    requires Shape(p, s) && s.todo != [] && s.todo[0].SaveToken?
    ensures var o := Execute(p, s, s.todo[0], answered);
            if !o.done then o.disk == s.disk && !o.effect
            else || o.disk.live == s.disk.live
                 || (s.answer.Number? && Stored(p, s, o.disk.live, SupplyCell(s.todo[0].contract), s.answer.head))
  {
  }

  lemma TokenMirrors(p: Plan, s: State, t: State)
    requires Sound(p) && LedgerLocal(p) && Shape(p, s) && Mirrors(p, s)
    requires s.todo != [] && s.todo[0].SaveToken?
    requires Shape(p, t) && t.hwm <= |All(p)|
    requires || StaysLive(p, s, t)
             || (Popped(p, s, t) && t.disk.live == s.disk.live)
             || (Popped(p, s, t) && s.answer.Number?
                 && Stored(p, s, t.disk.live, SupplyCell(s.todo[0].contract), s.answer.head))
    ensures Mirrors(p, t)
  {
    var a, contract := All(p), s.todo[0].contract;
    AtPosition(p, s);
    if StaysLive(p, s, t) {
      StayMirrors(p, s, t);
    } else if t.disk.live == s.disk.live {
      PopIdle(p, s, t);
    } else {
      assert Registers(a[Position(p, s)], contract);
      assert RegisteredBefore(a, Position(p, s) + 1, contract);
      RegisteredLater(a, Position(p, s) + 1, |a|, contract);
      PopStored(p, s, t, SupplyCell(contract), s.answer.head);
    }
  }

  /** Any other instruction leaves the live numbers alone. */
  lemma OtherLive(p: Plan, s: State, answered: bool)
    requires s.todo != [] && !s.todo[0].Refresh? && !s.todo[0].SaveToken?
    ensures Execute(p, s, s.todo[0], answered).disk.live == s.disk.live
  {
    match s.todo[0]
    case SaveReceipt(r) => assert DoReceipt(s, r).disk.live == s.disk.live;
    case InsertOp(key, fields) => assert DoInsert(s, key, fields).disk.live == s.disk.live;
    case _ =>
  }

  lemma OtherMirrors(p: Plan, s: State, t: State)
    requires Sound(p) && Shape(p, s) && Mirrors(p, s)
    requires s.todo != [] && !s.todo[0].Refresh? && !s.todo[0].SaveToken?
    requires Shape(p, t) && t.hwm <= |All(p)| && t.disk.live == s.disk.live
    requires Popped(p, s, t) || Stayed(p, s, t)
    ensures Mirrors(p, t)
  {
    AtPosition(p, s);
    if Popped(p, s, t) {
      PopIdle(p, s, t);
    } else {
      ReceiptMarkMirrors(p, s, t);
    }
  }

  /** Staying on an instruction that is no refresh, even with the mark moved past it. */
  lemma ReceiptMarkMirrors(p: Plan, s: State, t: State)
    requires Proper(p) && Shape(p, s) && Mirrors(p, s) && Shape(p, t) && Stayed(p, s, t) && t.hwm <= |All(p)|
    requires s.todo != [] && !s.todo[0].Refresh? && t.disk.live == s.disk.live
    ensures Mirrors(p, t)
  {
    AtPosition(p, s);
    assert Position(p, t) == Position(p, s);
    forall c | c in t.disk.live ensures CellOk(p, t, c) {
      if c.SupplyCell? {
        RegisteredLater(All(p), s.hwm, t.hwm, c.contract);
      }
      if Pending(p, s, c) {
        PendingKept(p, s, t, c);
      }
    }
    NoNewRefresh(p, s, t);
  }

  lemma MirrorsTick(p: Plan, s: State, answered: bool)
    requires Sound(p) && LedgerLocal(p) && Shape(p, s) && Mirrors(p, s) && Confluent(p, s, true) && !s.soft
    requires s.todo != []
    requires Shape(p, RunInstr(p, s, answered)) && RunInstr(p, s, answered).hwm <= |All(p)|
    ensures Mirrors(p, RunInstr(p, s, answered))
  {
    TickMoves(p, s, answered);
    if s.todo[0].Refresh? {
      RefreshOutcome(p, s, answered);
      RefreshMirrors(p, s, RunInstr(p, s, answered));
    } else if s.todo[0].SaveToken? {
      TokenOutcome(p, s, answered);
      TokenMirrors(p, s, RunInstr(p, s, answered));
    } else {
      OtherLive(p, s, answered);
      OtherMirrors(p, s, RunInstr(p, s, answered));
    }
  }

  lemma CrashMirrors(p: Plan, s: State)
    requires Shape(p, s) && Mirrors(p, s)
    ensures Shape(p, Restart(s)) && Mirrors(p, Restart(s))
  {
    ShapeRestart(p, s);
    StartMonotone(p, s.disk.checkpoint + 1, s.cursor);
    StayMirrors(p, s, Restart(s));
  }

  lemma PollStays(p: Plan, s: State)
    requires Shape(p, s) && s.todo == []
    ensures Shape(p, Fetch(p, s)) && StaysLive(p, s, Fetch(p, s))
    ensures Shape(p, MarkScanned(s)) && StaysLive(p, s, MarkScanned(s))
  {
    ShapePoll(p, s);
  }

  lemma MirrorsTickStep(p: Plan, s: State, answered: bool)
    requires Sound(p) && LedgerLocal(p) && Shape(p, s) && CacheCoherent(s) && Mirrors(p, s)
    requires Confluent(p, s, true) && !s.soft
    ensures Mirrors(p, Step(p, s, Tick(answered)))
  {
    if s.todo != [] {
      ShapeTick(p, s, answered);
      TickMoves(p, s, answered);
      ConfluentTick(p, s, answered, true);
      MirrorsTick(p, s, answered);
    }
  }

  lemma MirrorsOtherStep(p: Plan, s: State, act: Act)
    requires Proper(p) && LedgerLocal(p) && Shape(p, s) && Mirrors(p, s)
    requires !act.Skip? && !act.Tick?
    ensures Mirrors(p, Step(p, s, act))
  {
    match act
    case NodeAdvance =>
      if s.head < p.Length() {
        MirrorsAdvance(p, s);
      }
    case Crash => CrashMirrors(p, s);
    case Poll =>
      if s.todo == [] {
        PollStays(p, s);
        StayMirrors(p, s, Fetch(p, s));
      }
    case Mark =>
      if s.todo == [] {
        PollStays(p, s);
        StayMirrors(p, s, MarkScanned(s));
      }
  }

  lemma {:induction false} MirrorsAlways(p: Plan, acts: seq<Act>)
    requires Sound(p) && LedgerLocal(p) && FailStop(acts)
    ensures Shape(p, After(p, acts)) && Mirrors(p, After(p, acts))
  {
    ShapeAlways(p, acts);
    if acts != [] {
      var before := acts[..|acts| - 1];
      MirrorsAlways(p, before);
      SchemaCacheCoherence(p, before);
      ConfluentAlways(p, before, true);
      FailStopNotSoft(p, before);
      var act := acts[|acts| - 1];
      if act.Tick? {
        MirrorsTickStep(p, After(p, before), act.answered);
      } else {
        MirrorsOtherStep(p, After(p, before), act);
      }
    }
  }

  // ---- main results ----

  /** What a number that was never stored should still be: the node's at genesis. Numbers of
      contracts that never become tokens are not mirrored, and a total supply may have been
      refused at registration. */
  predicate Untouched(p: Plan, s: State, c: Cell) {
    c !in s.disk.live && !c.SupplyCell? && Tracked(All(p), c)
  }

  /** The database is out of date for c. */
  predicate Stale(p: Plan, s: State, c: Cell) {
    || (c in s.disk.live && s.disk.live[c] != Current(p, s, c))
    || (Untouched(p, s, c) && p.ledger(s.head, c) != p.ledger(0, c))
  }

  /** Convergence: in every reachable state, with any number of crashes and with the node
      advancing between query and write, a number for which the database is out of date has a
      refresh at or after the cursor, or was missed. */
  lemma StaleImpliesPending(p: Plan, acts: seq<Act>, c: Cell)
    requires Sound(p) && LedgerLocal(p) && FailStop(acts)
    ensures Shape(p, After(p, acts))
    ensures var s := After(p, acts); Stale(p, s, c) ==> Pending(p, s, c) || Missed(p, s.head, c)
  {
    var s := After(p, acts);
    MirrorsAlways(p, acts);
    if Stale(p, s, c) && c !in s.disk.live {
      StaleHasRefresh(p, 0, s.head, c);
      if Asked(p, 0, s.head, c) {
        AskedAgain(p, s, c);
      }
    }
  }

  /** What is asked for and was never stored is still ahead. */
  lemma AskedAgain(p: Plan, s: State, c: Cell)
    requires Shape(p, s) && Mirrors(p, s) && c !in s.disk.live && Asked(p, 0, s.head, c)
    ensures Pending(p, s, c)
  {
    var i :| Start(p, 1) <= i < Start(p, s.head + 1) && Refreshes(p, i, c);
    assert i >= s.hwm;
  }

  /** Once the scanner has nothing left to scan, the database is up to date for every number
      that was not missed. */
  lemma ConvergedAtHead(p: Plan, acts: seq<Act>, c: Cell)
    requires Sound(p) && LedgerLocal(p) && FailStop(acts)
    requires var s := After(p, acts); s.todo == [] && s.cursor == s.head + 1
    ensures var s := After(p, acts); s.head <= p.Length() && (Stale(p, s, c) ==> Missed(p, s.head, c))
  {
    StaleImpliesPending(p, acts, c);
    NothingPending(p, After(p, acts), c);
  }

  lemma NothingPending(p: Plan, s: State, c: Cell)
    requires Shape(p, s) && s.todo == [] && s.cursor == s.head + 1
    ensures !Pending(p, s, c)
  {
  }

  /** Token convergence: a stale token balance has a Transfer event naming its owner ahead, or
      was missed. */
  lemma StaleTokenBalance(p: Plan, acts: seq<Act>, contract: string, owner: string) returns (i: int)
    requires Sound(p) && LedgerLocal(p) && FailStop(acts)
    requires Stale(p, After(p, acts), TokenCell(contract, owner))
    ensures var s := After(p, acts);
            && s.head <= p.Length()
            && (Missed(p, s.head, TokenCell(contract, owner))
                || (0 <= i < |All(p)| && Position(p, s) <= i < Start(p, s.head + 1)
                    && All(p)[i].Refresh? && All(p)[i].cell == TokenCell(contract, owner)
                    && All(p)[i].cause.ByTransferEvent? && owner in {All(p)[i].cause.from, All(p)[i].cause.to}))
  {
    StaleImpliesPending(p, acts, TokenCell(contract, owner));
    i := 0;
    if Pending(p, After(p, acts), TokenCell(contract, owner)) {
      i := PendingTransfer(p, After(p, acts), contract, owner);
    }
  }

  lemma PendingTransfer(p: Plan, s: State, contract: string, owner: string) returns (i: int)
    requires Proper(p) && Shape(p, s) && Pending(p, s, TokenCell(contract, owner))
    ensures 0 <= i < |All(p)| && Position(p, s) <= i < Start(p, s.head + 1)
    ensures All(p)[i].Refresh? && All(p)[i].cell == TokenCell(contract, owner)
    ensures All(p)[i].cause.ByTransferEvent? && owner in {All(p)[i].cause.from, All(p)[i].cause.to}
  {
    i := PendingPlace(p, s, TokenCell(contract, owner));
  }

  /** A stale total supply has an Inited event or a Transfer with an empty side ahead, or was
      missed; so on a contract all of whose Inited events have been scanned it is a Transfer
      with an empty side. */
  lemma StaleSupply(p: Plan, acts: seq<Act>, contract: string) returns (i: int)
    requires Sound(p) && LedgerLocal(p) && FailStop(acts)
    requires Stale(p, After(p, acts), SupplyCell(contract))
    ensures var s := After(p, acts);
            && s.head <= p.Length()
            && (Missed(p, s.head, SupplyCell(contract))
                || (0 <= i < |All(p)| && Position(p, s) <= i < Start(p, s.head + 1)
                    && All(p)[i].Refresh? && All(p)[i].cell == SupplyCell(contract)
                    && (All(p)[i].cause.ByInited?
                        || (All(p)[i].cause.ByTransferEvent? && "" in {All(p)[i].cause.from, All(p)[i].cause.to}))))
  {
    StaleImpliesPending(p, acts, SupplyCell(contract));
    i := 0;
    if Pending(p, After(p, acts), SupplyCell(contract)) {
      i := PendingSupply(p, After(p, acts), contract);
    }
  }

  lemma PendingSupply(p: Plan, s: State, contract: string) returns (i: int)
    requires Proper(p) && Shape(p, s) && Pending(p, s, SupplyCell(contract))
    ensures 0 <= i < |All(p)| && Position(p, s) <= i < Start(p, s.head + 1)
    ensures All(p)[i].Refresh? && All(p)[i].cell == SupplyCell(contract)
    ensures || All(p)[i].cause.ByInited?
            || (All(p)[i].cause.ByTransferEvent? && "" in {All(p)[i].cause.from, All(p)[i].cause.to})
  {
    i := PendingPlace(p, s, SupplyCell(contract));
  }

  lemma PendingPlace(p: Plan, s: State, c: Cell) returns (i: int)
    requires Proper(p) && Shape(p, s) && Pending(p, s, c)
    ensures 0 <= i < |All(p)| && Position(p, s) <= i < Start(p, s.head + 1)
    ensures All(p)[i].Refresh? && All(p)[i].cell == c && RefreshFits(c, All(p)[i].guard, All(p)[i].cause)
  {
    i :| Position(p, s) <= i < Start(p, s.head + 1) && Refreshes(p, i, c);
    RefreshPlace(p, i);
  }

  lemma RefreshPlace(p: Plan, i: int)
    requires Proper(p) && 0 <= i < |All(p)| && All(p)[i].Refresh?
    ensures RefreshFits(All(p)[i].cell, All(p)[i].guard, All(p)[i].cause)
  {
    var n, k := BlockOf(p, p.Length(), i);
    BlockPlace(p, n, k);
    assert ProperBlock(n, p.Script(n));
    assert Fits(n, k, p.Script(n)[k]);
  }

  /** Address balances are never missed. */
  lemma AddressNeverMissed(p: Plan, head: nat, c: Cell)
    requires Proper(p) && head <= p.Length() && c.AddressCell?
    ensures !Missed(p, head, c)
  {
    forall n | 1 <= n <= head && NamedIn(p, n, c) ensures !Unasked(p, n, head, c) {
      var i :| Start(p, n) <= i < Start(p, n + 1) && Names(All(p), i, c);
      StartMonotone(p, n + 1, head + 1);
      RefreshPlace(p, i);
      assert Refreshes(p, i, c);
    }
  }
}
