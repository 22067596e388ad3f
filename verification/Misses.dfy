/** That what is missed really goes wrong: if the history rows of all events that name a number
    are refused, there is a ledger and a run after which the number is out of date although
    nothing is left to scan. So being missed is exactly what keeps a number from converging. */
module Misses {
  import opened Wrappers
  import opened Chain
  import opened Tables
  import opened Script
  import opened Plans
  import opened Machine
  import opened Invariant
  import opened Replay
  import opened Confluence
  import opened Convergence
  import opened Progress

  /** The node's numbers are 0, but for c, which becomes 1 with block n. */
  function StepLedger(c: Cell, n: nat): (nat, Cell) -> int {
    (k: nat, x: Cell) => if x == c && k >= n then 1 else 0
  }

  ghost predicate IsStep(p: Plan, c: Cell, n: nat) {
    forall k: nat, x: Cell {:trigger p.ledger(k, x)} :: p.ledger(k, x) == if x == c && k >= n then 1 else 0
  }

  /** Whatever is named where the ledger changes explains the change. */
  lemma StepIsLocal(p: Plan, c: Cell, n: nat)
    requires IsStep(p, c, n) && 1 <= n <= p.Length() && NamedIn(p, n, c)
    ensures LedgerLocal(p)
  {
    forall k: nat, x: Cell | k < p.Length() && Tracked(All(p), x) && ChangedBy(p, k, x)
      ensures NamedIn(p, k + 1, x)
    {
      assert x == c && k + 1 == n;
    }
  }

  /** The blocks of the instructions: a node that stays level with the scanner. */
  function Level(p: Plan, n: nat): (heads: seq<nat>)
    requires n <= |All(p)|
    ensures |heads| == n && forall i :: 0 <= i < n ==> heads[i] == HomeOf(p, i)
  {
    seq(n, i requires 0 <= i < n => HomeOf(p, i))
  }

  lemma HomeMonotone(p: Plan, i: nat, j: nat)
    requires i <= j < |All(p)|
    ensures HomeOf(p, i) <= HomeOf(p, j)
  {
    if HomeOf(p, j) < HomeOf(p, i) {
      StartMonotone(p, HomeOf(p, j) + 1, HomeOf(p, i));
    }
  }

  /** The scanner can keep level with the node up to block h. */
  predicate Followable(p: Plan, h: nat) {
    h <= p.Length() && forall i :: 0 <= i < |All(p)| && i < Start(p, h + 1) ==> Passes(p, i, HomeOf(p, i))
  }

  lemma LevelFeasible(p: Plan, h: nat)
    requires Followable(p, h) && Start(p, h + 1) <= |All(p)|
    ensures Feasible(p, Level(p, Start(p, h + 1)), Start(p, h + 1))
  {
    var n := Start(p, h + 1);
    forall i, j | 0 <= i < j < n ensures Level(p, n)[i] <= Level(p, n)[j] {
      HomeMonotone(p, i, j);
    }
  }

  lemma OpenRefreshes(p: Plan, i: nat)
    requires Sound(p) && i < |All(p)| && All(p)[i].Refresh? && Open(Ideal(p, i), All(p)[i].guard)
    ensures Refreshes(p, i, All(p)[i].cell)
  {
    var a := All(p);
    if !a[i].guard.Always? {
      TokensReplayed(a, i, a[i].guard.contract);
      RegisteredLater(a, i, |a|, a[i].guard.contract);
    }
  }

  lemma NewIntroduces(p: Plan, i: nat)
    requires i < |All(p)| && All(p)[i].SaveToken? && All(p)[i].contract !in Ideal(p, i).tokens
    ensures Introduces(All(p), i, SupplyCell(All(p)[i].contract))
  {
    TokensReplayed(All(p), i, All(p)[i].contract);
  }

  /** Only an instruction that asks for c, or introduces it, writes it the first time. */
  lemma WritesAsk(p: Plan, i: nat, c: Cell, h: nat, live: map<Cell, int>)
    requires Sound(p) && i < |All(p)| && !Refreshes(p, i, c) && !Introduces(All(p), i, c)
    ensures var more := Written(p, i, h, live); (c in more <==> c in live) && (c in live ==> more[c] == live[c])
  {
    if All(p)[i].Refresh? && Open(Ideal(p, i), All(p)[i].guard) {
      OpenRefreshes(p, i);
    } else if All(p)[i].SaveToken? && All(p)[i].contract !in Ideal(p, i).tokens {
      NewIntroduces(p, i);
    }
  }

  /** On the way, only the old number is ever stored. */
  lemma {:induction false} OldNumber(p: Plan, c: Cell, n: nat, h: nat, m: nat)
    requires Sound(p) && IsStep(p, c, n) && 1 <= n <= h <= p.Length() && Unasked(p, n, h, c)
    requires Start(p, h + 1) <= |All(p)| && m <= Start(p, h + 1)
    ensures var live := Mirrored(p, Level(p, Start(p, h + 1)), m); c in live ==> live[c] == p.shown(c, 0)
  {
    if m > 0 {
      OldNumber(p, c, n, h, m - 1);
      OldNext(p, c, n, h, m - 1, Mirrored(p, Level(p, Start(p, h + 1)), m - 1));
    }
  }

  lemma OldNext(p: Plan, c: Cell, n: nat, h: nat, i: nat, live: map<Cell, int>)
    requires Sound(p) && IsStep(p, c, n) && 1 <= n <= h <= p.Length() && Unasked(p, n, h, c)
    requires i < |All(p)| && i < Start(p, h + 1) && (c in live ==> live[c] == p.shown(c, 0))
    ensures var more := Written(p, i, HomeOf(p, i), live); c in more ==> more[c] == p.shown(c, 0)
  {
    if i >= Start(p, n) {
      WritesAsk(p, i, c, HomeOf(p, i), live);
    } else if HomeOf(p, i) >= n {
      StartMonotone(p, n, HomeOf(p, i));
    }
  }

  /** Nothing is left to scan, with the node at block h. */
  predicate AtHead(s: State, h: nat) {
    s.todo == [] && s.cursor == h + 1 && s.head == h
  }

  /** Within a block the position is before the block's end. */
  lemma PositionInBlock(p: Plan, s: State)
    requires Proper(p) && Shape(p, s) && s.cursor <= p.Length()
    ensures Position(p, s) < Start(p, s.cursor + 1)
  {
    assert ProperBlock(s.cursor, p.Script(s.cursor));
  }

  lemma StandingAtHead(p: Plan, s: State, h: nat)
    requires Proper(p) && Shape(p, s) && h <= p.Length() && Position(p, s) == Start(p, h + 1) && s.head <= h
    ensures s.todo == [] && s.cursor == h + 1
  {
    if s.cursor <= h {
      PositionInBlock(p, s);
      StartMonotone(p, s.cursor + 1, h + 1);
    }
  }

  /** A total supply that a block before block n introduced is stored on the way. */
  lemma {:induction false} SupplyOnTheWay(p: Plan, heads: seq<nat>, contract: string, i: nat, m: nat)
    requires i < m <= |All(p)| && m <= |heads| && Introduces(All(p), i, SupplyCell(contract))
    ensures SupplyCell(contract) in Mirrored(p, heads, m)
  {
    if m > i + 1 {
      SupplyOnTheWay(p, heads, contract, i, m - 1);
    } else {
      TokensReplayed(All(p), i, contract);
    }
  }

  /** What block n names, and no later block introduces, was introduced before. */
  lemma IntroducedBefore(p: Plan, contract: string, n: nat, h: nat)
    requires Sound(p) && 1 <= n <= h <= p.Length() && NamedIn(p, n, SupplyCell(contract))
    requires Unasked(p, n, h, SupplyCell(contract)) && Start(p, h + 1) <= |All(p)|
    ensures exists i :: 0 <= i < Start(p, h + 1) && Introduces(All(p), i, SupplyCell(contract))
  {
    var i :| Start(p, n) <= i < Start(p, n + 1) && Names(All(p), i, SupplyCell(contract));
    StartMonotone(p, n + 1, h + 1);
    RefreshPlace(p, i);
    assert Needed(All(p)[i]) == Some(contract);
    var j := FirstRegistration(All(p), i, contract);
  }

  lemma {:induction false} FirstRegistration(a: seq<Instr>, n: nat, contract: string) returns (j: nat)
    requires n <= |a| && RegisteredBefore(a, n, contract)
    ensures j < n && Introduces(a, j, SupplyCell(contract))
  {
    if RegisteredBefore(a, n - 1, contract) {
      j := FirstRegistration(a, n - 1, contract);
    } else {
      j := n - 1;
    }
  }

  /** A missed number is out of date after some run, on some ledger. */
  lemma MissedGoesStale(p: Plan, c: Cell, n: nat, h: nat) returns (acts: seq<Act>)
    requires Sound(p) && 1 <= n <= h <= p.Length() && IsStep(p, c, n)
    requires NamedIn(p, n, c) && Unasked(p, n, h, c)
    requires Followable(p, h) && p.shown(c, 0) != p.shown(c, 1)
    ensures LedgerLocal(p) && FailStop(acts) && AtHead(After(p, acts), h) && Stale(p, After(p, acts), c)
  {
    var last := Start(p, h + 1);
    LastHome(p, h);
    StepIsLocal(p, c, n);
    LevelFeasible(p, h);
    acts := Scan(p, Level(p, last), last);
    var s := After(p, acts);
    ShapeAlways(p, acts);
    StandingAtHead(p, s, h);
    OldNumber(p, c, n, h, last);
    NamedTracked(p, n, c);
    if c.SupplyCell? {
      IntroducedBefore(p, c.contract, n, h);
      var i :| 0 <= i < last && Introduces(All(p), i, c);
      SupplyOnTheWay(p, Level(p, last), c.contract, i, last);
    }
    OldIsStale(p, s, c, n, h);
  }

  /** With the old number, or none, the database is out of date once block n is the head. */
  lemma OldIsStale(p: Plan, s: State, c: Cell, n: nat, h: nat)
    requires IsStep(p, c, n) && 1 <= n <= h && s.head == h && p.shown(c, 0) != p.shown(c, 1)
    requires Tracked(All(p), c) && (c in s.disk.live ==> s.disk.live[c] == p.shown(c, 0))
    requires c.SupplyCell? ==> c in s.disk.live
    ensures Stale(p, s, c)
  {
  }

  lemma LastHome(p: Plan, h: nat)
    requires Proper(p) && 1 <= h <= p.Length()
    ensures 0 < Start(p, h + 1) <= |All(p)| && HomeOf(p, Start(p, h + 1) - 1) == h
  {
    assert ProperBlock(h, p.Script(h));
    StartMonotone(p, h + 1, p.Length() + 1);
    var n := HomeOf(p, Start(p, h + 1) - 1);
    if n < h {
      StartMonotone(p, n + 1, h);
    } else if n > h {
      StartMonotone(p, h + 1, n);
    }
  }

  lemma NamedTracked(p: Plan, n: nat, c: Cell)
    requires Proper(p) && 1 <= n <= p.Length() && NamedIn(p, n, c)
    ensures Tracked(All(p), c)
  {
    var i :| Start(p, n) <= i < Start(p, n + 1) && Names(All(p), i, c);
    RefreshPlace(p, i);
  }

  // ---- the exact condition ----

  /** Being missed is a matter of the scripts alone. */
  lemma SameMissed(p: Plan, q: Plan, n: nat, h: nat, c: Cell)
    requires p.scripts == q.scripts && 1 <= n <= h <= p.Length()
    ensures All(p) == All(q) && Start(p, h + 1) == Start(q, h + 1)
    ensures NamedIn(p, n, c) ==> NamedIn(q, n, c)
    ensures Unasked(p, n, h, c) ==> Unasked(q, n, h, c)
  {
    SamePlaces(p, q, p.Length());
    SamePlaces(p, q, n - 1);
    SamePlaces(p, q, n);
    SamePlaces(p, q, h);
    assert Start(p, n) == |UpTo(p, n - 1)| && Start(p, n + 1) == |UpTo(p, n)| && Start(p, h + 1) == |UpTo(p, h)|;
    if Unasked(p, n, h, c) {
      forall i | Start(q, n) <= i < Start(q, h + 1) ensures !Refreshes(q, i, c) && !Introduces(All(q), i, c) {
        assert !Refreshes(p, i, c) && !Introduces(All(p), i, c);
      }
    }
  }

  /** Some run ends out of date for c with nothing left to scan. */
  ghost predicate GoesStale(p: Plan, h: nat, c: Cell) {
    LedgerLocal(p) && exists acts :: FailStop(acts) && AtHead(After(p, acts), h) && Stale(p, After(p, acts), c)
  }

  function WithLedger(p: Plan, ledger: (nat, Cell) -> int): Plan {
    p.(ledger := ledger)
  }

  /** A mirrored number can be out of date with nothing left to scan, on some ledger that changes
      only what blocks name, if and only if it is missed. */
  lemma MissedExactly(p: Plan, h: nat, c: Cell)
    requires Sound(p) && h <= p.Length() && p.shown(c, 0) != p.shown(c, 1)
    requires forall n {:trigger StepLedger(c, n)} :: Followable(WithLedger(p, StepLedger(c, n)), h)
    ensures Missed(p, h, c) <==> exists ledger :: GoesStale(WithLedger(p, ledger), h, c)
  {
    if Missed(p, h, c) {
      var n :| 1 <= n <= h && NamedIn(p, n, c) && Unasked(p, n, h, c);
      var q := WithLedger(p, StepLedger(c, n));
      SameMissed(p, q, n, h, c);
      SameSound(p, q);
      var acts := MissedGoesStale(q, c, n, h);
      assert GoesStale(q, h, c);
    }
    forall ledger | GoesStale(WithLedger(p, ledger), h, c) ensures Missed(p, h, c) {
      StaleWasMissed(p, WithLedger(p, ledger), h, c);
    }
  }

  lemma SameSound(p: Plan, q: Plan)
    requires p.scripts == q.scripts && Sound(p)
    ensures Sound(q)
  {
    SamePlaces(p, q, p.Length());
    forall n | 1 <= n <= q.Length() ensures ProperBlock(n, q.Script(n)) {
      assert ProperBlock(n, p.Script(n));
    }
  }

  lemma StaleWasMissed(p: Plan, q: Plan, h: nat, c: Cell)
    requires p.scripts == q.scripts && Sound(p) && GoesStale(q, h, c) && h <= p.Length()
    ensures Missed(p, h, c)
  {
    var acts :| FailStop(acts) && AtHead(After(q, acts), h) && Stale(q, After(q, acts), c);
    SameSound(p, q);
    ConvergedAtHead(q, acts, c);
    var n :| 1 <= n <= h && NamedIn(q, n, c) && Unasked(q, n, h, c);
    SameMissed(q, p, n, h, c);
  }
}
