/** How far a scan with crashes only can get. Some instructions can never be executed, others
    only while the node's number fits its column; which prefixes of the script are within reach
    is computed here, and every run stays within it. */
module Progress {
  import opened Wrappers
  import opened Chain
  import opened Tables
  import opened Script
  import opened Plans
  import opened Machine
  import opened Invariant
  import opened Replay
  import opened Confluence
  import opened Convergence

  // ---- what can be executed, and when ----

  /** Instruction i can be executed for the first time on the node's numbers at block h. */
  predicate Passes(p: Plan, i: nat, h: nat)
    requires i < |All(p)|
  {
    var d := Ideal(p, i);
    match All(p)[i]
    case Halt(guard) => !Open(d, guard)
    case Refresh(c, guard, _) => Open(d, guard) ==> p.listed(c) && p.fits(c, p.ledger(h, c))
    case InsertOp(key, _) => key in d.rows || key.table in d.schemas
    case _ => !Refused(d, All(p)[i])
  }

  /** The block of instruction i. */
  function Home(p: Plan, last: nat, i: nat): (n: nat)
    requires last <= p.Length() && i < Start(p, last + 1)
    ensures 1 <= n <= last && Start(p, n) <= i < Start(p, n + 1)
  {
    if i >= Start(p, last) then last else Home(p, last - 1, i)
  }

  function HomeOf(p: Plan, i: nat): (n: nat)
    requires i < |All(p)|
    ensures 1 <= n <= p.Length() && Start(p, n) <= i < Start(p, n + 1)
  {
    Home(p, p.Length(), i)
  }

  /** The first block from h on at which the node's numbers let instruction i pass. */
  function FirstHead(p: Plan, i: nat, h: nat): Option<nat>
    requires i < |All(p)|
    decreases p.Length() - h
  {
    if h > p.Length() then None else if Passes(p, i, h) then Some(h) else FirstHead(p, i, h + 1)
  }

  /** How far the node must be for the first n instructions to have been executed, if they
      ever can be: each needs its block, the ones before it, and a number that fits. */
  function Earliest(p: Plan, n: nat): Option<nat>
    requires n <= |All(p)|
  {
    if n == 0 then Some(0)
    else
      var before := Earliest(p, n - 1);
      if before.None? then None else FirstHead(p, n - 1, Max(before.value, HomeOf(p, n - 1)))
  }

  lemma {:induction false} FirstHeadIs(p: Plan, i: nat, from: nat)
    requires i < |All(p)|
    ensures var r := FirstHead(p, i, from); r.Some? ==> from <= r.value <= p.Length() && Passes(p, i, r.value)
    decreases p.Length() - from
  {
    if from <= p.Length() && !Passes(p, i, from) {
      FirstHeadIs(p, i, from + 1);
    }
  }

  lemma {:induction false} FirstHeadBelow(p: Plan, i: nat, from: nat, h: nat)
    requires i < |All(p)| && from <= h <= p.Length() && Passes(p, i, h)
    ensures var r := FirstHead(p, i, from); r.Some? && r.value <= h
    decreases p.Length() - from
  {
    if !Passes(p, i, from) {
      FirstHeadBelow(p, i, from + 1, h);
    }
  }

  lemma EarliestNext(p: Plan, i: nat, h: nat)
    requires i < |All(p)| && HomeOf(p, i) <= h <= p.Length() && Passes(p, i, h)
    requires Earliest(p, i).Some? && Earliest(p, i).value <= h
    ensures Earliest(p, i + 1).Some? && Earliest(p, i + 1).value <= h
  {
    FirstHeadBelow(p, i, Max(Earliest(p, i).value, HomeOf(p, i)), h);
  }

  /** What lies within reach is a prefix. */
  lemma {:induction false} EarliestBefore(p: Plan, m: nat, n: nat)
    requires m <= n <= |All(p)| && Earliest(p, n).Some?
    ensures Earliest(p, m).Some?
  {
    if m < n {
      EarliestBefore(p, m, n - 1);
    }
  }

  // ---- every run stays within reach ----

  predicate InReach(p: Plan, s: State) {
    && s.hwm <= |All(p)|
    && var e := Earliest(p, s.hwm);
       e.Some? && e.value <= s.head && (s.answer.Number? && Position(p, s) == s.hwm ==> e.value <= s.answer.head)
  }

  /** The instruction at the cursor lies in the block being scanned. */
  lemma HomeIsCursor(p: Plan, s: State)
    requires Proper(p) && Shape(p, s) && s.todo != []
    ensures 0 <= Position(p, s) < |All(p)| && HomeOf(p, Position(p, s)) == s.cursor
  {
    AtPosition(p, s);
    var n := HomeOf(p, Position(p, s));
    assert Start(p, s.cursor) <= Position(p, s) < Start(p, s.cursor + 1);
    if n < s.cursor {
      StartMonotone(p, n + 1, s.cursor);
    } else if n > s.cursor {
      StartMonotone(p, s.cursor + 1, n);
    }
  }

  /** What has just been executed for the first time could be, on the numbers it was done with. */
  lemma EffectPasses(p: Plan, s: State, i: nat, answered: bool) returns (h: nat)
    requires Shape(p, s) && s.todo != [] && i < |All(p)| && All(p)[i] == s.todo[0] && s.disk.tables == Ideal(p, i)
    requires s.saving == None && Execute(p, s, s.todo[0], answered).effect
    ensures Passes(p, i, h) && s.cursor <= h <= s.head
    ensures h == s.head || (s.answer.Number? && h == s.answer.head)
  {
    h := if s.todo[0].Refresh? && s.answer.Number? then s.answer.head else s.head;
  }

  /** An instruction that is not executed keeps the answer, or asks now. */
  lemma AnswerSince(p: Plan, s: State, answered: bool)
    requires s.todo != []
    ensures var o := Execute(p, s, s.todo[0], answered);
            o.answer.Number? ==> o.answer == s.answer || o.answer.head == s.head
    ensures Execute(p, s, s.todo[0], answered).done ==> !Execute(p, s, s.todo[0], answered).answer.Number?
  {
  }

  /** The mark moves over the instruction at the cursor, or stays. */
  lemma ReachMoves(p: Plan, s: State, t: State, i: nat, h: nat)
    requires InReach(p, s) && i < |All(p)| && t.head == s.head
    requires t.hwm == s.hwm || (i == s.hwm && t.hwm == i + 1)
    requires t.hwm > s.hwm ==> HomeOf(p, i) <= h <= t.head <= p.Length() && Passes(p, i, h)
    requires t.hwm > s.hwm ==> h == s.head || (s.answer.Number? && Position(p, s) == i && h == s.answer.head)
    requires t.answer.Number? && Position(p, t) == t.hwm ==>
               t.hwm == s.hwm && (t.answer.head == s.head || (t.answer == s.answer && Position(p, s) == s.hwm))
    ensures InReach(p, t)
  {
    if t.hwm > s.hwm {
      EarliestNext(p, i, h);
    }
  }

  lemma ReachTick(p: Plan, s: State, answered: bool)
    requires Proper(p) && Shape(p, s) && s.todo != [] && InReach(p, s) && s.disk.tables == Ideal(p, s.hwm)
    ensures InReach(p, RunInstr(p, s, answered))
  {
    var o, t, i := Execute(p, s, s.todo[0], answered), RunInstr(p, s, answered), Position(p, s);
    AtPosition(p, s);
    HomeIsCursor(p, s);
    AnswerSince(p, s, answered);
    var h := s.head;
    if t.hwm > s.hwm {
      h := EffectPasses(p, s, i, answered);
    }
    StayPlace(p, s, answered);
    ReachMoves(p, s, t, i, h);
  }

  lemma StayPlace(p: Plan, s: State, answered: bool)
    requires Proper(p) && Shape(p, s) && s.todo != []
    ensures var o, t := Execute(p, s, s.todo[0], answered), RunInstr(p, s, answered);
            && t.head == s.head && (t.hwm == s.hwm || t.hwm == Reached(p, s))
            && (o.done ==> !t.answer.Number?)
            && (!o.done ==> Position(p, t) == Position(p, s))
  {
    AnswerSince(p, s, answered);
  }

  lemma ReachStep(p: Plan, s: State, act: Act)
    requires Proper(p) && Shape(p, s) && InReach(p, s) && s.disk.tables == Ideal(p, s.hwm) && !act.Skip?
    ensures InReach(p, Step(p, s, act))
  {
    if act.Tick? && s.todo != [] {
      ReachTick(p, s, act.answered);
    }
  }

  lemma {:induction false} ReachAlways(p: Plan, acts: seq<Act>)
    requires Sound(p) && FailStop(acts)
    ensures InReach(p, After(p, acts))
  {
    if acts != [] {
      var before := acts[..|acts| - 1];
      ReachAlways(p, before);
      ShapeAlways(p, before);
      ReplayConfluence(p, before);
      ReachStep(p, After(p, before), acts[|acts| - 1]);
    }
  }

  // ---- an undisturbed scan gets there ----

  /** The first n instructions have been executed, and none is in progress. */
  predicate Standing(p: Plan, s: State, n: nat) {
    s.hwm == n && Position(p, s) == n && s.answer == Nothing && s.saving == None
  }

  /** What instruction i does to the mirrored numbers the first time, with the node at block h. */
  function Written(p: Plan, i: nat, h: nat, live: map<Cell, int>): map<Cell, int>
    requires i < |All(p)|
  {
    match All(p)[i]
    case Refresh(c, guard, _) =>
      if Open(Ideal(p, i), guard) then live[c := p.shown(c, p.ledger(h, c))] else live
    case SaveToken(contract, _) =>
      var c := SupplyCell(contract);
      if contract in Ideal(p, i).tokens then live else live[c := p.shown(c, p.ledger(h, c))]
    case _ => live
  }

  /** s has the instruction at the cursor done and gone. */
  predicate Advanced(p: Plan, s: State, t: State, i: nat)
    requires i < |All(p)|
  {
    && Standing(p, t, i + 1) && t.head == s.head
    && t.disk.live == Written(p, i, s.head, s.disk.live)
  }

  /** All that is known of the state before instruction i. */
  predicate Before(p: Plan, s: State, i: nat) {
    && Proper(p) && Shape(p, s) && Standing(p, s, i) && s.todo != []
    && i < |All(p)| && All(p)[i] == s.todo[0] && s.disk.tables == Ideal(p, i)
  }

  lemma TickAfter(p: Plan, acts: seq<Act>)
    requires After(p, acts).todo != [] && FailStop(acts)
    ensures After(p, acts + [Tick(true)]) == RunInstr(p, After(p, acts), true) && FailStop(acts + [Tick(true)])
  {
    AfterStep(p, acts, Tick(true));
  }

  /** A finished substep pops the instruction. */
  lemma PopStands(p: Plan, s: State, i: nat)
    requires Shape(p, s) && s.todo != [] && Position(p, s) == i && (s.hwm == i || s.hwm == i + 1)
    requires Execute(p, s, s.todo[0], true).done
    ensures Standing(p, RunInstr(p, s, true), i + 1)
  {
    OutcomeFair(p, s, true);
    PopPlace(p, s, RunInstr(p, s, true));
  }

  lemma PlainStep(p: Plan, acts: seq<Act>, i: nat) returns (more: seq<Act>)
    requires FailStop(acts) && Before(p, After(p, acts), i) && Passes(p, i, After(p, acts).head)
    requires !All(p)[i].Refresh? && !All(p)[i].SaveToken? && !All(p)[i].SaveReceipt?
    ensures FailStop(more) && Advanced(p, After(p, acts), After(p, more), i)
  {
    var s := After(p, acts);
    TickAfter(p, acts);
    more := acts + [Tick(true)];
    PlainDone(p, s, s.todo[0]);
    PopStands(p, s, i);
  }

  lemma PlainDone(p: Plan, s: State, i: Instr)
    requires !i.Refresh? && !i.SaveToken? && !i.SaveReceipt? && !Refused(s.disk.tables, i)
    requires i.Halt? ==> !Open(s.disk.tables, i.guard)
    requires i.InsertOp? ==> i.key in s.disk.tables.rows || i.key.table in s.disk.tables.schemas
    ensures var o := Execute(p, s, i, true); o.done && o.disk.live == s.disk.live
  {
    if i.InsertOp? {
      assert DoInsert(s, i.key, i.fields).done;
    }
  }

  lemma RefreshStep(p: Plan, acts: seq<Act>, i: nat) returns (more: seq<Act>)
    requires FailStop(acts) && Before(p, After(p, acts), i) && Passes(p, i, After(p, acts).head)
    requires All(p)[i].Refresh?
    ensures FailStop(more) && Advanced(p, After(p, acts), After(p, more), i)
  {
    var s := After(p, acts);
    TickAfter(p, acts);
    more := acts + [Tick(true)];
    if !Open(s.disk.tables, s.todo[0].guard) {
      PopStands(p, s, i);
    } else {
      var t := After(p, more);
      TickAfter(p, more);
      more := more + [Tick(true)];
      QueryDone(p, s, t, i);
      PopStands(p, t, i);
    }
  }

  lemma QueryDone(p: Plan, s: State, t: State, i: nat)
    requires Before(p, s, i) && Passes(p, i, s.head) && All(p)[i].Refresh? && Open(s.disk.tables, s.todo[0].guard)
    requires t == RunInstr(p, s, true)
    ensures Shape(p, t) && t.todo == s.todo && t.hwm == i && Position(p, t) == i && t.head == s.head
    ensures var o := Execute(p, t, t.todo[0], true); o.done && o.disk.live == Written(p, i, s.head, s.disk.live)
  {
    ShapeTick(p, s, true);
    var c, guard := s.todo[0].cell, s.todo[0].guard;
    assert Execute(p, s, s.todo[0], true) == Stuck(s).(answer := Ask(p, s, c));
    assert t == s.(answer := Ask(p, s, c));
    assert Execute(p, t, t.todo[0], true) == DoRefresh(p, t, c, guard, true);
  }

  lemma TokenStep(p: Plan, acts: seq<Act>, i: nat) returns (more: seq<Act>)
    requires FailStop(acts) && Before(p, After(p, acts), i) && Passes(p, i, After(p, acts).head)
    requires All(p)[i].SaveToken?
    ensures FailStop(more) && Advanced(p, After(p, acts), After(p, more), i)
  {
    var s := After(p, acts);
    TickAfter(p, acts);
    more := acts + [Tick(true)];
    var t := After(p, more);
    TickAfter(p, more);
    more := more + [Tick(true)];
    SupplyDone(p, s, t, i);
    PopStands(p, t, i);
  }

  lemma SupplyDone(p: Plan, s: State, t: State, i: nat)
    requires Before(p, s, i) && Passes(p, i, s.head) && All(p)[i].SaveToken?
    requires t == RunInstr(p, s, true)
    ensures Shape(p, t) && t.todo == s.todo && t.hwm == i && Position(p, t) == i && t.head == s.head
    ensures var o := Execute(p, t, t.todo[0], true); o.done && o.disk.live == Written(p, i, s.head, s.disk.live)
  {
    ShapeTick(p, s, true);
    var contract, row := s.todo[0].contract, s.todo[0].token;
    assert Execute(p, s, s.todo[0], true) == Stuck(s).(answer := Ask(p, s, SupplyCell(contract)));
    assert t == s.(answer := Ask(p, s, SupplyCell(contract)));
    SupplyStored(p, t, contract, row);
  }

  lemma SupplyStored(p: Plan, t: State, contract: string, row: TokenRow)
    requires t.answer.Number? && !Refused(t.disk.tables, SaveToken(contract, row))
    ensures var o, c := Execute(p, t, SaveToken(contract, row), true), SupplyCell(contract);
            && o.done
            && o.disk.live == if contract in t.disk.tables.tokens then t.disk.live
                              else t.disk.live[c := p.shown(c, t.answer.value)]
  {
  }

  lemma ReceiptStep(p: Plan, acts: seq<Act>, i: nat) returns (more: seq<Act>)
    requires FailStop(acts) && Before(p, After(p, acts), i) && All(p)[i].SaveReceipt?
    ensures FailStop(more) && Advanced(p, After(p, acts), After(p, more), i)
  {
    var s := After(p, acts);
    TickAfter(p, acts);
    more := acts + [Tick(true)];
    if KeyOf(s.todo[0].receipt) in s.disk.tables.receipts {
      PopStands(p, s, i);
    } else {
      ReceiptBegun(p, s, After(p, more), i);
      more := EventSteps(p, more, s.todo[0].receipt, i, 0);
    }
  }

  /** A receipt's row is there, and n of its event rows are. */
  predicate Saving(p: Plan, s: State, r: Receipt, i: nat, n: nat) {
    && Proper(p) && Shape(p, s) && s.todo != [] && s.todo[0] == SaveReceipt(r) && Position(p, s) == i && s.hwm == i + 1
    && s.answer == Nothing && s.saving == Some(n) && n <= |r.events|
  }

  lemma ReceiptBegun(p: Plan, s: State, t: State, i: nat)
    requires Before(p, s, i) && All(p)[i].SaveReceipt? && KeyOf(s.todo[0].receipt) !in s.disk.tables.receipts
    requires t == RunInstr(p, s, true)
    ensures Saving(p, t, s.todo[0].receipt, i, 0) && t.head == s.head && t.disk.live == s.disk.live
  {
    ShapeTick(p, s, true);
  }

  lemma {:induction false} EventSteps(p: Plan, acts: seq<Act>, r: Receipt, i: nat, n: nat) returns (more: seq<Act>)
    requires FailStop(acts) && Saving(p, After(p, acts), r, i, n)
    ensures FailStop(more) && Standing(p, After(p, more), i + 1)
    ensures After(p, more).head == After(p, acts).head && After(p, more).disk.live == After(p, acts).disk.live
    decreases |r.events| - n
  {
    var s := After(p, acts);
    TickAfter(p, acts);
    more := acts + [Tick(true)];
    if n < |r.events| {
      EventSaved(p, s, After(p, more), r, i, n);
      more := EventSteps(p, more, r, i, n + 1);
    } else {
      PopStands(p, s, i);
    }
  }

  lemma EventSaved(p: Plan, s: State, t: State, r: Receipt, i: nat, n: nat)
    requires Saving(p, s, r, i, n) && n < |r.events| && t == RunInstr(p, s, true)
    ensures Saving(p, t, r, i, n + 1) && t.head == s.head && t.disk.live == s.disk.live
  {
    ShapeTick(p, s, true);
  }

  lemma OneStep(p: Plan, acts: seq<Act>, i: nat) returns (more: seq<Act>)
    requires FailStop(acts) && Before(p, After(p, acts), i) && Passes(p, i, After(p, acts).head)
    ensures FailStop(more) && Advanced(p, After(p, acts), After(p, more), i)
  {
    if All(p)[i].Refresh? {
      more := RefreshStep(p, acts, i);
    } else if All(p)[i].SaveToken? {
      more := TokenStep(p, acts, i);
    } else if All(p)[i].SaveReceipt? {
      more := ReceiptStep(p, acts, i);
    } else {
      more := PlainStep(p, acts, i);
    }
  }

  /** The node gets to block h, nothing else happens. */
  lemma {:induction false} NodeGoes(p: Plan, acts: seq<Act>, h: nat) returns (more: seq<Act>)
    requires FailStop(acts) && After(p, acts).head <= h <= p.Length()
    ensures FailStop(more) && After(p, more) == After(p, acts).(head := h)
    decreases h - After(p, acts).head
  {
    more := acts;
    if After(p, acts).head < h {
      AfterStep(p, acts, NodeAdvance);
      more := NodeGoes(p, acts + [NodeAdvance], h);
    }
  }

  /** At the end of a block the scanner takes up the next one. */
  lemma Fetched(p: Plan, s: State, i: nat)
    requires Proper(p) && Shape(p, s) && Standing(p, s, i) && i < |All(p)| && HomeOf(p, i) <= s.head
    ensures var t := if s.todo == [] then Fetch(p, s) else s;
            && t.todo != [] && Standing(p, t, i) && t.disk == s.disk && t.head == s.head
  {
    if s.todo == [] {
      var n := HomeOf(p, i);
      if s.cursor < n {
        assert ProperBlock(s.cursor, p.Script(s.cursor));
        StartMonotone(p, s.cursor + 1, n);
      } else if s.cursor > n {
        StartMonotone(p, n + 1, s.cursor);
      }
      assert ProperBlock(n, p.Script(n));
    }
  }

  lemma TakeUp(p: Plan, acts: seq<Act>, i: nat) returns (more: seq<Act>)
    requires Sound(p) && FailStop(acts) && Standing(p, After(p, acts), i) && i < |All(p)|
    requires HomeOf(p, i) <= After(p, acts).head
    ensures FailStop(more) && Before(p, After(p, more), i)
    ensures After(p, more).head == After(p, acts).head && After(p, more).disk.live == After(p, acts).disk.live
  {
    var s := After(p, acts);
    more := acts;
    ShapeAlways(p, acts);
    Fetched(p, s, i);
    if s.todo == [] {
      AfterStep(p, acts, Poll);
      more := acts + [Poll];
    }
    ShapeAlways(p, more);
    ReplayConfluence(p, more);
    StandsBefore(p, After(p, more), i);
  }

  lemma StandsBefore(p: Plan, s: State, i: nat)
    requires Proper(p) && Shape(p, s) && Standing(p, s, i) && s.todo != [] && i < |All(p)|
    requires s.disk.tables == Ideal(p, i)
    ensures Before(p, s, i)
  {
    AtPosition(p, s);
  }

  /** With the node at block h, instruction i is executed next. */
  lemma NextStep(p: Plan, acts: seq<Act>, i: nat, h: nat) returns (more: seq<Act>)
    requires Sound(p) && FailStop(acts) && Standing(p, After(p, acts), i) && i < |All(p)|
    requires After(p, acts).head <= h <= p.Length() && HomeOf(p, i) <= h && Passes(p, i, h)
    ensures FailStop(more) && Standing(p, After(p, more), i + 1) && After(p, more).head == h
    ensures After(p, more).disk.live == Written(p, i, h, After(p, acts).disk.live)
  {
    more := NodeGoes(p, acts, h);
    more := TakeUp(p, more, i);
    more := OneStep(p, more, i);
  }

  // ---- main results ----

  /** What an undisturbed scan mirrors that executes instruction i with the node at heads[i]. */
  function Mirrored(p: Plan, heads: seq<nat>, n: nat): map<Cell, int>
    requires n <= |All(p)| && n <= |heads|
  {
    if n == 0 then map[] else Written(p, n - 1, heads[n - 1], Mirrored(p, heads, n - 1))
  }

  /** The node moves along in such a way that every instruction can be executed in turn. */
  predicate Feasible(p: Plan, heads: seq<nat>, n: nat)
    requires n <= |All(p)| && n <= |heads|
  {
    && (forall i :: 0 <= i < n ==> HomeOf(p, i) <= heads[i] <= p.Length() && Passes(p, i, heads[i]))
    && (forall i, j :: 0 <= i < j < n ==> heads[i] <= heads[j])
  }

  lemma {:induction false} Scan(p: Plan, heads: seq<nat>, n: nat) returns (acts: seq<Act>)
    requires Sound(p) && n <= |All(p)| && n <= |heads| && Feasible(p, heads, n)
    ensures FailStop(acts) && Standing(p, After(p, acts), n)
    ensures After(p, acts).head == (if n == 0 then 0 else heads[n - 1])
    ensures After(p, acts).disk.live == Mirrored(p, heads, n)
  {
    acts := [];
    if n > 0 {
      var before := Scan(p, heads, n - 1);
      acts := NextStep(p, before, n - 1, heads[n - 1]);
    }
  }

  lemma {:induction false} EarliestFeasible(p: Plan, n: nat) returns (heads: seq<nat>)
    requires n <= |All(p)| && Earliest(p, n).Some?
    ensures |heads| == n && Feasible(p, heads, n) && (n > 0 ==> heads[n - 1] == Earliest(p, n).value)
  {
    heads := [];
    if n > 0 {
      var before := EarliestFeasible(p, n - 1);
      var h := Earliest(p, n).value;
      FirstHeadIs(p, n - 1, Max(Earliest(p, n - 1).value, HomeOf(p, n - 1)));
      FeasibleNext(p, before, n - 1, h);
      heads := before + [h];
    }
  }

  lemma FeasibleNext(p: Plan, heads: seq<nat>, n: nat, h: nat)
    requires n < |All(p)| && |heads| == n && Feasible(p, heads, n)
    requires HomeOf(p, n) <= h <= p.Length() && Passes(p, n, h) && (n > 0 ==> heads[n - 1] <= h)
    ensures Feasible(p, heads + [h], n + 1)
  {
    var more := heads + [h];
    forall i | 0 <= i < n + 1 ensures HomeOf(p, i) <= more[i] <= p.Length() && Passes(p, i, more[i]) {
      assert i < n ==> more[i] == heads[i];
    }
  }

  /** A run with crashes only can execute the first n instructions if and only if each of them
      can be executed in turn, while the node moves on. */
  lemma ReachableExactly(p: Plan, n: nat)
    requires Sound(p) && n <= |All(p)|
    ensures (exists acts :: FailStop(acts) && After(p, acts).hwm >= n) <==> Earliest(p, n).Some?
  {
    if Earliest(p, n).Some? {
      var heads := EarliestFeasible(p, n);
      var acts := Scan(p, heads, n);
      assert FailStop(acts) && After(p, acts).hwm >= n;
    }
    forall acts | FailStop(acts) && After(p, acts).hwm >= n ensures Earliest(p, n).Some? {
      ReachAlways(p, acts);
      EarliestBefore(p, n, After(p, acts).hwm);
    }
  }

  // ---- dead ends ----

  /** The next instruction cannot be executed, and not for want of a number that fits. */
  predicate DeadEnd(p: Plan, s: State) {
    s.todo != [] &&
    match s.todo[0]
    case Halt(guard) => Open(s.disk.tables, guard)
    case Refresh(c, guard, _) => guard.Always? && !p.listed(c)
    case _ => Refused(s.disk.tables, s.todo[0])
  }

  /** A Halt that was shut when it was passed is shut ever after. */
  lemma HaltStaysShut(p: Plan, i: nat, n: nat, guard: Guard)
    requires Sound(p) && i <= n <= |All(p)| && i < |All(p)| && All(p)[i] == Halt(guard)
    ensures Open(Ideal(p, n), guard) ==> Open(Ideal(p, i), guard)
  {
    HaltPlace(p, i);
    if Open(Ideal(p, n), guard) && !guard.Always? {
      assert Needed(All(p)[i]) == Some(guard.contract);
      TokensReplayed(All(p), n, guard.contract);
      RegisteredLater(All(p), n, |All(p)|, guard.contract);
      TokensReplayed(All(p), i, guard.contract);
      HistoryGrows(p, i, n);
    }
  }

  lemma HaltPlace(p: Plan, i: nat)
    requires Proper(p) && i < |All(p)| && All(p)[i].Halt?
    ensures !All(p)[i].guard.IfRecorded?
  {
    var n, k := BlockOf(p, p.Length(), i);
    BlockPlace(p, n, k);
    assert ProperBlock(n, p.Script(n));
    assert Fits(n, k, p.Script(n)[k]);
  }

  /** An instruction that is a dead end was one the first time, whatever the node's head. */
  lemma DeadFromTheFirst(p: Plan, s: State, i: nat, h: nat)
    requires Sound(p) && Shape(p, s) && DeadEnd(p, s)
    requires s.hwm <= |All(p)| && s.disk.tables == Ideal(p, s.hwm)
    requires i == Position(p, s) && i < |All(p)| && All(p)[i] == s.todo[0]
    ensures !Passes(p, i, h)
  {
    match s.todo[0]
    case Halt(guard) => HaltStaysShut(p, i, s.hwm, guard);
    case Refresh(_, _, _) =>
    case _ =>
      if i < s.hwm {
        PlanOrdersBackFills(p);
        PrefixSettled(All(p), i, s.hwm);
      }
  }

  lemma NeverReached(p: Plan, i: nat)
    requires i < |All(p)| && forall h: nat :: !Passes(p, i, h)
    ensures Earliest(p, i + 1).None?
  {
    if Earliest(p, i).Some? {
      FirstHeadIs(p, i, Max(Earliest(p, i).value, HomeOf(p, i)));
    }
  }

  /** A dead end is for good: however the process is restarted and the node moves on, nothing
      after it is ever executed. */
  lemma StuckForGood(p: Plan, acts: seq<Act>, more: seq<Act>)
    requires Sound(p) && FailStop(acts) && FailStop(acts + more) && DeadEnd(p, After(p, acts))
    ensures After(p, acts + more).hwm == After(p, acts).hwm == Position(p, After(p, acts))
  {
    ShapeAlways(p, acts);
    ReplayConfluence(p, acts);
    DeadUnreached(p, After(p, acts));
    ReachAlways(p, acts);
    ReachAlways(p, acts + more);
    MarkMonotone(p, acts, more);
    ReachEnds(p, After(p, acts + more), Position(p, After(p, acts)));
  }

  lemma DeadUnreached(p: Plan, s: State)
    requires Sound(p) && Shape(p, s) && DeadEnd(p, s) && s.hwm <= |All(p)| && s.disk.tables == Ideal(p, s.hwm)
    ensures 0 <= Position(p, s) < |All(p)| && Position(p, s) <= s.hwm && Earliest(p, Position(p, s) + 1).None?
  {
    var i := Position(p, s);
    AtPosition(p, s);
    forall h: nat ensures !Passes(p, i, h) {
      DeadFromTheFirst(p, s, i, h);
    }
    NeverReached(p, i);
  }

  lemma ReachEnds(p: Plan, s: State, i: nat)
    requires InReach(p, s) && i < |All(p)| && Earliest(p, i + 1).None?
    ensures s.hwm <= i
  {
    if s.hwm > i {
      EarliestBefore(p, i + 1, s.hwm);
    }
  }
}
