/** What holds of every state of every run, logged errors included: how the cursor, the rest
    of the block, the checkpoint and the high-water mark stand to one another. */
module Invariant {
  import opened Wrappers
  import opened Chain
  import opened Tables
  import opened Script
  import opened Plans
  import opened Machine

  // ---- the invariant ----

  /** todo is the unexecuted end of the script of the block at the cursor. */
  predicate TodoOk(p: Plan, s: State) {
    s.todo != [] ==>
      && 1 <= s.cursor <= p.Length() && s.cursor <= s.head
      && var b := p.Script(s.cursor);
         |s.todo| <= |b| && s.todo == b[|b| - |s.todo|..]
  }

  /** An answer is the node's number for what the current instruction asks, taken while its
      head was already at or past the block being scanned. */
  predicate AnswerOk(p: Plan, s: State) {
    s.answer.Number? ==>
      && s.todo != [] && s.cursor <= s.answer.head <= s.head
      && (match s.todo[0]
          case Refresh(c, _, _) => s.answer.value == p.ledger(s.answer.head, c)
          case SaveToken(contract, _) => s.answer.value == p.ledger(s.answer.head, SupplyCell(contract))
          case _ => false)
  }

  predicate SavingOk(p: Plan, s: State) {
    s.saving.Some? ==>
      && s.todo != [] && s.todo[0].SaveReceipt?
      && s.saving.value <= |s.todo[0].receipt.events|
      && KeyOf(s.todo[0].receipt) in s.disk.tables.receipts
      && Position(p, s) < s.hwm
  }

  predicate Shape(p: Plan, s: State) {
    && 1 <= s.cursor <= s.head + 1 <= p.Length() + 1
    && s.disk.checkpoint < s.cursor
    && TodoOk(p, s) && AnswerOk(p, s) && SavingOk(p, s)
    && Start(p, s.disk.checkpoint + 1) <= s.hwm
    && Position(p, s) <= s.hwm <= Start(p, s.head + 1)
  }

  /** Which instruction of its block is next. */
  function Index(p: Plan, s: State): int
    requires 1 <= s.cursor <= p.Length()
  {
    |p.Script(s.cursor)| - |s.todo|
  }

  /** The instruction at the cursor is the one the whole script has at that position. */
  lemma AtPosition(p: Plan, s: State)
    requires Proper(p) && Shape(p, s) && s.todo != []
    ensures 0 <= Position(p, s) < Start(p, s.cursor + 1) <= Start(p, s.head + 1) <= |All(p)|
    ensures All(p)[Position(p, s)] == s.todo[0]
    ensures |s.todo| == 1 ==> s.todo[0] == EndBlock(s.cursor)
    ensures |s.todo| > 1 ==> Fits(s.cursor, Index(p, s), s.todo[0])
  {
    HeadPlace(p, s.cursor, s.todo, s.head);
  }

  lemma HeadPlace(p: Plan, cursor: nat, todo: seq<Instr>, head: nat)
    requires Proper(p) && 1 <= cursor <= head <= p.Length()
    requires var b := p.Script(cursor); 0 < |todo| <= |b| && todo == b[|b| - |todo|..]
    ensures 0 <= Start(p, cursor + 1) - |todo| < Start(p, cursor + 1) <= Start(p, head + 1) <= |All(p)|
    ensures All(p)[Start(p, cursor + 1) - |todo|] == todo[0]
    ensures |todo| == 1 ==> todo[0] == EndBlock(cursor)
    ensures |todo| > 1 ==> Fits(cursor, |p.Script(cursor)| - |todo|, todo[0])
  {
    var b := p.Script(cursor);
    assert ProperBlock(cursor, b);
    HeadFits(cursor, b, todo);
    BlockPlace(p, cursor, |b| - |todo|);
    StartMonotone(p, cursor + 1, head + 1);
    StartMonotone(p, head + 1, p.Length() + 1);
  }

  /** The next instruction of a block: its EndBlock if it is the last one. */
  lemma HeadFits(num: nat, b: seq<Instr>, todo: seq<Instr>)
    requires ProperBlock(num, b) && 0 < |todo| <= |b| && todo == b[|b| - |todo|..]
    ensures todo[0] == b[|b| - |todo|]
    ensures |todo| == 1 ==> todo[0] == EndBlock(num)
    ensures |todo| > 1 ==> Fits(num, |b| - |todo|, todo[0])
  {
  }

  /** Popping the current instruction moves the position on by one. */
  lemma PopPlace(p: Plan, s: State, t: State)
    requires Shape(p, s) && s.todo != []
    requires t.todo == s.todo[1..]
    requires t.cursor == (if |s.todo| == 1 then s.cursor + 1 else s.cursor)
    ensures Position(p, t) == Position(p, s) + 1
  {
  }

  /** t is s with its current instruction popped, and perhaps the checkpoint moved to the
      block just finished. */
  predicate Popped(p: Plan, s: State, t: State) {
    && s.todo != []
    && t.todo == s.todo[1..] && t.answer == Nothing && t.saving == None
    && t.head == s.head && t.hwm == Reached(p, s) && t.soft == s.soft && t.torn == s.torn
    && t.cursor == (if |s.todo| == 1 then s.cursor + 1 else s.cursor)
    && (t.disk.checkpoint == s.disk.checkpoint || (|s.todo| == 1 && t.disk.checkpoint == s.cursor))
  }

  lemma ShapePop(p: Plan, s: State, t: State)
    requires Proper(p) && Shape(p, s) && Popped(p, s, t)
    ensures Shape(p, t)
  {
    AtPosition(p, s);
    PopPlace(p, s, t);
  }

  /** Executing one substep either pops the instruction, or stays on it. */
  predicate Stayed(p: Plan, s: State, t: State) {
    && t.todo == s.todo && t.cursor == s.cursor && t.head == s.head && t.soft == s.soft
    && t.torn == s.torn && t.disk.checkpoint == s.disk.checkpoint
    && (t.hwm == s.hwm || t.hwm == Reached(p, s))
  }

  predicate Moves(p: Plan, s: State, t: State) {
    Popped(p, s, t) || (Stayed(p, s, t) && AnswerOk(p, t) && SavingOk(p, t))
  }

  /** An instruction that is not finished keeps the checkpoint and what it waits with in
      order; a finished one moves the checkpoint only at the end of a block. */
  predicate FairOutcome(p: Plan, s: State, o: Outcome)
    requires s.todo != []
  {
    if o.done then
      && o.answer == Nothing && o.saving == None && o.effect
      && (o.disk.checkpoint == s.disk.checkpoint || s.todo[0] == EndBlock(o.disk.checkpoint))
    else
      var t := s.(disk := o.disk, answer := o.answer, saving := o.saving,
                  hwm := if o.effect then Reached(p, s) else s.hwm);
      o.disk.checkpoint == s.disk.checkpoint && AnswerOk(p, t) && SavingOk(p, t)
  }

  lemma RefreshFair(p: Plan, s: State, answered: bool)
    requires Shape(p, s) && s.todo != [] && s.todo[0].Refresh?
    ensures FairOutcome(p, s, Execute(p, s, s.todo[0], answered))
  {
  }

  lemma TokenFair(p: Plan, s: State, answered: bool)
    requires Shape(p, s) && s.todo != [] && s.todo[0].SaveToken?
    ensures FairOutcome(p, s, Execute(p, s, s.todo[0], answered))
  {
  }

  lemma ReceiptFair(p: Plan, s: State, answered: bool)
    requires Shape(p, s) && s.todo != [] && s.todo[0].SaveReceipt?
    ensures FairOutcome(p, s, Execute(p, s, s.todo[0], answered))
  {
  }

  lemma OtherFair(p: Plan, s: State, answered: bool)
    requires Shape(p, s) && s.todo != []
    requires !s.todo[0].Refresh? && !s.todo[0].SaveToken? && !s.todo[0].SaveReceipt?
    ensures FairOutcome(p, s, Execute(p, s, s.todo[0], answered))
  {
  }

  lemma OutcomeFair(p: Plan, s: State, answered: bool)
    requires Shape(p, s) && s.todo != []
    ensures FairOutcome(p, s, Execute(p, s, s.todo[0], answered))
  {
    match s.todo[0]
    case Refresh(_, _, _) => RefreshFair(p, s, answered);
    case SaveToken(_, _) => TokenFair(p, s, answered);
    case SaveReceipt(_) => ReceiptFair(p, s, answered);
    case _ => OtherFair(p, s, answered);
  }

  lemma TickMoves(p: Plan, s: State, answered: bool)
    requires Proper(p) && Shape(p, s) && s.todo != []
    ensures Moves(p, s, RunInstr(p, s, answered))
  {
    AtPosition(p, s);
    OutcomeFair(p, s, answered);
  }

  lemma ShapeTick(p: Plan, s: State, answered: bool)
    requires Proper(p) && Shape(p, s) && s.todo != []
    ensures Shape(p, RunInstr(p, s, answered))
  {
    TickMoves(p, s, answered);
    var t := RunInstr(p, s, answered);
    if Popped(p, s, t) {
      ShapePop(p, s, t);
    } else {
      AtPosition(p, s);
    }
  }

  lemma ShapePoll(p: Plan, s: State)
    requires Shape(p, s) && s.todo == []
    ensures Shape(p, Fetch(p, s)) && Shape(p, MarkScanned(s))
  {
  }

  lemma ShapeRestart(p: Plan, s: State)
    requires Shape(p, s)
    ensures Shape(p, Restart(s))
  {
    StartMonotone(p, s.disk.checkpoint + 1, s.cursor);
  }

  lemma ShapeDrop(p: Plan, s: State, count: nat)
    requires Shape(p, s)
    ensures Shape(p, Drop(p, s, count))
  {
    if 0 < count < |s.todo| && s.saving.None? && Droppable(s.todo[..count], s.todo[count]) {
      StartMonotone(p, s.cursor + 1, s.head + 1);
      var t := Drop(p, s, count);
      assert Position(p, t) == Position(p, s) + count;
    }
  }

  lemma ShapeAdvance(p: Plan, s: State)
    requires Proper(p) && Shape(p, s) && s.head < p.Length()
    ensures Shape(p, s.(head := s.head + 1))
  {
    StartMonotone(p, s.head + 1, s.head + 2);
  }

  lemma ShapeStep(p: Plan, s: State, a: Act)
    requires Proper(p) && Shape(p, s)
    ensures Shape(p, Step(p, s, a))
  {
    match a
    case NodeAdvance =>
      if s.head < p.Length() {
        ShapeAdvance(p, s);
      }
    case Crash => ShapeRestart(p, s);
    case Poll =>
      if s.todo == [] {
        ShapePoll(p, s);
      }
    case Mark =>
      if s.todo == [] {
        ShapePoll(p, s);
      }
    case Tick(answered) =>
      if s.todo != [] {
        ShapeTick(p, s, answered);
      }
    case Skip(count) => ShapeDrop(p, s, count);
  }

  /** The invariant holds throughout every run. */
  lemma {:induction false} ShapeAlways(p: Plan, acts: seq<Act>)
    requires Proper(p)
    ensures Shape(p, After(p, acts))
  {
    if acts != [] {
      ShapeAlways(p, acts[..|acts| - 1]);
      ShapeStep(p, After(p, acts[..|acts| - 1]), acts[|acts| - 1]);
    }
  }

  /** The high-water mark never moves back. */
  lemma {:induction false} MarkMonotone(p: Plan, acts: seq<Act>, more: seq<Act>)
    requires Proper(p)
    ensures After(p, acts + more).hwm >= After(p, acts).hwm
  {
    if more == [] {
      assert acts + more == acts;
    } else {
      var front := more[..|more| - 1];
      assert (acts + more)[..|acts + more| - 1] == acts + front;
      MarkMonotone(p, acts, front);
      ShapeAlways(p, acts + front);
      MarkStep(p, After(p, acts + front), more[|more| - 1]);
    }
  }

  lemma MarkStep(p: Plan, s: State, a: Act)
    requires Proper(p) && Shape(p, s)
    ensures Step(p, s, a).hwm >= s.hwm
  {
    if a.Tick? && s.todo != [] {
      TickMoves(p, s, a.answered);
    }
  }
}
