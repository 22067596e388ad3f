/** The checkpoint is safe to restart from, never moves back, and is never far behind. */
module Checkpoints {
  import opened Chain
  import opened Tables
  import opened Script
  import opened Plans
  import opened Machine
  import opened Invariant
  import opened Replay
  import opened Confluence

  /** No multiple of 100 lies strictly above the checkpoint and below the cursor. */
  predicate NoneMissed(s: State) {
    forall m :: s.disk.checkpoint < m < s.cursor ==> m % 100 != 0
  }

  function Min(a: nat, b: nat): nat {
    if a < b then a else b
  }

  /** The furthest instruction ever executed is at most in block checkpoint + 100. */
  predicate MarkNear(p: Plan, s: State)
    requires s.disk.checkpoint <= p.Length()
  {
    s.hwm <= Start(p, Min(s.disk.checkpoint + 101, p.Length() + 1))
  }

  predicate LagOk(p: Plan, s: State)
    requires Shape(p, s)
  {
    NoneMissed(s) && MarkNear(p, s)
  }

  /** Between a number and the hundredth after it lies a multiple of 100. */
  lemma LagBound(s: State)
    requires NoneMissed(s) && s.disk.checkpoint < s.cursor
    ensures s.cursor - 1 - s.disk.checkpoint <= 99
  {
    var m := (s.disk.checkpoint / 100 + 1) * 100;
    assert m % 100 == 0 && s.disk.checkpoint < m <= s.disk.checkpoint + 100;
  }

  lemma EndCheckpoint(p: Plan, s: State, answered: bool)
    requires s.todo == [EndBlock(s.cursor)]
    ensures var t := RunInstr(p, s, answered);
            t.cursor == s.cursor + 1
            && t.disk.checkpoint == if s.cursor % 100 == 0 then s.cursor else s.disk.checkpoint
  {
  }

  lemma TickNone(p: Plan, s: State, answered: bool)
    requires Proper(p) && Shape(p, s) && NoneMissed(s) && s.todo != []
    ensures var t := RunInstr(p, s, answered);
            NoneMissed(t) && t.disk.checkpoint >= s.disk.checkpoint && t.hwm <= Max(Start(p, s.cursor + 1), s.hwm)
  {
    TickMoves(p, s, answered);
    AtPosition(p, s);
    if |s.todo| == 1 {
      assert s.todo == [EndBlock(s.cursor)];
      EndCheckpoint(p, s, answered);
    }
  }

  lemma MarkStaysNear(p: Plan, s: State, t: State)
    requires Shape(p, s) && LagOk(p, s) && Shape(p, t)
    requires t.disk.checkpoint >= s.disk.checkpoint
    requires s.todo != [] && t.hwm <= Max(Start(p, s.cursor + 1), s.hwm)
    ensures MarkNear(p, t)
  {
    LagBound(s);
    StartMonotone(p, s.cursor + 1, Min(s.disk.checkpoint + 101, p.Length() + 1));
    StartMonotone(p, Min(s.disk.checkpoint + 101, p.Length() + 1), Min(t.disk.checkpoint + 101, p.Length() + 1));
  }

  lemma LagTick(p: Plan, s: State, answered: bool)
    requires Proper(p) && Shape(p, s) && LagOk(p, s) && s.todo != []
    ensures Shape(p, RunInstr(p, s, answered)) && LagOk(p, RunInstr(p, s, answered))
    ensures RunInstr(p, s, answered).disk.checkpoint >= s.disk.checkpoint
  {
    ShapeTick(p, s, answered);
    TickNone(p, s, answered);
    MarkStaysNear(p, s, RunInstr(p, s, answered));
  }

  lemma LagOther(p: Plan, s: State, a: Act)
    requires Proper(p) && Shape(p, s) && LagOk(p, s) && !a.Tick?
    ensures Shape(p, Step(p, s, a)) && LagOk(p, Step(p, s, a))
    ensures Step(p, s, a).disk.checkpoint >= s.disk.checkpoint
  {
    ShapeStep(p, s, a);
    OtherKeeps(p, s, a);
    LagKept(p, s, Step(p, s, a));
  }

  /** Between instructions the checkpoint moves only to the cursor, and an error raises the
      mark at most to the end of the block. */
  lemma OtherKeeps(p: Plan, s: State, a: Act)
    requires Proper(p) && Shape(p, s) && !a.Tick?
    ensures var t := Step(p, s, a);
            && t.disk.checkpoint >= s.disk.checkpoint
            && (t.disk.checkpoint == s.disk.checkpoint || t.disk.checkpoint == s.cursor - 1)
            && t.cursor <= s.cursor
            && (t.hwm == s.hwm || (s.cursor <= p.Length() && t.hwm <= Max(Start(p, s.cursor + 1), s.hwm)))
  {
  }

  lemma LagKept(p: Plan, s: State, t: State)
    requires Proper(p) && Shape(p, s) && LagOk(p, s) && Shape(p, t)
    requires t.disk.checkpoint >= s.disk.checkpoint && t.cursor <= s.cursor
    requires t.hwm == s.hwm || (s.cursor <= p.Length() && t.hwm <= Max(Start(p, s.cursor + 1), s.hwm))
    ensures LagOk(p, t)
  {
    LagBound(s);
    var limit := Min(s.disk.checkpoint + 101, p.Length() + 1);
    StartMonotone(p, limit, Min(t.disk.checkpoint + 101, p.Length() + 1));
    if s.cursor <= p.Length() {
      StartMonotone(p, s.cursor + 1, limit);
    }
  }

  lemma LagStep(p: Plan, s: State, a: Act)
    requires Proper(p) && Shape(p, s) && LagOk(p, s)
    ensures Shape(p, Step(p, s, a)) && LagOk(p, Step(p, s, a))
    ensures Step(p, s, a).disk.checkpoint >= s.disk.checkpoint
  {
    if a.Tick? && s.todo != [] {
      LagTick(p, s, a.answered);
    } else if !a.Tick? {
      LagOther(p, s, a);
    }
  }

  lemma {:induction false} LagAlways(p: Plan, acts: seq<Act>)
    requires Proper(p)
    ensures Shape(p, After(p, acts)) && LagOk(p, After(p, acts))
  {
    if acts != [] {
      LagAlways(p, acts[..|acts| - 1]);
      LagStep(p, After(p, acts[..|acts| - 1]), acts[|acts| - 1]);
    }
  }

  /** In every run the checkpoint is less than 100 complete blocks behind the cursor, no
      multiple of 100 lies between them, and the furthest block ever touched is within 100
      of it: a restart replays at most 99 complete blocks and one partial one. */
  lemma CheckpointLag(p: Plan, acts: seq<Act>)
    requires Proper(p)
    ensures var s := After(p, acts);
            && 0 <= s.cursor - 1 - s.disk.checkpoint <= 99
            && NoneMissed(s)
            && s.disk.checkpoint <= p.Length() && MarkNear(p, s)
  {
    LagAlways(p, acts);
    LagBound(After(p, acts));
  }

  /** Over any extension of a run, restarts included, the checkpoint never decreases. */
  lemma {:induction false} CheckpointMonotone(p: Plan, acts: seq<Act>, more: seq<Act>)
    requires Proper(p)
    ensures After(p, acts + more).disk.checkpoint >= After(p, acts).disk.checkpoint
  {
    if more == [] {
      assert acts + more == acts;
    } else {
      var front := more[..|more| - 1];
      assert (acts + more)[..|acts + more| - 1] == acts + front;
      CheckpointMonotone(p, acts, front);
      LagAlways(p, acts + front);
      LagStep(p, After(p, acts + front), more[|more| - 1]);
    }
  }

  /** Every instruction of the blocks up to the checkpoint has taken effect for good: it is
      settled in the tables, and executing it again would change none of them; on transfer
      history this rests on events that follow registrations. So no block at or below the
      restart point is ever missing. */
  lemma CheckpointSafety(p: Plan, acts: seq<Act>, i: nat, whole: bool)
    requires Orderly(p, whole) && FailStop(acts)
    ensures var s := After(p, acts);
            && s.disk.checkpoint <= p.Length()
            && (i < Start(p, s.disk.checkpoint + 1) ==>
                  && i < |All(p)| && Settled(s.disk.tables, All(p)[i])
                  && Part(whole, Effect(s.disk.tables, All(p)[i])) == Part(whole, s.disk.tables))
  {
    ShapeAlways(p, acts);
    ConfluentAlways(p, acts, whole);
    ConfluentAlways(p, acts, false);
    FailStopNotSoft(p, acts);
    SafeState(p, After(p, acts), i, whole);
  }

  lemma SafeState(p: Plan, s: State, i: nat, whole: bool)
    requires Orderly(p, whole) && Shape(p, s) && Confluent(p, s, whole) && Confluent(p, s, false) && !s.soft
    ensures s.disk.checkpoint <= p.Length()
    ensures i < Start(p, s.disk.checkpoint + 1) ==>
              && i < |All(p)| && Settled(s.disk.tables, All(p)[i])
              && Part(whole, Effect(s.disk.tables, All(p)[i])) == Part(whole, s.disk.tables)
  {
    if i < Start(p, s.disk.checkpoint + 1) {
      SafeAt(p, s, i, whole);
    }
  }

  lemma SafeAt(p: Plan, s: State, i: nat, whole: bool)
    requires Orderly(p, whole) && Shape(p, s) && Confluent(p, s, whole) && Confluent(p, s, false) && !s.soft
    requires i < Start(p, s.disk.checkpoint + 1)
    ensures i < |All(p)| && Settled(s.disk.tables, All(p)[i])
    ensures Part(whole, Effect(s.disk.tables, All(p)[i])) == Part(whole, s.disk.tables)
  {
    var a, ideal := All(p), Ideal(p, s.hwm);
    PlanOrdersBackFills(p);
    PrefixSettled(a, i, s.hwm);
    SettledPart(ideal, s.disk.tables, a[i]);
    Absorbed(a, i, s.hwm, whole);
    PartEffect(whole, s.disk.tables, ideal, a[i]);
  }

  lemma SettledPart(d: Tables, e: Tables, i: Instr)
    requires Settled(d, i) && Part(false, d) == Part(false, e)
    ensures Settled(e, i)
  {
  }
}
