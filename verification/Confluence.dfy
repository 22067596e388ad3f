/** Replay confluence: as long as errors only ever stop the process, the deterministic tables
    are a function of how far the scan has ever come. */
module Confluence {
  import opened Chain
  import opened Tables
  import opened Script
  import opened Plans
  import opened Machine
  import opened Invariant
  import opened Replay

  /** What a plan must satisfy: it comes from the loops, and events follow registrations. */
  predicate Sound(p: Plan) {
    Proper(p) && EventsFollowRegistration(All(p))
  }

  /** Each cached schema is the live schema of an existing table. */
  predicate CacheCoherent(s: State) {
    forall t :: t in s.cache ==> t in s.disk.tables.schemas && s.cache[t] == s.disk.tables.schemas[t]
  }

  /** The tables, or all of them but transfer history, are the ideal ones. */
  predicate Confluent(p: Plan, s: State, whole: bool) {
    !s.soft ==> s.hwm <= |All(p)| && Part(whole, s.disk.tables) == Part(whole, Ideal(p, s.hwm))
  }

  /** What confluence of all tables takes beyond a proper plan. */
  predicate Orderly(p: Plan, whole: bool) {
    Proper(p) && (whole ==> EventsFollowRegistration(All(p)))
  }

  /** One substep either leaves the tables alone, or executes the instruction's effect. */
  predicate EffectOnce(s: State, i: Instr, o: Outcome) {
    o.disk.tables == if o.effect then Effect(s.disk.tables, i) else s.disk.tables
  }

  lemma TokenEffect(p: Plan, s: State, i: Instr, answered: bool)
    requires i.SaveToken?
    ensures EffectOnce(s, i, Execute(p, s, i, answered))
  {
  }

  lemma ReceiptEffect(p: Plan, s: State, answered: bool)
    requires SavingOk(p, s) && s.todo != [] && s.todo[0].SaveReceipt?
    ensures EffectOnce(s, s.todo[0], Execute(p, s, s.todo[0], answered))
  {
  }

  lemma InsertEffect(p: Plan, s: State, i: Instr, answered: bool)
    requires CacheCoherent(s) && i.InsertOp?
    ensures EffectOnce(s, i, Execute(p, s, i, answered))
  {
  }

  lemma OtherEffect(p: Plan, s: State, i: Instr, answered: bool)
    requires !i.SaveToken? && !i.SaveReceipt? && !i.InsertOp?
    ensures EffectOnce(s, i, Execute(p, s, i, answered))
  {
    if i.EndBlock? || i.Refresh? || i.Halt? {
      assert Effect(s.disk.tables, i) == s.disk.tables;
    }
  }

  lemma TickEffect(p: Plan, s: State, answered: bool)
    requires SavingOk(p, s) && CacheCoherent(s) && s.todo != []
    ensures EffectOnce(s, s.todo[0], Execute(p, s, s.todo[0], answered))
  {
    match s.todo[0]
    case SaveToken(_, _) => TokenEffect(p, s, s.todo[0], answered);
    case SaveReceipt(_) => ReceiptEffect(p, s, answered);
    case InsertOp(_, _) => InsertEffect(p, s, s.todo[0], answered);
    case _ => OtherEffect(p, s, s.todo[0], answered);
  }

  // ---- schema cache ----

  lemma InsertCaches(p: Plan, s: State, i: Instr, answered: bool)
    requires CacheCoherent(s) && i.InsertOp?
    ensures var o := Execute(p, s, i, answered); CacheCoherent(s.(disk := o.disk, cache := o.cache))
  {
  }

  lemma EffectKeepsSchemas(d: Tables, i: Instr, t: string)
    requires t in d.schemas
    ensures t in Effect(d, i).schemas && Effect(d, i).schemas[t] == d.schemas[t]
  {
  }

  lemma OthersKeepCache(p: Plan, s: State, i: Instr, answered: bool)
    requires !i.InsertOp?
    ensures Execute(p, s, i, answered).cache == s.cache
  {
  }

  lemma CacheTick(p: Plan, s: State, answered: bool)
    requires SavingOk(p, s) && CacheCoherent(s) && s.todo != []
    ensures CacheCoherent(RunInstr(p, s, answered))
  {
    var i := s.todo[0];
    if i.InsertOp? {
      InsertCaches(p, s, i, answered);
    } else {
      OthersKeepCache(p, s, i, answered);
      TickEffect(p, s, answered);
      var schemas := Effect(s.disk.tables, i).schemas;
      forall x | x in s.cache ensures x in schemas && s.cache[x] == schemas[x] {
        EffectKeepsSchemas(s.disk.tables, i, x);
      }
    }
  }

  lemma CacheStep(p: Plan, s: State, a: Act)
    requires Shape(p, s) && CacheCoherent(s)
    ensures CacheCoherent(Step(p, s, a))
  {
    if a.Tick? && s.todo != [] {
      CacheTick(p, s, a.answered);
    }
  }

  /** Schema-cache coherence, in every run and even across errors that are only logged: a
      cached schema is the schema of an existing table. */
  lemma {:induction false} SchemaCacheCoherence(p: Plan, acts: seq<Act>)
    requires Proper(p)
    ensures CacheCoherent(After(p, acts))
  {
    if acts != [] {
      var before := acts[..|acts| - 1];
      ShapeAlways(p, before);
      SchemaCacheCoherence(p, before);
      CacheStep(p, After(p, before), acts[|acts| - 1]);
    }
  }

  // ---- confluence ----

  /** Executing an instruction at or below the mark takes the ideal tables to the ideal
      tables of the mark moved to cover it: new effects happen once, old ones not again. */
  lemma IdealAbsorbs(p: Plan, i: nat, mark: nat, whole: bool)
    requires Orderly(p, whole) && i <= mark <= |All(p)| && i < |All(p)|
    ensures Max(i + 1, mark) <= |All(p)|
    ensures Part(whole, Effect(Ideal(p, mark), All(p)[i])) == Part(whole, Ideal(p, Max(i + 1, mark)))
  {
    PlanOrdersBackFills(p);
    if i < mark {
      Absorbed(All(p), i, mark, whole);
    } else {
      PrefixStep(All(p), i);
    }
  }

  lemma ConfluentTick(p: Plan, s: State, answered: bool, whole: bool)
    requires Orderly(p, whole) && Shape(p, s) && CacheCoherent(s) && Confluent(p, s, whole)
    requires !s.soft && s.todo != []
    ensures Confluent(p, RunInstr(p, s, answered), whole)
  {
    AtPosition(p, s);
    TickEffect(p, s, answered);
    TickMoves(p, s, answered);
    ConfluentMove(p, s, RunInstr(p, s, answered), Execute(p, s, s.todo[0], answered), whole);
  }

  lemma ConfluentMove(p: Plan, s: State, t: State, o: Outcome, whole: bool)
    requires Orderly(p, whole) && Confluent(p, s, whole) && !s.soft && s.todo != []
    requires 0 <= Position(p, s) < |All(p)| && All(p)[Position(p, s)] == s.todo[0] && Position(p, s) <= s.hwm
    requires EffectOnce(s, s.todo[0], o)
    requires t.disk == o.disk && t.hwm == if o.effect then Reached(p, s) else s.hwm
    ensures Confluent(p, t, whole)
  {
    if o.effect {
      IdealAbsorbs(p, Position(p, s), s.hwm, whole);
      PartEffect(whole, s.disk.tables, Ideal(p, s.hwm), s.todo[0]);
    }
  }

  /** Outside the execution of instructions, tables and mark stay, or the run turns soft. */
  lemma OtherSteps(p: Plan, s: State, act: Act)
    requires act.Tick? ==> s.todo == []
    ensures var t := Step(p, s, act);
            t.soft || (!s.soft && t.disk.tables == s.disk.tables && t.hwm == s.hwm)
  {
  }

  lemma ConfluentStep(p: Plan, s: State, act: Act, whole: bool)
    requires Orderly(p, whole) && Shape(p, s) && CacheCoherent(s) && Confluent(p, s, whole)
    ensures Confluent(p, Step(p, s, act), whole)
  {
    if act.Tick? && s.todo != [] {
      TickMoves(p, s, act.answered);
      if !s.soft {
        ConfluentTick(p, s, act.answered, whole);
      }
    } else {
      OtherSteps(p, s, act);
    }
  }

  lemma {:induction false} ConfluentAlways(p: Plan, acts: seq<Act>, whole: bool)
    requires Orderly(p, whole)
    ensures Confluent(p, After(p, acts), whole)
  {
    if acts != [] {
      var before := acts[..|acts| - 1];
      ShapeAlways(p, before);
      SchemaCacheCoherence(p, before);
      ConfluentAlways(p, before, whole);
      ConfluentStep(p, After(p, before), acts[|acts| - 1], whole);
    } else {
      assert All(p)[..0] == [];
    }
  }

  lemma NotSoftStep(p: Plan, s: State, act: Act)
    requires Proper(p) && Shape(p, s) && !s.soft && !act.Skip?
    ensures !Step(p, s, act).soft
  {
    if act.Tick? && s.todo != [] {
      TickMoves(p, s, act.answered);
    }
  }

  lemma {:induction false} FailStopNotSoft(p: Plan, acts: seq<Act>)
    requires Proper(p) && FailStop(acts)
    ensures !After(p, acts).soft
  {
    if acts != [] {
      var before := acts[..|acts| - 1];
      FailStopNotSoft(p, before);
      ShapeAlways(p, before);
      NotSoftStep(p, After(p, before), acts[|acts| - 1]);
    }
  }

  /** Replay confluence: after any run with crashes and restarts at any write boundary, the
      deterministic tables are exactly those of one undisturbed pass over the script up to
      the high-water mark. */
  lemma ReplayConfluence(p: Plan, acts: seq<Act>)
    requires Sound(p) && FailStop(acts)
    ensures var s := After(p, acts); s.hwm <= |All(p)| && s.disk.tables == Ideal(p, s.hwm)
  {
    ConfluentAlways(p, acts, true);
    FailStopNotSoft(p, acts);
  }

  /** The same for all tables but transfer history, with no assumption on when a contract's
      events come. */
  lemma ReplayConfluenceButHistory(p: Plan, acts: seq<Act>)
    requires Proper(p) && FailStop(acts)
    ensures var s := After(p, acts);
            s.hwm <= |All(p)| && Part(false, s.disk.tables) == Part(false, Ideal(p, s.hwm))
  {
    ConfluentAlways(p, acts, false);
    FailStopNotSoft(p, acts);
  }

  /** Two runs that have come equally far agree on every deterministic table, whatever
      crashes, replays and node advances each of them went through. */
  lemma RunsAgree(p: Plan, acts1: seq<Act>, acts2: seq<Act>)
    requires Sound(p) && FailStop(acts1) && FailStop(acts2)
    requires After(p, acts1).hwm == After(p, acts2).hwm
    ensures After(p, acts1).disk.tables == After(p, acts2).disk.tables
  {
    ReplayConfluence(p, acts1);
    ReplayConfluence(p, acts2);
  }

  /** Below the mark nothing changes: a step that does not raise it leaves every
      deterministic table as it was. */
  lemma ReplayIsSilent(p: Plan, acts: seq<Act>, a: Act)
    requires Sound(p) && FailStop(acts) && !a.Skip?
    requires Step(p, After(p, acts), a).hwm == After(p, acts).hwm
    ensures Step(p, After(p, acts), a).disk.tables == After(p, acts).disk.tables
  {
    AfterStep(p, acts, a);
    ReplayConfluence(p, acts);
    ReplayConfluence(p, acts + [a]);
  }
}
