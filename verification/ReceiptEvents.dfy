/** A receipt and its event rows are separate writes, and a receipt that exists is never saved
    again. So events are stored at most once, and those a crash cut off are never stored. */
module ReceiptEvents {
  import opened Wrappers
  import opened Chain
  import opened Tables
  import opened Script
  import opened Plans
  import opened Machine
  import opened Invariant

  /** The receipt whose save is in progress. */
  predicate InSave(s: State, k: ReceiptKey) {
    s.saving.Some? && s.todo != [] && s.todo[0].SaveReceipt? && KeyOf(s.todo[0].receipt) == k
  }

  predicate KeyOk(s: State, k: ReceiptKey)
    requires k in s.disk.tables.receipts
  {
    && k in s.disk.events
    && s.disk.events[k] <= s.disk.tables.receipts[k].events
    && (InSave(s, k) ==>
          && s.disk.tables.receipts[k] == s.todo[0].receipt
          && s.disk.events[k] == s.todo[0].receipt.events[..Min(s.saving.value, |s.todo[0].receipt.events|)])
    && (!InSave(s, k) && k !in s.torn ==> s.disk.events[k] == s.disk.tables.receipts[k].events)
  }

  function Min(a: nat, b: nat): nat {
    if a < b then a else b
  }

  predicate EventsOk(s: State) {
    && s.disk.events.Keys == s.disk.tables.receipts.Keys
    && forall k :: k in s.disk.tables.receipts ==> KeyOk(s, k)
  }

  /** The receipt row is written, its first event row is next. */
  lemma ReceiptBegins(p: Plan, s: State, r: Receipt, answered: bool)
    requires Shape(p, s) && EventsOk(s) && s.todo != [] && s.todo[0] == SaveReceipt(r)
    requires s.saving == None && KeyOf(r) !in s.disk.tables.receipts
    ensures EventsOk(RunInstr(p, s, answered))
  {
    var t := RunInstr(p, s, answered);
    forall k | k in t.disk.tables.receipts ensures KeyOk(t, k) {
      if k in s.disk.tables.receipts {
        assert KeyOk(s, k);
      }
    }
  }

  /** One more event row. */
  lemma EventWritten(p: Plan, s: State, r: Receipt, answered: bool)
    requires Shape(p, s) && EventsOk(s) && s.todo != [] && s.todo[0] == SaveReceipt(r)
    requires s.saving.Some? && s.saving.value < |r.events|
    ensures EventsOk(RunInstr(p, s, answered))
  {
    var t := RunInstr(p, s, answered);
    var n := s.saving.value;
    assert KeyOk(s, KeyOf(r)) && InSave(s, KeyOf(r));
    assert r.events[..n] + [r.events[n]] == r.events[..n + 1];
    forall k | k in t.disk.tables.receipts ensures KeyOk(t, k) {
      assert KeyOk(s, k);
    }
  }

  /** The save is complete, or there was nothing to save. */
  lemma ReceiptEnds(p: Plan, s: State, r: Receipt, answered: bool)
    requires Shape(p, s) && EventsOk(s) && s.todo != [] && s.todo[0] == SaveReceipt(r)
    requires s.saving.Some? ==> s.saving.value == |r.events|
    requires s.saving.None? ==> KeyOf(r) in s.disk.tables.receipts
    ensures EventsOk(RunInstr(p, s, answered))
  {
    var t := RunInstr(p, s, answered);
    assert r.events[..|r.events|] == r.events;
    forall k | k in t.disk.tables.receipts ensures KeyOk(t, k) {
      assert KeyOk(s, k);
    }
  }

  lemma ReceiptStep(p: Plan, s: State, answered: bool)
    requires Shape(p, s) && EventsOk(s) && s.todo != [] && s.todo[0].SaveReceipt?
    ensures EventsOk(RunInstr(p, s, answered))
  {
    var r := s.todo[0].receipt;
    if s.saving.None? && KeyOf(r) !in s.disk.tables.receipts {
      ReceiptBegins(p, s, r, answered);
    } else if s.saving.Some? && s.saving.value < |r.events| {
      EventWritten(p, s, r, answered);
    } else {
      ReceiptEnds(p, s, r, answered);
    }
  }

  lemma EffectReceipts(d: Tables, i: Instr)
    requires !i.SaveReceipt?
    ensures Effect(d, i).receipts == d.receipts
  {
  }

  /** Any other instruction touches neither receipts nor event rows. */
  lemma OtherTick(p: Plan, s: State, i: Instr, answered: bool)
    requires !i.SaveReceipt?
    ensures KeepsEvents(s, Execute(p, s, i, answered))
  {
    match i
    case Refresh(_, _, _) => RefreshTick(p, s, i, answered);
    case SaveToken(_, _) => TokenTick(p, s, i, answered);
    case InsertOp(_, _) => InsertTick(p, s, i, answered);
    case _ => EffectReceipts(s.disk.tables, i);
  }

  predicate KeepsEvents(s: State, o: Outcome) {
    && o.disk.events == s.disk.events && o.disk.tables.receipts == s.disk.tables.receipts
    && (o.saving == None || o.saving == s.saving)
  }

  lemma RefreshTick(p: Plan, s: State, i: Instr, answered: bool)
    requires i.Refresh?
    ensures KeepsEvents(s, Execute(p, s, i, answered))
  {
  }

  lemma TokenTick(p: Plan, s: State, i: Instr, answered: bool)
    requires i.SaveToken?
    ensures KeepsEvents(s, Execute(p, s, i, answered))
  {
    EffectReceipts(s.disk.tables, i);
  }

  lemma InsertTick(p: Plan, s: State, i: Instr, answered: bool)
    requires i.InsertOp?
    ensures KeepsEvents(s, Execute(p, s, i, answered))
  {
  }

  lemma EventsKept(s: State, t: State)
    requires EventsOk(s) && t.disk.events == s.disk.events && t.disk.tables.receipts == s.disk.tables.receipts
    requires s.torn <= t.torn && t.saving == None
    requires forall k :: InSave(s, k) ==> k in t.torn
    ensures EventsOk(t)
  {
    forall k | k in t.disk.tables.receipts ensures KeyOk(t, k) {
      assert KeyOk(s, k);
    }
  }

  lemma EventsStep(p: Plan, s: State, a: Act)
    requires Proper(p) && Shape(p, s) && EventsOk(s)
    ensures EventsOk(Step(p, s, a))
  {
    match a
    case Tick(answered) =>
      if s.todo != [] {
        if s.todo[0].SaveReceipt? {
          ReceiptStep(p, s, answered);
        } else {
          OtherTick(p, s, s.todo[0], answered);
          EventsKept(s, RunInstr(p, s, answered));
        }
      }
    case Crash => EventsKept(s, Restart(s));
    case Poll =>
      if s.todo == [] {
        EventsKept(s, Fetch(p, s));
      }
    case Mark =>
      if s.todo == [] {
        EventsKept(s, MarkScanned(s));
      }
    case Skip(count) =>
      if s.saving.None? {
        EventsKept(s, Drop(p, s, count));
      }
    case NodeAdvance =>
      forall k | k in s.disk.tables.receipts ensures KeyOk(Step(p, s, a), k) {
        assert KeyOk(s, k);
      }
  }

  /** Events at most once, in every run: the event rows stored for a receipt are a prefix of
      the events of the receipt row under that key, and all of them unless its save is still
      in progress or a crash fell inside it. */
  lemma {:induction false} EventsAtMostOnce(p: Plan, acts: seq<Act>)
    requires Proper(p)
    ensures EventsOk(After(p, acts))
  {
    if acts != [] {
      var before := acts[..|acts| - 1];
      EventsAtMostOnce(p, before);
      ShapeAlways(p, before);
      EventsStep(p, After(p, before), acts[|acts| - 1]);
    }
  }

  /** A receipt row, once stored, stays the same over every continuation of the run. */
  lemma {:induction false} FirstReceiptStays(p: Plan, acts: seq<Act>, more: seq<Act>, k: ReceiptKey)
    requires k in After(p, acts).disk.tables.receipts
    ensures k in After(p, acts + more).disk.tables.receipts
    ensures After(p, acts + more).disk.tables.receipts[k] == After(p, acts).disk.tables.receipts[k]
  {
    if more == [] {
      assert acts + more == acts;
    } else {
      var front := more[..|more| - 1];
      assert (acts + more)[..|acts + more| - 1] == acts + front;
      FirstReceiptStays(p, acts, front, k);
      ReceiptStays(p, After(p, acts + front), more[|more| - 1], k);
    }
  }

  lemma ReceiptStays(p: Plan, s: State, a: Act, k: ReceiptKey)
    requires k in s.disk.tables.receipts
    ensures k in Step(p, s, a).disk.tables.receipts
    ensures Step(p, s, a).disk.tables.receipts[k] == s.disk.tables.receipts[k]
  {
    if a.Tick? && s.todo != [] && !s.todo[0].SaveReceipt? {
      OtherTick(p, s, s.todo[0], a.answered);
    }
  }
}
