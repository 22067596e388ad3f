/** The events of the chain that the scanner looks at, and where each of them stands in the whole
    script. */
module EventLog {
  import opened Wrappers
  import opened Numerals
  import opened Json
  import opened Chain
  import opened Tables
  import opened Readings
  import opened Script
  import opened Plans
  import opened Replay
  import opened Places
  import opened OpContents
  import opened ChainNames

  // ---- the events of one operation ----

  /** What an operation does before the invoke plugin, and what that does after the events. */
  function OpHead(num: nat, block: Block, t: nat, tx: Tx, o: nat, form: OpForm): seq<Instr>
    requires form.Good?
  {
    var f := Augment(num, tx.txid, o, form.fields);
    OwnRows(num, t, tx, o, form.opType, form.opName, f)
    + (TransferScript(form.opName, f)
       + (AccountScript(form.opName, f)
          + (AssetScript(f) + RegisterScript(num, tx.txid, form.opName, f, ReceiptFor(tx, o)))))
  }

  function OpTail(num: nat, tx: Tx, o: nat, r: Receipt): seq<Instr> {
    DepositsScript(r.deposits) + LeftoverScript(num, tx.txid, o, r)
  }

  lemma Regroup<T>(h: seq<T>, a: seq<T>, b: seq<T>, c: seq<T>, d: seq<T>, e: seq<T>)
    ensures h + (a + (b + (c + (d + e)))) == (h + (a + (b + (c + d)))) + e
  {
  }

  lemma OpSplit(num: nat, block: Block, t: nat, tx: Tx, o: nat, form: OpForm)
    requires form.Good?
    ensures OpScript(num, block, t, tx, o, form)
            == OpHead(num, block, t, tx, o, form) + InvokeScript(num, block, tx.txid, o, ReceiptFor(tx, o))
  {
    var f, r := Augment(num, tx.txid, o, form.fields), ReceiptFor(tx, o);
    Regroup(OwnRows(num, t, tx, o, form.opType, form.opName, f), TransferScript(form.opName, f),
            AccountScript(form.opName, f), AssetScript(f), RegisterScript(num, tx.txid, form.opName, f, r),
            InvokeScript(num, block, tx.txid, o, r));
  }

  /** Nothing that an event causes. */
  predicate NoneOfEvents(s: seq<Instr>) {
    forall k :: 0 <= k < |s| ==> !OfEvent(s[k])
  }

  lemma NoneConcat(a: seq<Instr>, b: seq<Instr>)
    requires NoneOfEvents(a) && NoneOfEvents(b)
    ensures NoneOfEvents(a + b)
  {
  }

  lemma PartsNone(num: nat, block: Block, txid: string, index: nat, name: string, f: Fields, r: Option<Receipt>)
    ensures NoneOfEvents(TransferScript(name, f)) && NoneOfEvents(AccountScript(name, f))
    ensures NoneOfEvents(AssetScript(f)) && NoneOfEvents(RegisterScript(num, txid, name, f, r))
  {
    PartsOf(num, block, txid, index, name, f, r, EndBlock(num));
    forall i | i in RegisterScript(num, txid, name, f, r) || i in AccountScript(name, f) ensures !OfEvent(i) {
      PartsOf(num, block, txid, index, name, f, r, i);
    }
  }

  lemma HeadNone(num: nat, block: Block, t: nat, tx: Tx, o: nat, form: OpForm)
    requires form.Good?
    ensures NoneOfEvents(OpHead(num, block, t, tx, o, form))
  {
    var f, r := Augment(num, tx.txid, o, form.fields), ReceiptFor(tx, o);
    var register := RegisterScript(num, tx.txid, form.opName, f, r);
    PartsNone(num, block, tx.txid, o, form.opName, f, r);
    NoneConcat(AssetScript(f), register);
    NoneConcat(AccountScript(form.opName, f), AssetScript(f) + register);
    NoneConcat(TransferScript(form.opName, f), AccountScript(form.opName, f) + (AssetScript(f) + register));
  }

  /** Whatever an event causes stands where the events do. */
  lemma EventsIn(num: nat, block: Block, txid: string, index: nat, r: Option<Receipt>, k: nat)
    requires k < |InvokeScript(num, block, txid, index, r)| && OfEvent(InvokeScript(num, block, txid, index, r)[k])
    ensures r.Some? && r.value.succeeded && block.timestampParses
    ensures k < |EventsScript(num, txid, index, r.value.events)|
  {
    DepositsBecause(r.value.deposits);
  }

  lemma FindIn(s: seq<Instr>, head: seq<Instr>, invoke: seq<Instr>, num: nat, block: Block, tx: Tx, o: nat, k: nat)
    returns (r: Receipt)
    requires s == head + invoke && NoneOfEvents(head) && k < |s| && OfEvent(s[k])
    requires invoke == InvokeScript(num, block, tx.txid, o, ReceiptFor(tx, o))
    ensures IsHeard(block, tx, o, r) && |head| <= k < |head| + |EventsScript(num, tx.txid, o, r.events)|
  {
    AfterHead(s, head, invoke, k);
    EventsIn(num, block, tx.txid, o, ReceiptFor(tx, o), k - |head|);
    r := ReceiptFor(tx, o).value;
    ReceiptExactly(tx, o, r);
  }

  lemma OpFind(num: nat, block: Block, t: nat, tx: Tx, o: nat, form: OpForm, s: seq<Instr>, k: nat) returns (r: Receipt)
    requires form.Good? && s == OpScript(num, block, t, tx, o, form) && k < |s| && OfEvent(s[k])
    ensures IsHeard(block, tx, o, r)
    ensures var head := |OpHead(num, block, t, tx, o, form)|;
            head <= k < head + |EventsScript(num, tx.txid, o, r.events)|
  {
    OpSplit(num, block, t, tx, o, form);
    HeadNone(num, block, t, tx, o, form);
    r := FindIn(s, OpHead(num, block, t, tx, o, form), InvokeScript(num, block, tx.txid, o, ReceiptFor(tx, o)),
                num, block, tx, o, k);
  }

  lemma AfterHead(s: seq<Instr>, head: seq<Instr>, rest: seq<Instr>, k: nat)
    requires s == head + rest && NoneOfEvents(head) && k < |s| && OfEvent(s[k])
    ensures |head| <= k && s[k] == rest[k - |head|]
  {
  }

  lemma OthersNone(num: nat, block: Block, t: nat, tx: Tx, o: nat, form: OpForm, i: Instr)
    requires i in OpScript(num, block, t, tx, o, form) && OfEvent(i)
    ensures form.Good?
  {
    if !form.Good? {
      OthersExactly(num, block, t, tx, o, form, i);
    }
  }

  // ---- the log ----

  /** Event k of operation o of transaction t of block n. */
  datatype Spot = Spot(n: nat, t: nat, o: nat, k: nat)

  /** event says what event the scanner finds at a spot, if it looks there at all; key is the
      operation's; registered tells which contracts are token contracts by a block. */
  datatype EventMap = EventMap(event: Spot -> Option<Event>, key: Spot -> ReceiptKey,
                               registered: (nat, string) -> bool)

  function OpOf(x: Spot): Place {
    Place(x.n, x.t, x.o)
  }

  /** The invoke plugin looks at the events of the operation. */
  predicate SeenOp(w: World, y: Place) {
    && Tried(w, y) && Scannable(w.names, TxAt(w, y).ops[y.o])
    && y.o < |TxAt(w, y).receipts| && IsHeard(BlockAt(w, y.n), TxAt(w, y), y.o, TxAt(w, y).receipts[y.o])
  }

  function EventsOf(w: World, y: Place): seq<Event>
    requires SeenOp(w, y)
  {
    TxAt(w, y).receipts[y.o].events
  }

  predicate Seen(w: World, x: Spot) {
    SeenOp(w, OpOf(x)) && x.k < |EventsOf(w, OpOf(x))|
  }

  function EventAt(w: World, x: Spot): (e: Option<Event>)
    ensures e.Some? <==> Seen(w, x)
  {
    if Seen(w, x) then Some(EventsOf(w, OpOf(x))[x.k]) else None
  }

  function KeyAt(w: World, x: Spot): ReceiptKey {
    if Seen(w, x) then ReceiptKey(TxAt(w, OpOf(x)).txid, x.o) else ReceiptKey("", 0)
  }

  /** The events of a chain. */
  ghost function LogOf(w: World): EventMap {
    EventMap(x => EventAt(w, x), x => KeyAt(w, x), (last: nat, contract: string) => RegisteredBy(w, last, contract))
  }

  // ---- a log that is laid out in a plan ----

  /** What event x causes. */
  function Instrs(log: EventMap, x: Spot): seq<Instr>
    requires log.event(x).Some?
  {
    EventScript(x.n, log.key(x).txid, x.o, log.event(x).value)
  }

  /** From position pos(x) of the script on stands what event x causes. */
  ghost predicate EventStands(p: Plan, log: EventMap, pos: Spot -> nat, x: Spot) {
    log.event(x).Some? ==>
      && 1 <= x.n <= p.Length() && log.key(x) == ReceiptKey(log.key(x).txid, x.o)
      && Start(p, x.n) <= pos(x) && pos(x) + |Instrs(log, x)| <= Start(p, x.n + 1) <= |All(p)|
      && forall r :: 0 <= r < |Instrs(log, x)| ==> All(p)[pos(x) + r] == Instrs(log, x)[r]
  }

  /** Instruction i belongs to an event. */
  ghost predicate OfSomeEvent(log: EventMap, pos: Spot -> nat, i: nat) {
    exists x :: log.event(x).Some? && pos(x) <= i < pos(x) + |Instrs(log, x)|
  }

  /** Events of an operation follow one another, and operations are told apart by their keys. */
  ghost predicate Ordered(log: EventMap, pos: Spot -> nat, x: Spot, y: Spot) {
    log.event(x).Some? && log.event(y).Some? ==>
      && (log.key(x) == log.key(y) <==> y == x.(k := y.k))
      && (log.key(x) == log.key(y) && x.k < y.k ==> pos(x) + |Instrs(log, x)| <= pos(y))
  }

  predicate KnowsToken(p: Plan, log: EventMap, last: nat, contract: string)
    requires last <= p.Length()
  {
    Start(p, last + 1) <= |All(p)|
    && (RegisteredBefore(All(p), Start(p, last + 1), contract) <==> log.registered(last, contract))
  }

  /** Positions pos show where the events of the log stand in the whole script of the plan. */
  ghost predicate EventsLaid(p: Plan, log: EventMap, pos: Spot -> nat) {
    && (forall x {:trigger EventStands(p, log, pos, x)} :: EventStands(p, log, pos, x))
    && (forall x, y {:trigger Ordered(log, pos, x, y)} :: Ordered(log, pos, x, y))
    && (forall i {:trigger OfSomeEvent(log, pos, i)} ::
          0 <= i < |All(p)| && OfEvent(All(p)[i]) ==> OfSomeEvent(log, pos, i))
    && (forall last: nat, contract {:trigger KnowsToken(p, log, last, contract)} ::
          last <= p.Length() ==> KnowsToken(p, log, last, contract))
  }

  // ---- the events of a chain are laid out in its plan ----

  /** What the operation's events before this one cause. */
  function EventsBefore(w: World, x: Spot): seq<Instr>
    requires Seen(w, x)
  {
    EventsScript(x.n, KeyAt(w, x).txid, x.o, EventsOf(w, OpOf(x))[..x.k])
  }

  function Effects(w: World, y: Place): seq<Instr>
    requires SeenOp(w, y)
  {
    EventsScript(y.n, TxAt(w, y).txid, y.o, EventsOf(w, y))
  }

  function HeadOf(w: World, y: Place): seq<Instr>
    requires SeenOp(w, y)
  {
    OpHead(y.n, BlockAt(w, y.n), y.t, TxAt(w, y), y.o, FormOf(w, y))
  }

  function EventPosIn(w: World, x: Spot): nat {
    if Seen(w, x) then PosIn(w, OpOf(x)) + |HeadOf(w, OpOf(x))| + |EventsBefore(w, x)| else 0
  }

  function EventPosOf(w: World): Spot -> nat {
    x => EventPosIn(w, x)
  }

  lemma {:induction false} EventsPrefix(num: nat, txid: string, index: nat, events: seq<Event>, k: nat)
    requires k < |events|
    ensures EventsScript(num, txid, index, events[..k]) + EventScript(num, txid, index, events[k])
            <= EventsScript(num, txid, index, events)
  {
    if k > 0 {
      EventsPrefix(num, txid, index, events[1..], k - 1);
      assert events[1..][..k - 1] == events[..k][1..];
      Prepended(EventScript(num, txid, index, events[0]), EventsScript(num, txid, index, events[1..][..k - 1]),
                EventScript(num, txid, index, events[k]), EventsScript(num, txid, index, events[1..]));
    }
  }

  lemma {:induction false} EventsFind(num: nat, txid: string, index: nat, events: seq<Event>, i: nat) returns (k: nat)
    requires i < |EventsScript(num, txid, index, events)|
    ensures k < |events|
    ensures var before := |EventsScript(num, txid, index, events[..k])|;
            before <= i < before + |EventScript(num, txid, index, events[k])|
  {
    var first := |EventScript(num, txid, index, events[0])|;
    k := 0;
    if i >= first {
      k := EventsFind(num, txid, index, events[1..], i - first);
      k := k + 1;
      assert events[..k][1..] == events[1..][..k - 1];
    }
  }

  lemma EffectsStand(w: World, y: Place)
    requires SeenOp(w, y)
    ensures HeadOf(w, y) + Effects(w, y) <= OpInstrs(w, y)
  {
    var tx := TxAt(w, y);
    OpSplit(y.n, BlockAt(w, y.n), y.t, tx, y.o, FormOf(w, y));
    ReceiptExactly(tx, y.o, tx.receipts[y.o]);
    MiddlePrefix(HeadOf(w, y), Effects(w, y), OpTail(y.n, tx, y.o, tx.receipts[y.o]));
  }

  lemma EffectsPrefix(w: World, x: Spot)
    requires Seen(w, x)
    ensures EventsBefore(w, x) + Instrs(LogOf(w), x) <= Effects(w, OpOf(x))
  {
    EventsPrefix(x.n, KeyAt(w, x).txid, x.o, EventsOf(w, OpOf(x)), x.k);
  }

  lemma PartStands(p: Plan, l: Layout, log: EventMap, pos: Spot -> nat, x: Spot, head: seq<Instr>, effects: seq<Instr>,
                   before: seq<Instr>)
    requires Stands(p, l.log, l.pos, OpOf(x)) && l.log(OpOf(x)).Some?
    requires log.event(x).Some? && pos(x) == l.pos(OpOf(x)) + |head| + |before|
    requires log.key(x) == ReceiptKey(log.key(x).txid, x.o)
    requires head + effects <= l.log(OpOf(x)).value && before + Instrs(log, x) <= effects
    ensures EventStands(p, log, pos, x)
  {
    var mid, op, at := Instrs(log, x), l.log(OpOf(x)).value, l.pos(OpOf(x));
    forall r | 0 <= r < |mid| ensures All(p)[pos(x) + r] == mid[r] {
      assert (head + effects)[|head| + |before| + r] == effects[|before| + r];
      assert All(p)[at + (|head| + |before| + r)] == op[|head| + |before| + r];
    }
  }

  lemma EventPlaced(w: World, x: Spot)
    requires Seen(w, x)
    ensures EventStands(PlanOf(w), LogOf(w), EventPosOf(w), x)
  {
    OpPlaced(w, OpOf(x));
    EffectsStand(w, OpOf(x));
    EffectsPrefix(w, x);
    PartStands(PlanOf(w), OpLayout(w), LogOf(w), EventPosOf(w), x, HeadOf(w, OpOf(x)), Effects(w, OpOf(x)),
               EventsBefore(w, x));
  }

  /** An operation one of whose instructions is caused by an event. */
  lemma EventIn(w: World, y: Place, r: nat)
    requires Tried(w, y) && r < |OpInstrs(w, y)| && OfEvent(OpInstrs(w, y)[r])
    ensures SeenOp(w, y) && |HeadOf(w, y)| <= r < |HeadOf(w, y)| + |Effects(w, y)|
  {
    var tx := TxAt(w, y);
    OthersNone(y.n, BlockAt(w, y.n), y.t, tx, y.o, FormOf(w, y), OpInstrs(w, y)[r]);
    var receipt := OpFind(y.n, BlockAt(w, y.n), y.t, tx, y.o, FormOf(w, y), OpInstrs(w, y), r);
  }

  lemma EventFound(w: World, y: Place, r: nat) returns (x: Spot)
    requires Tried(w, y) && r < |OpInstrs(w, y)| && OfEvent(OpInstrs(w, y)[r])
    ensures Seen(w, x) && EventPosIn(w, x) <= PosIn(w, y) + r < EventPosIn(w, x) + |Instrs(LogOf(w), x)|
  {
    EventIn(w, y, r);
    var k := EventsFind(y.n, TxAt(w, y).txid, y.o, EventsOf(w, y), r - |HeadOf(w, y)|);
    x := Spot(y.n, y.t, y.o, k);
  }

  lemma EventOwned(w: World, y: Place, r: nat, i: nat)
    requires Tried(w, y) && r < |OpInstrs(w, y)| && OfEvent(OpInstrs(w, y)[r]) && i == PosIn(w, y) + r
    ensures OfSomeEvent(LogOf(w), EventPosOf(w), i)
  {
    var x := EventFound(w, y, r);
    assert EventPosOf(w)(x) == EventPosIn(w, x);
  }

  lemma EventLocated(w: World, i: nat)
    requires i < |All(PlanOf(w))| && OfEvent(All(PlanOf(w))[i])
    ensures OfSomeEvent(LogOf(w), EventPosOf(w), i)
  {
    var y, r := OwnerOfOp(w, i);
    EventOwned(w, y, r, i);
  }

  lemma SameOp(w: World, x: Spot, y: Spot)
    requires UniqueTxids(w) && Seen(w, x) && Seen(w, y)
    ensures KeyAt(w, x) == KeyAt(w, y) <==> OpOf(x) == OpOf(y)
  {
  }

  lemma {:induction false} EventsApart(num: nat, txid: string, index: nat, events: seq<Event>, k: nat, m: nat)
    requires k < m <= |events|
    ensures |EventsScript(num, txid, index, events[..k])| + |EventScript(num, txid, index, events[k])|
            <= |EventsScript(num, txid, index, events[..m])|
  {
    EventsPrefix(num, txid, index, events[..m], k);
    assert events[..m][..k] == events[..k];
  }

  lemma EventOrder(w: World, x: Spot, y: Spot)
    requires UniqueTxids(w)
    ensures Ordered(LogOf(w), EventPosOf(w), x, y)
  {
    if Seen(w, x) && Seen(w, y) {
      SameOp(w, x, y);
      if OpOf(x) == OpOf(y) && x.k < y.k {
        EventsApart(x.n, KeyAt(w, x).txid, x.o, EventsOf(w, OpOf(x)), x.k, y.k);
      }
    }
  }

  lemma TokenKnown(w: World, last: nat, contract: string)
    requires last <= |w.chain|
    ensures KnowsToken(PlanOf(w), LogOf(w), last, contract)
  {
    RegisteredExactly(w, last, contract);
  }

  /** The events of a chain are laid out in its plan. */
  lemma LogLaid(w: World)
    requires UniqueTxids(w)
    ensures EventsLaid(PlanOf(w), LogOf(w), EventPosOf(w))
  {
    var p, log, pos := PlanOf(w), LogOf(w), EventPosOf(w);
    forall x | Seen(w, x) ensures EventStands(p, log, pos, x) {
      EventPlaced(w, x);
    }
    forall x, y ensures Ordered(log, pos, x, y) {
      EventOrder(w, x, y);
    }
    forall i | 0 <= i < |All(p)| && OfEvent(All(p)[i]) ensures OfSomeEvent(log, pos, i) {
      EventLocated(w, i);
    }
    forall last: nat, contract | last <= p.Length() ensures KnowsToken(p, log, last, contract) {
      TokenKnown(w, last, contract);
    }
  }
}
