/** Where the instructions of an operation stand in the whole script: in one piece, one operation
    after the other in scan order, and nothing but block, transaction and receipt rows between. */
module Places {
  import opened Wrappers
  import opened Json
  import opened Chain
  import opened Tables
  import opened Readings
  import opened Script
  import opened Plans

  // ---- taking the loops apart at one place ----

  /** Operations o up to last, last excluded. */
  function OpsBefore(read: Reader, ops: seq<seq<Json>>, o: nat, last: nat, body: OpBody): seq<Instr>
    requires o <= last <= |ops|
    decreases last - o
  {
    if o == last then [] else body(o, read(ops[o])) + OpsBefore(read, ops, o + 1, last, body)
  }

  lemma {:induction false} OpsPrefix(read: Reader, ops: seq<seq<Json>>, o: nat, last: nat, body: OpBody)
    requires o <= last < |ops| && forall j :: o <= j < last ==> read(ops[j]).Good?
    ensures OpsBefore(read, ops, o, last, body) + body(last, read(ops[last])) <= OpsLoop(read, ops, o, body)
    decreases last - o
  {
    if o < last {
      OpsPrefix(read, ops, o + 1, last, body);
      Prepended(body(o, read(ops[o])), OpsBefore(read, ops, o + 1, last, body), body(last, read(ops[last])),
                OpsLoop(read, ops, o + 1, body));
    }
  }

  lemma {:induction false} OpsGrow(read: Reader, ops: seq<seq<Json>>, o: nat, mid: nat, last: nat, body: OpBody)
    requires o <= mid < last <= |ops|
    ensures |OpsBefore(read, ops, o, mid, body)| + |body(mid, read(ops[mid]))| <= |OpsBefore(read, ops, o, last, body)|
    decreases mid - o
  {
    if o < mid {
      OpsGrow(read, ops, o + 1, mid, last, body);
    }
  }

  /** The operation that instruction k of the loop belongs to. */
  lemma {:induction false} OpsFind(read: Reader, ops: seq<seq<Json>>, o: nat, body: OpBody, k: nat) returns (last: nat)
    requires o <= |ops| && k < |OpsLoop(read, ops, o, body)|
    ensures o <= last < |ops| && forall j :: o <= j < last ==> read(ops[j]).Good?
    ensures var before := |OpsBefore(read, ops, o, last, body)|; before <= k < before + |body(last, read(ops[last]))|
    decreases |ops| - o
  {
    var first := body(o, read(ops[o]));
    last := o;
    if k >= |first| {
      last := OpsFind(read, ops, o + 1, body, k - |first|);
    }
  }

  /** Transaction t' and all from t up to it can be saved. */
  predicate TxsGood(leads: Leads, txs: seq<Tx>, t: int, t': int) {
    t <= t' < |txs| && forall j :: 0 <= t <= j <= t' ==> leads(txs[j]).LeadOk?
  }

  function TxsBefore(leads: Leads, txs: seq<Tx>, t: nat, last: nat, body: TxBody): seq<Instr>
    requires t <= last <= |txs| && forall j :: t <= j < last ==> leads(txs[j]).LeadOk?
    decreases last - t
  {
    if t == last then [] else body(t, txs[t], leads(txs[t]).firstType) + TxsBefore(leads, txs, t + 1, last, body)
  }

  lemma {:induction false} TxsPrefix(leads: Leads, txs: seq<Tx>, t: nat, last: nat, body: TxBody)
    requires TxsGood(leads, txs, t, last)
    ensures TxsBefore(leads, txs, t, last, body) + body(last, txs[last], leads(txs[last]).firstType)
            <= TxsLoop(leads, txs, t, body)
    decreases last - t
  {
    if t < last {
      TxsPrefix(leads, txs, t + 1, last, body);
      Prepended(body(t, txs[t], leads(txs[t]).firstType), TxsBefore(leads, txs, t + 1, last, body),
                body(last, txs[last], leads(txs[last]).firstType), TxsLoop(leads, txs, t + 1, body));
    }
  }

  lemma {:induction false} TxsGrow(leads: Leads, txs: seq<Tx>, t: nat, mid: nat, last: nat, body: TxBody)
    requires t <= mid < last <= |txs| && forall j :: t <= j < last ==> leads(txs[j]).LeadOk?
    ensures |TxsBefore(leads, txs, t, mid, body)| + |body(mid, txs[mid], leads(txs[mid]).firstType)|
            <= |TxsBefore(leads, txs, t, last, body)|
    decreases mid - t
  {
    var first := body(t, txs[t], leads(txs[t]).firstType);
    assert TxsBefore(leads, txs, t, last, body) == first + TxsBefore(leads, txs, t + 1, last, body);
    if t < mid {
      assert TxsBefore(leads, txs, t, mid, body) == first + TxsBefore(leads, txs, t + 1, mid, body);
      TxsGrow(leads, txs, t + 1, mid, last, body);
    }
  }

  /** The transaction that instruction k of the loop belongs to, unless it is the panic that
      ends the loop. */
  lemma {:induction false} TxsFind(leads: Leads, txs: seq<Tx>, t: nat, body: TxBody, k: nat) returns (last: nat)
    requires t <= |txs| && k < |TxsLoop(leads, txs, t, body)| && TxsLoop(leads, txs, t, body)[k] != Halt(Always)
    ensures TxsGood(leads, txs, t, last)
    ensures var before := |TxsBefore(leads, txs, t, last, body)|;
            before <= k < before + |body(last, txs[last], leads(txs[last]).firstType)|
    decreases |txs| - t
  {
    var first := body(t, txs[t], leads(txs[t]).firstType);
    last := t;
    if k >= |first| {
      last := TxsFind(leads, txs, t + 1, body, k - |first|);
    }
  }

  // ---- pieces of pieces ----

  lemma Prepended<T>(first: seq<T>, a: seq<T>, b: seq<T>, rest: seq<T>)
    requires a + b <= rest
    ensures (first + a) + b <= first + rest
  {
    assert |(first + a) + b| <= |first + rest|;
  }

  lemma Nested<T>(s: seq<T>, a: seq<T>, b: seq<T>, d: seq<T>, e: seq<T>)
    requires a + b <= s && d + e <= b
    ensures (a + d) + e <= s
  {
    assert |(a + d) + e| <= |a + b|;
    assert s[..|a + b|] == a + b;
  }

  lemma MiddlePrefix<T>(a: seq<T>, b: seq<T>, c: seq<T>)
    ensures a + b <= a + (b + c)
  {
  }

  // ---- transactions and operations of a block ----

  function FirstType(w: World, n: nat, t: nat): int
    requires TxReached(w, n, t)
  {
    Leading(BlockAt(w, n).txs[t]).firstType
  }

  function TxInstrs(w: World, n: nat, t: nat): seq<Instr>
    requires TxReached(w, n, t)
  {
    TxScript(w.names, n, BlockAt(w, n), t, BlockAt(w, n).txs[t], FirstType(w, n, t))
  }

  /** What a block does before transaction t. */
  function TxLead(w: World, n: nat, t: nat): seq<Instr>
    requires TxReached(w, n, t)
  {
    HeadScript(n, BlockAt(w, n))
    + TxsBefore(LeadsOf(), BlockAt(w, n).txs, 0, t, BodyOfTxs(w.names, n, BlockAt(w, n)))
  }

  lemma TxStands(w: World, n: nat, t: nat)
    requires TxReached(w, n, t)
    ensures TxLead(w, n, t) + TxInstrs(w, n, t) <= BlockScript(w, n)
  {
    var block := BlockAt(w, n);
    var body := BodyOfTxs(w.names, n, block);
    TxsPrefix(LeadsOf(), block.txs, 0, t, body);
    MiddlePrefix(HeadScript(n, block), TxsScript(w.names, n, block), [EndBlock(n)]);
    Nested(BlockScript(w, n), HeadScript(n, block), TxsScript(w.names, n, block),
           TxsBefore(LeadsOf(), block.txs, 0, t, body), TxInstrs(w, n, t));
  }

  /** Neither of the block as such nor an unguarded stop. */
  predicate InTx(i: Instr) {
    !i.SaveBlock? && !i.BackFill? && !i.EndBlock? && i != Halt(Always)
  }

  lemma InMiddle(s: seq<Instr>, head: seq<Instr>, txs: seq<Instr>, end: Instr, k: nat)
    requires s == head + (txs + [end]) && forall j :: 0 <= j < |head| ==> !InTx(head[j])
    requires !InTx(end) && k < |s| && InTx(s[k])
    ensures |head| <= k < |head| + |txs| && s[k] == txs[k - |head|]
  {
  }

  lemma HeadOutside(n: nat, block: Block)
    ensures forall j :: 0 <= j < |HeadScript(n, block)| ==> !InTx(HeadScript(n, block)[j])
  {
  }

  lemma InTxs(w: World, n: nat, k: nat)
    requires 1 <= n <= |w.chain| && k < |BlockScript(w, n)| && InTx(BlockScript(w, n)[k])
    ensures var head, txs := |HeadScript(n, BlockAt(w, n))|, TxsScript(w.names, n, BlockAt(w, n));
            head <= k < head + |txs| && BlockScript(w, n)[k] == txs[k - head]
  {
    HeadOutside(n, BlockAt(w, n));
    InMiddle(BlockScript(w, n), HeadScript(n, BlockAt(w, n)), TxsScript(w.names, n, BlockAt(w, n)), EndBlock(n), k);
  }

  lemma TxFound(w: World, n: nat, k: nat) returns (t: nat)
    requires 1 <= n <= |w.chain| && k < |BlockScript(w, n)| && InTx(BlockScript(w, n)[k])
    ensures TxReached(w, n, t) && |TxLead(w, n, t)| <= k < |TxLead(w, n, t)| + |TxInstrs(w, n, t)|
  {
    InTxs(w, n, k);
    t := TxFoundIn(w, n, k - |HeadScript(n, BlockAt(w, n))|);
  }

  lemma TxFoundIn(w: World, n: nat, k: nat) returns (t: nat)
    requires 1 <= n <= |w.chain| && k < |TxsScript(w.names, n, BlockAt(w, n))|
    requires InTx(TxsScript(w.names, n, BlockAt(w, n))[k])
    ensures TxReached(w, n, t)
    ensures var before := |TxLead(w, n, t)| - |HeadScript(n, BlockAt(w, n))|; before <= k < before + |TxInstrs(w, n, t)|
  {
    t := TxsFind(LeadsOf(), BlockAt(w, n).txs, 0, BodyOfTxs(w.names, n, BlockAt(w, n)), k);
  }

  function FormOf(w: World, x: Place): OpForm
    requires Tried(w, x)
  {
    ReadOp(w.names, TxAt(w, x).ops[x.o])
  }

  function OpInstrs(w: World, x: Place): seq<Instr>
    requires Tried(w, x)
  {
    OpScript(x.n, BlockAt(w, x.n), x.t, TxAt(w, x), x.o, FormOf(w, x))
  }

  function Row(w: World, n: nat, t: nat): Instr
    requires TxReached(w, n, t)
  {
    var tx := BlockAt(w, n).txs[t];
    SaveTx(tx.txid, TxRow(n, |tx.ops|, t, FirstType(w, n, t)))
  }

  function LoopInstrs(w: World, n: nat, t: nat): seq<Instr>
    requires TxReached(w, n, t)
  {
    OpsLoop(ReaderOf(w.names), BlockAt(w, n).txs[t].ops, 0, BodyOfOps(n, BlockAt(w, n), t, BlockAt(w, n).txs[t]))
  }

  function LoopBefore(w: World, x: Place): seq<Instr>
    requires Tried(w, x)
  {
    OpsBefore(ReaderOf(w.names), TxAt(w, x).ops, 0, x.o, BodyOfOps(x.n, BlockAt(w, x.n), x.t, TxAt(w, x)))
  }

  /** What a block does before operation x. */
  function OpLead(w: World, x: Place): seq<Instr>
    requires Tried(w, x)
  {
    TxLead(w, x.n, x.t) + ([Row(w, x.n, x.t)] + LoopBefore(w, x))
  }

  lemma LoopStands(w: World, x: Place)
    requires Tried(w, x)
    ensures LoopBefore(w, x) + OpInstrs(w, x) <= LoopInstrs(w, x.n, x.t)
  {
    OpsPrefix(ReaderOf(w.names), TxAt(w, x).ops, 0, x.o, BodyOfOps(x.n, BlockAt(w, x.n), x.t, TxAt(w, x)));
  }

  lemma OpStands(w: World, x: Place)
    requires Tried(w, x)
    ensures OpLead(w, x) + OpInstrs(w, x) <= BlockScript(w, x.n)
  {
    var row, loop := [Row(w, x.n, x.t)], LoopInstrs(w, x.n, x.t);
    LoopStands(w, x);
    MiddlePrefix(row, loop, ReceiptsScript(FetchedReceipts(TxAt(w, x))));
    Nested(TxInstrs(w, x.n, x.t), row, loop, LoopBefore(w, x), OpInstrs(w, x));
    TxStands(w, x.n, x.t);
    Nested(BlockScript(w, x.n), TxLead(w, x.n, x.t), TxInstrs(w, x.n, x.t), row + LoopBefore(w, x), OpInstrs(w, x));
  }

  /** Of an operation: everything but the rows of blocks, transactions and receipts, and
      unguarded stops. */
  predicate OfOp(i: Instr) {
    InTx(i) && !i.SaveTx? && !i.SaveReceipt?
  }

  lemma OpFound(w: World, n: nat, k: nat) returns (x: Place)
    requires 1 <= n <= |w.chain| && k < |BlockScript(w, n)| && OfOp(BlockScript(w, n)[k])
    ensures Tried(w, x) && x.n == n && |OpLead(w, x)| <= k < |OpLead(w, x)| + |OpInstrs(w, x)|
  {
    var t := TxFound(w, n, k);
    TxStands(w, n, t);
    var local := k - |TxLead(w, n, t)|;
    assert BlockScript(w, n)[k] == TxInstrs(w, n, t)[local];
    var o := OpFoundInTx(w, n, t, local);
    x := Place(n, t, o);
  }

  lemma {:induction false} ReceiptsOnly(receipts: seq<Receipt>)
    ensures forall k :: 0 <= k < |ReceiptsScript(receipts)| ==> ReceiptsScript(receipts)[k].SaveReceipt?
  {
    if receipts != [] {
      ReceiptsOnly(receipts[1..]);
    }
  }

  lemma OpFoundInTx(w: World, n: nat, t: nat, k: nat) returns (o: nat)
    requires TxReached(w, n, t) && k < |TxInstrs(w, n, t)| && OfOp(TxInstrs(w, n, t)[k])
    ensures Tried(w, Place(n, t, o))
    ensures var before := 1 + |LoopBefore(w, Place(n, t, o))|; before <= k < before + |OpInstrs(w, Place(n, t, o))|
  {
    var tx := BlockAt(w, n).txs[t];
    ReceiptsOnly(FetchedReceipts(tx));
    o := OpsFind(ReaderOf(w.names), tx.ops, 0, BodyOfOps(n, BlockAt(w, n), t, tx), k - 1);
  }

  // ---- the operations in a plan ----

  /** The instructions of each operation (or transaction, at its operation 0) that the scanner
      gets to. */
  type Log = Place -> Option<seq<Instr>>

  /** The places with their instructions, where each is said to stand in the whole script, and
      which instructions are meant. */
  datatype Layout = Layout(log: Log, pos: Place -> nat, kind: Instr -> bool)

  /** From position pos(x) of the script on stand the instructions of x. */
  ghost predicate Stands(p: Plan, log: Log, pos: Place -> nat, x: Place) {
    log(x).Some? ==>
      && 1 <= x.n <= p.Length()
      && Start(p, x.n) <= pos(x) && pos(x) + |log(x).value| <= Start(p, x.n + 1) <= |All(p)|
      && forall r :: 0 <= r < |log(x).value| ==> All(p)[pos(x) + r] == log(x).value[r]
  }

  /** Instruction i belongs to one of them. */
  ghost predicate Belongs(log: Log, pos: Place -> nat, i: nat) {
    exists x :: log(x).Some? && pos(x) <= i < pos(x) + |log(x).value|
  }

  ghost predicate InOrder(log: Log, pos: Place -> nat, x: Place, y: Place) {
    log(x).Some? && log(y).Some? && Earlier(x, y) ==> pos(x) + |log(x).value| <= pos(y)
  }

  /** The layout is that of the plan: they stand there, in scan order, and no instruction of that
      kind stands anywhere else. */
  ghost predicate Laid(p: Plan, l: Layout) {
    && (forall x {:trigger Stands(p, l.log, l.pos, x)} :: Stands(p, l.log, l.pos, x))
    && (forall x, y {:trigger InOrder(l.log, l.pos, x, y)} :: InOrder(l.log, l.pos, x, y))
    && (forall i {:trigger Belongs(l.log, l.pos, i)} ::
          0 <= i < |All(p)| && l.kind(All(p)[i]) ==> Belongs(l.log, l.pos, i))
  }

  function OpKind(): Instr -> bool {
    (i: Instr) => OfOp(i)
  }

  function TxKind(): Instr -> bool {
    (i: Instr) => InTx(i)
  }

  function OpsOf(w: World): Log {
    x => if Tried(w, x) then Some(OpInstrs(w, x)) else None
  }

  function PosIn(w: World, x: Place): nat {
    if Tried(w, x) then Start(PlanOf(w), x.n) + |OpLead(w, x)| else 0
  }

  function PosOf(w: World): Place -> nat {
    x => PosIn(w, x)
  }

  /** A piece of a block's script in the whole script. */
  lemma PiecePlace(p: Plan, n: nat, lead: seq<Instr>, piece: seq<Instr>)
    requires 1 <= n <= p.Length() && lead + piece <= p.Script(n)
    ensures Start(p, n) + |lead| + |piece| <= Start(p, n + 1) <= |All(p)|
    ensures forall r :: 0 <= r < |piece| ==> All(p)[Start(p, n) + |lead| + r] == piece[r]
  {
    StartMonotone(p, n + 1, p.Length() + 1);
    forall r | 0 <= r < |piece| ensures All(p)[Start(p, n) + |lead| + r] == piece[r] {
      BlockPlace(p, n, |lead| + r);
      assert (lead + piece)[|lead| + r] == piece[r];
    }
  }

  lemma StandsThere(p: Plan, log: Log, pos: Place -> nat, x: Place, lead: seq<Instr>)
    requires log(x).Some? && 1 <= x.n <= p.Length() && pos(x) == Start(p, x.n) + |lead|
    requires lead + log(x).value <= p.Script(x.n)
    ensures Stands(p, log, pos, x)
  {
    PiecePlace(p, x.n, lead, log(x).value);
  }

  lemma OpPlaced(w: World, x: Place)
    requires Tried(w, x)
    ensures Stands(PlanOf(w), OpsOf(w), PosOf(w), x)
  {
    OpStands(w, x);
    StandsThere(PlanOf(w), OpsOf(w), PosOf(w), x, OpLead(w, x));
  }

  lemma ScriptOf(p: Plan, i: nat) returns (n: nat, b: nat)
    requires i < |All(p)|
    ensures 1 <= n <= p.Length() && b < |p.Script(n)| && i == Start(p, n) + b && All(p)[i] == p.Script(n)[b]
  {
    n, b := BlockOf(p, p.Length(), i);
    BlockPlace(p, n, b);
  }

  lemma OpLocated(w: World, i: nat)
    requires i < |All(PlanOf(w))| && OfOp(All(PlanOf(w))[i])
    ensures Belongs(OpsOf(w), PosOf(w), i)
  {
    var n, b := ScriptOf(PlanOf(w), i);
    var x := OpFound(w, n, b);
    assert PosOf(w)(x) == Start(PlanOf(w), n) + |OpLead(w, x)|;
  }

  lemma TxsApart(w: World, n: nat, t: nat, u: nat)
    requires TxReached(w, n, t) && TxReached(w, n, u) && t < u
    ensures |TxLead(w, n, t)| + |TxInstrs(w, n, t)| <= |TxLead(w, n, u)|
  {
    TxsGrow(LeadsOf(), BlockAt(w, n).txs, 0, t, u, BodyOfTxs(w.names, n, BlockAt(w, n)));
  }

  lemma OpInTx(w: World, x: Place)
    requires Tried(w, x)
    ensures |OpLead(w, x)| + |OpInstrs(w, x)| <= |TxLead(w, x.n, x.t)| + |TxInstrs(w, x.n, x.t)|
    ensures |TxLead(w, x.n, x.t)| <= |OpLead(w, x)|
  {
    LoopStands(w, x);
  }

  lemma OpsApart(w: World, x: Place, y: Place)
    requires Tried(w, x) && Tried(w, y) && x.n == y.n && x.t == y.t && x.o < y.o
    ensures |OpLead(w, x)| + |OpInstrs(w, x)| <= |OpLead(w, y)|
  {
    OpsGrow(ReaderOf(w.names), TxAt(w, x).ops, 0, x.o, y.o, BodyOfOps(x.n, BlockAt(w, x.n), x.t, TxAt(w, x)));
  }

  lemma OpOrder(w: World, x: Place, y: Place)
    requires Tried(w, x) && Tried(w, y) && Earlier(x, y)
    ensures PosIn(w, x) + |OpInstrs(w, x)| <= PosIn(w, y)
  {
    if x.n < y.n {
      OpPlaced(w, x);
      StartMonotone(PlanOf(w), x.n + 1, y.n);
    } else if x.t < y.t {
      TxsApart(w, x.n, x.t, y.t);
      OpInTx(w, x);
      OpInTx(w, y);
    } else {
      OpsApart(w, x, y);
    }
  }

  function OpLayout(w: World): Layout {
    Layout(OpsOf(w), PosOf(w), OpKind())
  }

  /** The operations of a chain are laid out in its plan. */
  lemma OpsLaid(w: World)
    ensures Laid(PlanOf(w), OpLayout(w))
  {
    var p, log, pos := PlanOf(w), OpsOf(w), PosOf(w);
    forall x | Tried(w, x) ensures Stands(p, log, pos, x) {
      OpPlaced(w, x);
    }
    forall x, y | Tried(w, x) && Tried(w, y) && Earlier(x, y) ensures InOrder(log, pos, x, y) {
      OpOrder(w, x, y);
    }
    forall i | 0 <= i < |All(p)| && OfOp(All(p)[i]) ensures Belongs(log, pos, i) {
      OpLocated(w, i);
    }
  }

  /** The one that instruction i of the whole script belongs to. */
  lemma OwnerIn(p: Plan, l: Layout, i: nat) returns (x: Place, r: nat)
    requires Laid(p, l) && i < |All(p)| && l.kind(All(p)[i])
    ensures l.log(x).Some? && r < |l.log(x).value| && i == l.pos(x) + r && All(p)[i] == l.log(x).value[r]
    ensures 1 <= x.n <= p.Length() && Start(p, x.n) <= i < Start(p, x.n + 1)
  {
    assert Belongs(l.log, l.pos, i);
    x :| l.log(x).Some? && l.pos(x) <= i < l.pos(x) + |l.log(x).value|;
    r := i - l.pos(x);
    assert Stands(p, l.log, l.pos, x);
  }

  /** The same for the operations of a chain. */
  lemma OwnerOfOp(w: World, i: nat) returns (x: Place, r: nat)
    requires i < |All(PlanOf(w))| && OfOp(All(PlanOf(w))[i])
    ensures Tried(w, x) && r < |OpInstrs(w, x)| && i == PosIn(w, x) + r && All(PlanOf(w))[i] == OpInstrs(w, x)[r]
  {
    OpsLaid(w);
    x, r := OwnerIn(PlanOf(w), OpLayout(w), i);
  }

  // ---- the transactions in a plan ----

  predicate IsTxPlace(w: World, x: Place) {
    x.o == 0 && TxReached(w, x.n, x.t)
  }

  function TxsOf(w: World): Log {
    x => if IsTxPlace(w, x) then Some(TxInstrs(w, x.n, x.t)) else None
  }

  function TxPosIn(w: World, x: Place): nat {
    if IsTxPlace(w, x) then Start(PlanOf(w), x.n) + |TxLead(w, x.n, x.t)| else 0
  }

  function TxPosOf(w: World): Place -> nat {
    x => TxPosIn(w, x)
  }

  lemma TxPlaced(w: World, x: Place)
    requires IsTxPlace(w, x)
    ensures Stands(PlanOf(w), TxsOf(w), TxPosOf(w), x)
  {
    TxStands(w, x.n, x.t);
    StandsThere(PlanOf(w), TxsOf(w), TxPosOf(w), x, TxLead(w, x.n, x.t));
  }

  lemma TxFoundAt(w: World, n: nat, b: nat) returns (x: Place)
    requires 1 <= n <= |w.chain| && b < |BlockScript(w, n)| && InTx(BlockScript(w, n)[b])
    ensures IsTxPlace(w, x) && x.n == n && |TxLead(w, n, x.t)| <= b < |TxLead(w, n, x.t)| + |TxInstrs(w, n, x.t)|
  {
    var t := TxFound(w, n, b);
    x := Place(n, t, 0);
  }

  lemma TxLocated(w: World, i: nat)
    requires i < |All(PlanOf(w))| && InTx(All(PlanOf(w))[i])
    ensures Belongs(TxsOf(w), TxPosOf(w), i)
  {
    var n, b := ScriptOf(PlanOf(w), i);
    var x := TxFoundAt(w, n, b);
    assert TxPosOf(w)(x) == Start(PlanOf(w), n) + |TxLead(w, n, x.t)|;
  }

  lemma TxOrder(w: World, x: Place, y: Place)
    requires IsTxPlace(w, x) && IsTxPlace(w, y) && Earlier(x, y)
    ensures TxPosIn(w, x) + |TxInstrs(w, x.n, x.t)| <= TxPosIn(w, y)
  {
    if x.n < y.n {
      TxPlaced(w, x);
      StartMonotone(PlanOf(w), x.n + 1, y.n);
    } else {
      TxsApart(w, x.n, x.t, y.t);
    }
  }

  function TxLayout(w: World): Layout {
    Layout(TxsOf(w), TxPosOf(w), TxKind())
  }

  /** So are the transactions. */
  lemma TxsLaid(w: World)
    ensures Laid(PlanOf(w), TxLayout(w))
  {
    var p, log, pos := PlanOf(w), TxsOf(w), TxPosOf(w);
    forall x | IsTxPlace(w, x) ensures Stands(p, log, pos, x) {
      TxPlaced(w, x);
    }
    forall x, y | IsTxPlace(w, x) && IsTxPlace(w, y) && Earlier(x, y) ensures InOrder(log, pos, x, y) {
      TxOrder(w, x, y);
    }
    forall i | 0 <= i < |All(p)| && InTx(All(p)[i]) ensures Belongs(log, pos, i) {
      TxLocated(w, i);
    }
  }
}
