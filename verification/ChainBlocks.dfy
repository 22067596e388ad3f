/** The rows of blocks, transactions and receipts, read off the chain. */
module ChainBlocks {
  import opened Wrappers
  import opened Chain
  import opened Tables
  import opened Readings
  import opened Script
  import opened Plans
  import opened BlockFacts
  import opened Collect
  import opened Machine
  import opened Invariant
  import opened Integrity
  import opened Replay
  import opened Confluence
  import opened BackFills
  import opened ReceiptEvents
  import opened Places
  import opened OpContents
  import opened ScanOrder

  // ---- blocks ----

  /** The row of block m is the one its script begins with, but for the hash. */
  predicate RowExact(p: Plan, blocks: map<nat, BlockRow>, m: nat) {
    m in blocks ==>
      1 <= m <= p.Length() && |p.Script(m)| > 0 && p.Script(m)[0] == SaveBlock(m, blocks[m].(blockId := ""))
  }

  lemma RowNext(p: Plan, before: map<nat, BlockRow>, after: map<nat, BlockRow>, i: Instr, m: nat)
    requires RowExact(p, before, m)
    requires !i.SaveBlock? && !i.BackFill? ==> after == before
    requires i.SaveBlock? ==> 1 <= i.num <= p.Length() && |p.Script(i.num)| > 0 && p.Script(i.num)[0] == i
                              && i.block.blockId == "" && after == PutIfAbsent(before, i.num, i.block)
    requires i.BackFill? ==> after == FillHash(before, i)
    ensures RowExact(p, after, m)
  {
  }

  lemma {:induction false} RowsExact(p: Plan, n: nat, m: nat)
    requires Proper(p) && n <= |All(p)|
    ensures RowExact(p, Ideal(p, n).blocks, m)
  {
    if n > 0 {
      var i := All(p)[n - 1];
      RowsExact(p, n - 1, m);
      PrefixStep(All(p), n - 1);
      EffectOnBlock(Ideal(p, n - 1), i, m);
      if i.SaveBlock? {
        SavedAt(p, n - 1);
        assert ProperBlock(i.num, p.Script(i.num));
        BlockPlace(p, i.num, 0);
      }
      RowNext(p, Ideal(p, n - 1).blocks, Ideal(p, n).blocks, i, m);
    } else {
      assert All(p)[..0] == [];
    }
  }

  lemma HeadOnChain(w: World, m: nat)
    requires 1 <= m <= |w.chain|
    ensures |BlockScript(w, m)| > 0
    ensures BlockScript(w, m)[0] == SaveBlock(m, BlockRow(BlockAt(w, m).previous, |BlockAt(w, m).txs|, ""))
    ensures m > 1 ==> |BlockScript(w, m)| > 1 && BlockScript(w, m)[1] == BackFill(m, BlockAt(w, m).previous)
  {
  }

  /** In any run with crashes only, a block's row holds what the block says of itself, and for a
      hash what the next block says of it, once that one's back-fill has been executed; it is
      there once the block has been scanned. */
  lemma BlocksOnChain(w: World, acts: seq<Act>, m: nat)
    requires FailStop(acts)
    ensures var p, s := PlanOf(w), After(PlanOf(w), acts);
            && (m in s.disk.tables.blocks ==>
                  && 1 <= m <= |w.chain|
                  && s.disk.tables.blocks[m]
                     == BlockRow(BlockAt(w, m).previous, |BlockAt(w, m).txs|,
                                 if m < |w.chain| && Start(p, m + 1) + 1 < s.hwm then BlockAt(w, m + 1).previous
                                 else ""))
            && (1 <= m <= |w.chain| && Start(p, m + 1) <= s.hwm ==> m in s.disk.tables.blocks)
  {
    var p, s := PlanOf(w), After(PlanOf(w), acts);
    PlanProper(w);
    ReplayConfluenceButHistory(p, acts);
    if m in s.disk.tables.blocks {
      HashBackFill(p, acts, m);
      RowsExact(p, s.hwm, m);
      HeadOnChain(w, m);
      if m < |w.chain| {
        HeadOnChain(w, m + 1);
      }
    }
    if 1 <= m <= |w.chain| && Start(p, m + 1) <= s.hwm {
      HeadOnChain(w, m);
      BlockPlace(p, m, 0);
      BlocksReplayed(All(p), s.hwm, m);
    }
  }

  // ---- transactions ----

  /** A transaction's script: its row first, the receipts last, neither in between. */
  predicate Framed(s: seq<Instr>, row: Instr, before: nat, rs: seq<Receipt>) {
    && |s| == before + |rs| && 0 < before && s[0] == row
    && (forall r :: 0 < r < |s| ==> !s[r].SaveTx?)
    && (forall r :: 0 <= r < before ==> !s[r].SaveReceipt?)
    && (forall j :: 0 <= j < |rs| ==> s[before + j] == SaveReceipt(rs[j]))
  }

  lemma FramedParts(s: seq<Instr>, row: Instr, loop: seq<Instr>, saves: seq<Instr>, rs: seq<Receipt>)
    requires s == [row] + (loop + saves) && row.SaveTx? && |saves| == |rs|
    requires forall j :: 0 <= j < |rs| ==> saves[j] == SaveReceipt(rs[j])
    requires forall k :: 0 <= k < |loop| ==> !loop[k].SaveTx? && !loop[k].SaveReceipt?
    ensures Framed(s, row, 1 + |loop|, rs)
  {
    forall r | 0 < r < |s| ensures s[r] == if r <= |loop| then loop[r - 1] else saves[r - 1 - |loop|] {
    }
  }

  /** Where the receipts of a transaction begin in its script. */
  function ReceiptsFrom(w: World, n: nat, t: nat): nat
    requires TxReached(w, n, t)
  {
    1 + |LoopInstrs(w, n, t)|
  }

  /** The operation loop saves neither transactions nor receipts. */
  lemma LoopKinds(w: World, n: nat, t: nat, k: nat)
    requires TxReached(w, n, t) && k < |LoopInstrs(w, n, t)|
    ensures !LoopInstrs(w, n, t)[k].SaveTx? && !LoopInstrs(w, n, t)[k].SaveReceipt?
  {
    var tx := BlockAt(w, n).txs[t];
    var o := OpsFind(ReaderOf(w.names), tx.ops, 0, BodyOfOps(n, BlockAt(w, n), t, tx), k);
    var x := Place(n, t, o);
    LoopStands(w, x);
    OpKinds(n, BlockAt(w, n), t, tx, o, FormOf(w, x), LoopInstrs(w, n, t)[k]);
  }

  lemma TxFramed(w: World, n: nat, t: nat)
    requires TxReached(w, n, t)
    ensures Framed(TxInstrs(w, n, t), Row(w, n, t), ReceiptsFrom(w, n, t), FetchedReceipts(BlockAt(w, n).txs[t]))
  {
    var tx, loop := BlockAt(w, n).txs[t], LoopInstrs(w, n, t);
    ReceiptList(FetchedReceipts(tx));
    forall k | 0 <= k < |loop| ensures !loop[k].SaveTx? && !loop[k].SaveReceipt? {
      LoopKinds(w, n, t, k);
    }
    FramedParts(TxInstrs(w, n, t), Row(w, n, t), loop, ReceiptsScript(FetchedReceipts(tx)), FetchedReceipts(tx));
  }

  lemma {:induction false} ReceiptList(receipts: seq<Receipt>)
    ensures |ReceiptsScript(receipts)| == |receipts|
    ensures forall j :: 0 <= j < |receipts| ==> ReceiptsScript(receipts)[j] == SaveReceipt(receipts[j])
  {
    if receipts != [] {
      ReceiptList(receipts[1..]);
    }
  }

  lemma TxFrom(w: World, n: nat, txid: string) returns (x: Place)
    requires n <= |All(PlanOf(w))| && txid in Ideal(PlanOf(w), n).txs
    ensures IsTxPlace(w, x) && Row(w, x.n, x.t) == SaveTx(txid, Ideal(PlanOf(w), n).txs[txid])
  {
    TxsLaid(w);
    TxsCollected(All(PlanOf(w))[..n]);
    var r;
    x, r := FirstPlace(PlanOf(w), TxLayout(w), TxPut, txid, n);
    TxFramed(w, x.n, x.t);
  }

  lemma TxThere(w: World, mark: nat, n: nat, t: nat)
    requires TxReached(w, n, t) && Start(PlanOf(w), n + 1) <= mark <= |All(PlanOf(w))|
    ensures BlockAt(w, n).txs[t].txid in Ideal(PlanOf(w), mark).txs
  {
    var txid := BlockAt(w, n).txs[t].txid;
    TxsLaid(w);
    TxFramed(w, n, t);
    assert Offers(TxInstrs(w, n, t), TxPut, 0, txid);
    PlaceStored(PlanOf(w), TxLayout(w), TxPut, txid, mark, Place(n, t, 0));
    TxsCollected(All(PlanOf(w))[..mark]);
  }

  /** A transaction that can be saved, and all before it in its block, has its row once its block
      has been scanned: its place, how many operations it has, and the type of the first. */
  lemma TxsOnChain(w: World, acts: seq<Act>, n: nat, t: nat, lead: int)
    requires UniqueTxids(w) && FailStop(acts) && TxReached(w, n, t) && LeadsWith(BlockAt(w, n).txs[t], lead)
    requires Start(PlanOf(w), n + 1) <= After(PlanOf(w), acts).hwm
    ensures var txs, tx := After(PlanOf(w), acts).disk.tables.txs, BlockAt(w, n).txs[t];
            tx.txid in txs && txs[tx.txid] == TxRow(n, |tx.ops|, t, lead)
  {
    var mark, tx := After(PlanOf(w), acts).hwm, BlockAt(w, n).txs[t];
    PlanProper(w);
    ReplayConfluenceButHistory(PlanOf(w), acts);
    TxThere(w, mark, n, t);
    var x := TxFrom(w, mark, tx.txid);
    LeadExactly(tx, lead);
  }

  // ---- receipts ----

  /** Receipt i of the node's answer for transaction t of block n, which the scanner asks for. */
  predicate IsReceipt(w: World, n: nat, t: nat, i: nat) {
    TxReached(w, n, t) && IsContractTx(BlockAt(w, n).txs[t]) && i < |BlockAt(w, n).txs[t].receipts|
  }

  /** It is the first of the answer under its key. */
  predicate IsFirstReceipt(w: World, n: nat, t: nat, i: nat) {
    && IsReceipt(w, n, t, i)
    && var rs := BlockAt(w, n).txs[t].receipts; forall j :: 0 <= j < i ==> KeyOf(rs[j]) != KeyOf(rs[i])
  }

  lemma AnswerFramed(w: World, n: nat, t: nat)
    requires IsReceipt(w, n, t, 0)
    ensures Framed(TxInstrs(w, n, t), Row(w, n, t), ReceiptsFrom(w, n, t), BlockAt(w, n).txs[t].receipts)
  {
    TxFramed(w, n, t);
    FetchExactly(BlockAt(w, n).txs[t]);
  }

  /** The receipt that instruction r saves, if nothing before it saves one under its key. */
  lemma ReceiptIn(s: seq<Instr>, row: Instr, before: nat, rs: seq<Receipt>, r: nat) returns (i: nat)
    requires Framed(s, row, before, rs) && row.SaveTx? && r < |s| && s[r].SaveReceipt?
    requires forall q :: 0 <= q < r ==> !Offers(s, ReceiptPut, q, KeyOf(s[r].receipt))
    ensures i < |rs| && s[r].receipt == rs[i] && forall j :: 0 <= j < i ==> KeyOf(rs[j]) != KeyOf(rs[i])
  {
    i := r - before;
    forall j | 0 <= j < i ensures KeyOf(rs[j]) != KeyOf(rs[i]) {
      assert s[before + j] == SaveReceipt(rs[j]) && !Offers(s, ReceiptPut, before + j, KeyOf(s[r].receipt));
    }
  }

  /** A stored receipt is the first under its key of some answer. */
  lemma ReceiptFrom(w: World, n: nat, key: ReceiptKey) returns (x: Place, i: nat)
    requires n <= |All(PlanOf(w))| && key in Ideal(PlanOf(w), n).receipts
    ensures IsFirstReceipt(w, x.n, x.t, i) && KeyOf(BlockAt(w, x.n).txs[x.t].receipts[i]) == key
    ensures Ideal(PlanOf(w), n).receipts[key] == BlockAt(w, x.n).txs[x.t].receipts[i]
  {
    TxsLaid(w);
    ReceiptsCollected(All(PlanOf(w))[..n]);
    var r;
    x, r := FirstPlace(PlanOf(w), TxLayout(w), ReceiptPut, key, n);
    TxFramed(w, x.n, x.t);
    FetchExactly(BlockAt(w, x.n).txs[x.t]);
    i := ReceiptIn(TxInstrs(w, x.n, x.t), Row(w, x.n, x.t), ReceiptsFrom(w, x.n, x.t),
                   FetchedReceipts(BlockAt(w, x.n).txs[x.t]), r);
  }

  lemma OffersReceipt(w: World, n: nat, t: nat, i: nat)
    requires IsReceipt(w, n, t, i)
    ensures OffersAt(TxLayout(w), ReceiptPut, Place(n, t, 0), KeyOf(BlockAt(w, n).txs[t].receipts[i]))
  {
    AnswerFramed(w, n, t);
    assert Offers(TxInstrs(w, n, t), ReceiptPut, ReceiptsFrom(w, n, t) + i, KeyOf(BlockAt(w, n).txs[t].receipts[i]));
  }

  lemma ReceiptThere(w: World, mark: nat, n: nat, t: nat, i: nat)
    requires IsReceipt(w, n, t, i) && Start(PlanOf(w), n + 1) <= mark <= |All(PlanOf(w))|
    ensures KeyOf(BlockAt(w, n).txs[t].receipts[i]) in Ideal(PlanOf(w), mark).receipts
  {
    TxsLaid(w);
    OffersReceipt(w, n, t, i);
    PlaceStored(PlanOf(w), TxLayout(w), ReceiptPut, KeyOf(BlockAt(w, n).txs[t].receipts[i]), mark, Place(n, t, 0));
    ReceiptsCollected(All(PlanOf(w))[..mark]);
  }

  /** Ids being unique, the answers of two transactions have no key in common. */
  lemma OwnAnswer(w: World, n: nat, t: nat, i: nat, x: Place, j: nat)
    requires UniqueTxids(w) && ReceiptsCarryTxid(w) && IsReceipt(w, n, t, i) && IsReceipt(w, x.n, x.t, j)
    requires KeyOf(BlockAt(w, n).txs[t].receipts[i]) == KeyOf(BlockAt(w, x.n).txs[x.t].receipts[j])
    ensures x.n == n && x.t == t
  {
    assert OwnReceipts(BlockAt(w, n).txs[t]) && OwnReceipts(BlockAt(w, x.n).txs[x.t]);
  }

  // ---- a receipt being saved is a new one ----

  lemma SavedBefore(p: Plan, i: nat, n: nat)
    requires i < n <= |All(p)| && All(p)[i].SaveReceipt?
    ensures KeyOf(All(p)[i].receipt) in Ideal(p, n).receipts
  {
    ReceiptsCollected(All(p)[..n]);
    assert Offers(All(p)[..n], ReceiptPut, i, KeyOf(All(p)[i].receipt));
    KeyExactly(All(p)[..n], ReceiptPut, KeyOf(All(p)[i].receipt));
  }

  /** The mark is at the receipt whose save is in progress. */
  predicate SavesAtMark(p: Plan, s: State) {
    s.saving.Some? ==> s.hwm <= Position(p, s) + 1
  }

  lemma SaveStep(p: Plan, s: State, act: Act)
    requires Proper(p) && Shape(p, s) && SavesAtMark(p, s) && !act.Skip?
    requires s.hwm <= |All(p)| && s.disk.tables.receipts == Ideal(p, s.hwm).receipts
    ensures SavesAtMark(p, Step(p, s, act))
  {
    if act.Tick? && s.todo != [] {
      AtPosition(p, s);
      if s.todo[0].SaveReceipt? {
        if Position(p, s) < s.hwm {
          SavedBefore(p, Position(p, s), s.hwm);
        }
      } else {
        OtherTick(p, s, s.todo[0], act.answered);
      }
    }
  }

  lemma {:induction false} SavesAlways(p: Plan, acts: seq<Act>)
    requires Proper(p) && FailStop(acts)
    ensures SavesAtMark(p, After(p, acts))
  {
    if acts != [] {
      var before := acts[..|acts| - 1];
      SavesAlways(p, before);
      ShapeAlways(p, before);
      ReplayConfluenceButHistory(p, before);
      SaveStep(p, After(p, before), acts[|acts| - 1]);
    }
  }

  lemma FramedReceipt(s: seq<Instr>, row: Instr, before: nat, rs: seq<Receipt>, r: nat) returns (i: nat)
    requires Framed(s, row, before, rs) && r < |s| && s[r].SaveReceipt?
    ensures i < |rs| && s[r].receipt == rs[i]
  {
    i := r - before;
    assert s[before + i] == SaveReceipt(rs[i]);
  }

  /** The answer that a receipt of the script is from. */
  lemma ReceiptPlace(w: World, k: nat) returns (n: nat, t: nat, i: nat)
    requires k < |All(PlanOf(w))| && All(PlanOf(w))[k].SaveReceipt?
    ensures IsReceipt(w, n, t, i) && All(PlanOf(w))[k].receipt == BlockAt(w, n).txs[t].receipts[i]
    ensures k < Start(PlanOf(w), n + 1)
  {
    TxsLaid(w);
    var x, r := OwnerIn(PlanOf(w), TxLayout(w), k);
    n, t := x.n, x.t;
    TxFramed(w, n, t);
    FetchExactly(BlockAt(w, n).txs[t]);
    i := FramedReceipt(TxInstrs(w, n, t), Row(w, n, t), ReceiptsFrom(w, n, t),
                       FetchedReceipts(BlockAt(w, n).txs[t]), r);
  }

  /** It is not the last instruction of its block. */
  lemma NotLast(p: Plan, k: nat, n: nat)
    requires Proper(p) && 1 <= n <= p.Length() && k < Start(p, n + 1) && k < |All(p)| && All(p)[k].SaveReceipt?
    ensures k + 1 < Start(p, n + 1)
  {
    assert ProperBlock(n, p.Script(n));
    BlockPlace(p, n, |p.Script(n)| - 1);
  }

  /** A receipt whose block has been scanned is not being saved. */
  lemma NotInSave(w: World, s: State, n: nat, t: nat, i: nat)
    requires Proper(PlanOf(w)) && Shape(PlanOf(w), s) && SavesAtMark(PlanOf(w), s) && IsReceipt(w, n, t, i)
    requires UniqueTxids(w) && ReceiptsCarryTxid(w) && Start(PlanOf(w), n + 1) <= s.hwm
    ensures !InSave(s, KeyOf(BlockAt(w, n).txs[t].receipts[i]))
  {
    if InSave(s, KeyOf(BlockAt(w, n).txs[t].receipts[i])) {
      AtPosition(PlanOf(w), s);
      var m, u, j := ReceiptPlace(w, Position(PlanOf(w), s));
      OwnAnswer(w, n, t, i, Place(m, u, 0), j);
      NotLast(PlanOf(w), Position(PlanOf(w), s), n);
    }
  }

  lemma FirstAnswer(w: World, n: nat, t: nat, j: nat, x: Place, i: nat)
    requires UniqueTxids(w) && ReceiptsCarryTxid(w) && IsReceipt(w, n, t, j) && IsFirstReceipt(w, x.n, x.t, i)
    requires KeyOf(BlockAt(w, n).txs[t].receipts[j]) == KeyOf(BlockAt(w, x.n).txs[x.t].receipts[i])
    ensures x.n == n && x.t == t && i <= j
  {
    OwnAnswer(w, n, t, j, x, i);
  }

  /** Once its block has been scanned, every receipt of the node's answer for a contract
      transaction has its key stored, with the first receipt of the answer under that key; and
      its event rows are that receipt's events, all of them unless a crash fell inside its save. */
  lemma ReceiptsOnChain(w: World, acts: seq<Act>, n: nat, t: nat, j: nat)
    requires UniqueTxids(w) && ReceiptsCarryTxid(w) && FailStop(acts) && IsReceipt(w, n, t, j)
    requires Start(PlanOf(w), n + 1) <= After(PlanOf(w), acts).hwm
    ensures var s, rs := After(PlanOf(w), acts), BlockAt(w, n).txs[t].receipts;
            var key := ReceiptKey(BlockAt(w, n).txs[t].txid, rs[j].opNum);
            && key in s.disk.tables.receipts && key in s.disk.events
            && (exists i: nat :: IsFirstReceipt(w, n, t, i) && rs[i].opNum == rs[j].opNum
                                 && s.disk.tables.receipts[key] == rs[i])
            && s.disk.events[key] <= s.disk.tables.receipts[key].events
            && (key !in s.torn ==> s.disk.events[key] == s.disk.tables.receipts[key].events)
  {
    var p, s, rs := PlanOf(w), After(PlanOf(w), acts), BlockAt(w, n).txs[t].receipts;
    PlanProper(w);
    ReplayConfluenceButHistory(p, acts);
    ReceiptThere(w, s.hwm, n, t, j);
    var x, i := ReceiptFrom(w, s.hwm, KeyOf(rs[j]));
    FirstAnswer(w, n, t, j, x, i);
    assert OwnReceipts(BlockAt(w, n).txs[t]);
    ShapeAlways(p, acts);
    SavesAlways(p, acts);
    NotInSave(w, s, n, t, j);
    EventsAtMostOnce(p, acts);
    assert KeyOk(s, KeyOf(rs[j]));
  }

  /** No other receipt is ever stored. */
  lemma OnlyReceipts(w: World, acts: seq<Act>, key: ReceiptKey)
    requires FailStop(acts) && key in After(PlanOf(w), acts).disk.tables.receipts
    ensures exists n: nat, t: nat, i: nat ::
              && IsFirstReceipt(w, n, t, i) && KeyOf(BlockAt(w, n).txs[t].receipts[i]) == key
              && After(PlanOf(w), acts).disk.tables.receipts[key] == BlockAt(w, n).txs[t].receipts[i]
  {
    PlanProper(w);
    ReplayConfluenceButHistory(PlanOf(w), acts);
    var x, i := ReceiptFrom(w, After(PlanOf(w), acts).hwm, key);
  }
}
