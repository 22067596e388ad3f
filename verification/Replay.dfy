/** The ideal content of the deterministic tables: the effects of a prefix of the script, each
    executed once and in order. Executing again anything already in the prefix changes
    nothing, which is what lets the scanner replay blocks over its own rows. */
module Replay {
  import opened Wrappers
  import opened Chain
  import opened Tables
  import opened Script
  import opened Plans
  import opened Collect
  import opened Machine

  function Replayed(a: seq<Instr>): Tables {
    if a == [] then EMPTY_TABLES
    else Effect(Replayed(a[..|a| - 1]), a[|a| - 1])
  }

  /** The tables after the first n instructions of the plan. */
  function Ideal(p: Plan, n: nat): Tables
    requires n <= |All(p)|
  {
    Replayed(All(p)[..n])
  }

  predicate Registers(i: Instr, contract: string) {
    i.SaveToken? && i.contract == contract
  }

  /** Some instruction before position n registers the token contract. */
  predicate RegisteredBefore(a: seq<Instr>, n: nat, contract: string)
    requires n <= |a|
  {
    exists j :: 0 <= j < n && Registers(a[j], contract)
  }

  function GuardContract(guard: Guard): Option<string> {
    if guard.Always? then None else Some(guard.contract)
  }

  /** The contract whose registration decides whether the instruction acts. */
  function Needed(i: Instr): Option<string> {
    match i
    case SaveHistory(_, row) => Some(row.contract)
    case Refresh(_, guard, _) => GuardContract(guard)
    case Halt(guard) => GuardContract(guard)
    case _ => None
  }

  /** The stated assumption on the chain: no event of a token contract comes before the
      registration of that contract. */
  predicate EventsFollowRegistration(a: seq<Instr>) {
    forall i {:trigger Needed(a[i])} ::
      0 <= i < |a| && Needed(a[i]).Some? && RegisteredBefore(a, |a|, Needed(a[i]).value)
      ==> RegisteredBefore(a, i, Needed(a[i]).value)
  }

  /** A back-fill comes after its predecessor's row, and one block has one predecessor hash. */
  predicate BackFillsOrdered(a: seq<Instr>) {
    && (forall i :: 0 <= i < |a| && a[i].BackFill? ==> a[i].num >= 1 && BlockSavedBefore(a, i, a[i].num - 1))
    && (forall i, j :: 0 <= i < |a| && 0 <= j < |a| && a[i].BackFill? && a[j].BackFill? && a[i].num == a[j].num
          ==> a[i].hash == a[j].hash)
  }

  predicate BlockSavedBefore(a: seq<Instr>, n: nat, num: nat)
    requires n <= |a|
  {
    exists j :: 0 <= j < n && a[j].SaveBlock? && a[j].num == num
  }

  lemma PrefixStep(a: seq<Instr>, n: nat)
    requires n < |a|
    ensures Replayed(a[..n + 1]) == Effect(Replayed(a[..n]), a[n])
  {
    assert a[..n + 1][..n] == a[..n];
  }

  lemma RegisteredLater(a: seq<Instr>, m: nat, n: nat, contract: string)
    requires m <= n <= |a|
    ensures RegisteredBefore(a, m, contract) ==> RegisteredBefore(a, n, contract)
  {
  }

  // ---- each find-or-save table is collected from what the instructions offer ----

  lemma {:induction false} TokensCollected(a: seq<Instr>)
    ensures Replayed(a).tokens == Collected(a, TokenPut)
  {
    if a != [] {
      TokensCollected(a[..|a| - 1]);
    }
  }

  function BlockKeyPut(i: Instr): Option<Put<nat, ()>> {
    if i.SaveBlock? then Some(Put(i.num, ())) else None
  }

  lemma {:induction false} BlocksCollected(a: seq<Instr>)
    ensures Replayed(a).blocks.Keys == Collected(a, BlockKeyPut).Keys
  {
    if a != [] {
      BlocksCollected(a[..|a| - 1]);
    }
  }

  lemma {:induction false} TxsCollected(a: seq<Instr>)
    ensures Replayed(a).txs == Collected(a, TxPut)
  {
    if a != [] {
      TxsCollected(a[..|a| - 1]);
    }
  }

  lemma {:induction false} SchemasCollected(a: seq<Instr>)
    ensures Replayed(a).schemas == Collected(a, SchemaPut)
  {
    if a != [] {
      SchemasCollected(a[..|a| - 1]);
    }
  }

  lemma {:induction false} OpsCollected(a: seq<Instr>)
    ensures Replayed(a).ops == Collected(a, OpPut)
  {
    if a != [] {
      OpsCollected(a[..|a| - 1]);
    }
  }

  lemma {:induction false} AccountsCollected(a: seq<Instr>)
    ensures Replayed(a).accounts == Collected(a, AccountPut)
  {
    if a != [] {
      AccountsCollected(a[..|a| - 1]);
    }
  }

  lemma {:induction false} ReceiptsCollected(a: seq<Instr>)
    ensures Replayed(a).receipts == Collected(a, ReceiptPut)
  {
    if a != [] {
      ReceiptsCollected(a[..|a| - 1]);
    }
  }

  lemma TokensReplayed(a: seq<Instr>, n: nat, contract: string)
    requires n <= |a|
    ensures contract in Replayed(a[..n]).tokens <==> RegisteredBefore(a, n, contract)
  {
    TokensCollected(a[..n]);
    KeyExactly(a[..n], TokenPut, contract);
    if RegisteredBefore(a, n, contract) {
      var j :| 0 <= j < n && Registers(a[j], contract);
      assert Offers(a[..n], TokenPut, j, contract);
    }
    if j :| Offers(a[..n], TokenPut, j, contract) {
      assert Registers(a[j], contract);
    }
  }

  lemma BlocksReplayed(a: seq<Instr>, n: nat, num: nat)
    requires n <= |a|
    ensures num in Replayed(a[..n]).blocks <==> BlockSavedBefore(a, n, num)
  {
    BlocksCollected(a[..n]);
    KeyExactly(a[..n], BlockKeyPut, num);
    assert num in Replayed(a[..n]).blocks <==> num in Collected(a[..n], BlockKeyPut).Keys;
    if BlockSavedBefore(a, n, num) {
      var j :| 0 <= j < n && a[j].SaveBlock? && a[j].num == num;
      assert Offers(a[..n], BlockKeyPut, j, num);
    }
    if j :| Offers(a[..n], BlockKeyPut, j, num) {
      assert a[j].SaveBlock? && a[j].num == num;
    }
  }

  /** All tables, or all but transfer history: the only one whose rows depend on when an event
      is seen. */
  function Part(whole: bool, d: Tables): Tables {
    if whole then d else d.(history := map[])
  }

  /** What an instruction does to the other tables does not depend on transfer history. */
  lemma PartEffect(whole: bool, d: Tables, e: Tables, i: Instr)
    requires Part(whole, d) == Part(whole, e)
    ensures Part(whole, Effect(d, i)) == Part(whole, Effect(e, i))
  {
  }

  /** The instruction has nothing left to do to any table but transfer history. */
  predicate Settled(d: Tables, i: Instr) {
    match i
    case SaveBlock(num, _) => num in d.blocks
    case BackFill(num, hash) =>
      && num >= 1 && num - 1 in d.blocks
      && (!Blank(d.blocks[num - 1].blockId) || d.blocks[num - 1].blockId == hash)
    case SaveTx(txid, _) => txid in d.txs
    case MakeTable(table, _) => table in d.schemas
    case InsertOp(key, _) => key in d.rows
    case SaveOp(id, _) => id in d.ops
    case SaveAccount(payer, _) => payer in d.accounts
    case SaveToken(contract, _) => contract in d.tokens
    case SaveReceipt(r) => KeyOf(r) in d.receipts
    case _ => true
  }

  /** Nor to transfer history, now and whatever else of the script happens. */
  predicate Recorded(a: seq<Instr>, d: Tables, i: Instr) {
    i.SaveHistory? && HistoryFits(i.hkey, i.hrow) ==>
      if i.hrow.contract in d.tokens then i.hkey in d.history else !RegisteredBefore(a, |a|, i.hrow.contract)
  }

  lemma SettledIdle(d: Tables, i: Instr)
    requires Settled(d, i)
    ensures Part(false, Effect(d, i)) == Part(false, d)
  {
    match i
    case SaveBlock(_, _) => assert Effect(d, i).blocks == d.blocks;
    case BackFill(num, hash) => FilledAlready(d.blocks, i);
    case SaveTx(_, _) => assert Effect(d, i).txs == d.txs;
    case MakeTable(_, _) => assert Effect(d, i).schemas == d.schemas;
    case InsertOp(_, _) => assert Effect(d, i).rows == d.rows;
    case SaveOp(_, _) => assert Effect(d, i).ops == d.ops;
    case SaveAccount(_, _) => assert Effect(d, i).accounts == d.accounts;
    case SaveToken(_, _) => assert Effect(d, i).tokens == d.tokens;
    case SaveReceipt(_) => assert Effect(d, i).receipts == d.receipts;
    case _ =>
  }

  lemma RecordedIdle(a: seq<Instr>, d: Tables, i: Instr)
    requires Recorded(a, d, i)
    ensures Effect(d, i).history == d.history
  {
  }

  lemma FilledAlready(blocks: map<nat, BlockRow>, i: Instr)
    requires i.BackFill? && i.num >= 1 && i.num - 1 in blocks
    requires !Blank(blocks[i.num - 1].blockId) || blocks[i.num - 1].blockId == i.hash
    ensures FillHash(blocks, i) == blocks
  {
    var row := blocks[i.num - 1];
    assert Blank(row.blockId) ==> blocks[i.num - 1 := row.(blockId := i.hash)] == blocks;
  }

  lemma SettledStays(a: seq<Instr>, d: Tables, i: Instr, j: nat)
    requires BackFillsOrdered(a) && j < |a| && Settled(d, i)
    requires i.BackFill? ==> i in a
    ensures Settled(Effect(d, a[j]), i)
  {
  }

  lemma RecordedStays(a: seq<Instr>, d: Tables, i: Instr, j: nat)
    requires j < |a| && Recorded(a, d, i)
    ensures Recorded(a, Effect(d, a[j]), i)
  {
    if i.SaveHistory? && a[j].SaveToken? && a[j].contract == i.hrow.contract {
      assert Registers(a[j], i.hrow.contract);
    }
  }

  lemma SettledAtOnce(a: seq<Instr>, n: nat)
    requires BackFillsOrdered(a) && n < |a|
    ensures Settled(Effect(Replayed(a[..n]), a[n]), a[n])
  {
    if a[n].BackFill? {
      BlocksReplayed(a, n, a[n].num - 1);
    }
  }

  lemma RecordedAtOnce(a: seq<Instr>, n: nat)
    requires EventsFollowRegistration(a) && n < |a|
    ensures Recorded(a, Effect(Replayed(a[..n]), a[n]), a[n])
  {
    if a[n].SaveHistory? {
      assert Needed(a[n]) == Some(a[n].hrow.contract);
      TokensReplayed(a, n, a[n].hrow.contract);
    }
  }

  /** What no instruction of the script undoes lasts. */
  lemma {:induction false} Lasts(a: seq<Instr>, next: (Tables, Instr) -> Tables, holds: Tables -> bool, m: nat, n: nat)
    requires m <= n <= |a| && holds(Replayed(a[..m]))
    requires forall d, i {:trigger Effect(d, i)} :: next(d, i) == Effect(d, i)
    requires forall d, j {:trigger next(d, a[j])} :: 0 <= j < |a| && holds(d) ==> holds(next(d, a[j]))
    ensures holds(Replayed(a[..n]))
  {
    if m < n {
      Lasts(a, next, holds, m, n - 1);
      PrefixStep(a, n - 1);
    }
  }

  function EffectOf(): (Tables, Instr) -> Tables {
    (d: Tables, i: Instr) => Effect(d, i)
  }

  /** Everything in the prefix is settled in the ideal tables. */
  lemma PrefixSettled(a: seq<Instr>, i: nat, n: nat)
    requires BackFillsOrdered(a) && i < n <= |a|
    ensures Settled(Replayed(a[..n]), a[i])
  {
    var holds := (d: Tables) => Settled(d, a[i]);
    SettledAtOnce(a, i);
    PrefixStep(a, i);
    forall d, j | 0 <= j < |a| && holds(d) ensures holds(EffectOf()(d, a[j])) {
      SettledStays(a, d, a[i], j);
    }
    Lasts(a, EffectOf(), holds, i + 1, n);
  }

  lemma PrefixRecorded(a: seq<Instr>, i: nat, n: nat)
    requires EventsFollowRegistration(a) && i < n <= |a|
    ensures Recorded(a, Replayed(a[..n]), a[i])
  {
    var holds := (d: Tables) => Recorded(a, d, a[i]);
    RecordedAtOnce(a, i);
    PrefixStep(a, i);
    forall d, j | 0 <= j < |a| && holds(d) ensures holds(EffectOf()(d, a[j])) {
      RecordedStays(a, d, a[i], j);
    }
    Lasts(a, EffectOf(), holds, i + 1, n);
  }

  /** Replay absorption: an instruction of the prefix has no effect on the ideal tables; if
      events may precede registrations, transfer history excepted. */
  lemma Absorbed(a: seq<Instr>, i: nat, n: nat, whole: bool)
    requires BackFillsOrdered(a) && (whole ==> EventsFollowRegistration(a)) && i < n <= |a|
    ensures Part(whole, Effect(Replayed(a[..n]), a[i])) == Part(whole, Replayed(a[..n]))
  {
    var d := Replayed(a[..n]);
    PrefixSettled(a, i, n);
    SettledIdle(d, a[i]);
    if whole {
      PrefixRecorded(a, i, n);
      RecordedIdle(a, d, a[i]);
      assert Effect(d, a[i]) == Part(false, Effect(d, a[i])).(history := d.history);
    }
  }

  // ---- the plan's own guarantees ----

  /** The script of a proper plan orders its back-fills. */
  lemma PlanOrdersBackFills(p: Plan)
    requires Proper(p)
    ensures BackFillsOrdered(All(p))
  {
    var a := All(p);
    forall i | 0 <= i < |a| && a[i].BackFill?
      ensures a[i].num >= 1 && BlockSavedBefore(a, i, a[i].num - 1)
    {
      var n := BackFillPlace(p, i);
      assert ProperBlock(n - 1, p.Script(n - 1));
      BlockPlace(p, n - 1, 0);
      StartMonotone(p, n, n);
      assert Fits(n - 1, 0, p.Script(n - 1)[0]);
      var j := Start(p, n - 1);
      assert a[j].SaveBlock? && a[j].num == n - 1;
    }
    forall i, j | 0 <= i < |a| && 0 <= j < |a| && a[i].BackFill? && a[j].BackFill? && a[i].num == a[j].num
      ensures a[i].hash == a[j].hash
    {
      var n := BackFillPlace(p, i);
      var m := BackFillPlace(p, j);
    }
  }

  lemma BackFillPlace(p: Plan, i: nat) returns (n: nat)
    requires Proper(p) && i < |All(p)| && All(p)[i].BackFill?
    ensures 1 < n <= p.Length() && i == Start(p, n) + 1 && All(p)[i].num == n
  {
    var k;
    n, k := BlockOf(p, p.Length(), i);
    BlockPlace(p, n, k);
    assert ProperBlock(n, p.Script(n));
    assert Fits(n, k, p.Script(n)[k]);
  }
}
