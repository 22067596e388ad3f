/** The process: its connection to the node and to the database, what it keeps in memory, and
    a ghost record of the run it is going through. Every call to the node or the database may
    succeed, report an error, or be the moment the process dies; and the node's head may
    advance before it. */
module Indexers {
  import opened Wrappers
  import opened Numerals
  import opened Json
  import opened Chain
  import opened Tables
  import opened Script
  import opened Plans
  import opened Collect
  import opened Machine
  import opened Invariant
  import opened Confluence
  import opened Readings
  import opened Integrity
  import opened RowTables
  import opened DynamicInsert
  import opened Databases

  datatype Fate = Went | Failed | Died {
    predicate IsFailure() {
      !Went?
    }

    function PropagateFailure(): Fate {
      this
    }
  }

  /** A run: its actions, the state they lead to, whether no error that was only logged has
      made it skip anything so far, and whether no call has failed in any way since the last
      start. */
  datatype Run = Run(acts: seq<Act>, now: State, calm: bool, smooth: bool)

  /** Mentioned where the meaning of IsRun is used; elsewhere it stays folded. */
  predicate Unfold(acts: seq<Act>, s: State) {
    true
  }

  /** now is the state after acts, none of which skips anything if the run is calm. */
  ghost predicate IsRun(p: Plan, r: Run) {
    forall acts, s {:trigger Unfold(acts, s)} ::
      acts == r.acts && s == r.now ==> s == After(p, acts) && (r.calm ==> FailStop(acts))
  }

  lemma RunMeans(p: Plan, r: Run)
    ensures IsRun(p, r) <==> r.now == After(p, r.acts) && (r.calm ==> FailStop(r.acts))
  {
    assert Unfold(r.acts, r.now);
  }

  /** What the machine's invariants say of a recorded run. */
  lemma RunCoherent(p: Plan, r: Run)
    requires IsRun(p, r) && Proper(p)
    ensures CacheCoherent(r.now) && Shape(p, r.now)
  {
    RunMeans(p, r);
    SchemaCacheCoherence(p, r.acts);
    ShapeAlways(p, r.acts);
  }

  function Extended(p: Plan, r: Run, a: Act): Run {
    Run(r.acts + [a], Step(p, r.now, a), r.calm, r.smooth)
  }

  lemma RunExtends(p: Plan, r: Run, a: Act)
    requires IsRun(p, r) && (a.Skip? ==> !r.calm)
    ensures IsRun(p, Extended(p, r, a))
  {
    RunMeans(p, r);
    AfterStep(p, r.acts, a);
    RunMeans(p, Extended(p, r, a));
  }

  lemma RunDisturbed(p: Plan, r: Run)
    requires IsRun(p, r)
    ensures IsRun(p, r.(calm := false)) && IsRun(p, r.(smooth := false)) && IsRun(p, r.(smooth := true))
  {
    RunMeans(p, r);
    RunMeans(p, r.(calm := false));
    RunMeans(p, r.(smooth := false));
    RunMeans(p, r.(smooth := true));
  }

  /** What the scanner takes for granted about the chain. */
  predicate WorldOk(w: World) {
    && UniqueTxids(w) && ReceiptsCarryTxid(w)
    && |w.chain| < SQL_INTEGERS
    && DistinctAssets(w.assets)
  }

  /** p asks and shows what the node of w does. */
  ghost predicate NodeFits(p: Plan, w: World) {
    && p.ledger == w.ledger
    && (forall c: Cell, v: int {:trigger p.shown(c, v)} :: p.shown(c, v) == Shown(w, c, v))
    && (forall c: Cell {:trigger p.listed(c)} :: p.listed(c) == Listed(w, c))
    && (forall c: Cell, v: int {:trigger p.fits(c, v)} :: p.fits(c, v) == NumberFits(c, p.shown(c, v)))
  }

  /** The node lists an asset once. */
  predicate DistinctAssets(assets: seq<AssetInfo>) {
    forall i, j :: 0 <= i < j < |assets| ==> assets[i].id != assets[j].id
  }

  /** Instructions whose whole effect is on the deterministic tables. */
  predicate Plain(i: Instr) {
    i.SaveBlock? || i.BackFill? || i.SaveTx? || i.MakeTable? || i.SaveOp? || i.SaveAccount? || i.SaveHistory?
  }

  /** A cached schema is the one in the database. */
  predicate CacheFresh(cache: map<string, seq<string>>, schemas: map<string, seq<string>>) {
    forall t {:trigger cache[t]} :: t in cache ==> t in schemas && cache[t] == schemas[t]
  }

  lemma CacheKept(cache: map<string, seq<string>>, schemas: map<string, seq<string>>, table: string,
                  columns: seq<string>)
    requires CacheFresh(cache, schemas) && table !in schemas
    ensures CacheFresh(cache, schemas[table := columns])
  {
    forall t | t in cache ensures t in schemas && t != table {
      assert t in schemas by { var c := cache[t]; }
    }
  }

  /** Stored assets have the precision the node lists. */
  predicate AssetsKnown(assets: seq<AssetInfo>, stored: map<string, nat>) {
    forall id {:trigger stored[id]} :: id in stored ==> PrecisionIn(assets, id) == Some(stored[id])
  }

  /** What such an instruction makes of the disk. */
  function Applied(d: Disk, i: Instr): Disk
    requires Plain(i)
  {
    match i
    case SaveBlock(num, row) => WithBlocks(d, PutIfAbsent(d.tables.blocks, num, row))
    case BackFill(_, _) => WithBlocks(d, FillHash(d.tables.blocks, i))
    case SaveTx(txid, row) => WithTxs(d, PutIfAbsent(d.tables.txs, txid, row))
    case MakeTable(table, columns) => WithSchemas(d, PutIfAbsent(d.tables.schemas, table, columns))
    case SaveOp(id, row) => WithOps(d, PutIfAbsent(d.tables.ops, id, row))
    case SaveAccount(payer, name) => WithAccounts(d, PutIfAbsent(d.tables.accounts, payer, name))
    case SaveHistory(key, row) =>
      if row.contract in d.tables.tokens && HistoryFits(key, row)
      then WithHistory(d, PutIfAbsent(d.tables.history, key, row)) else d
  }

  lemma AppliedIsEffect(d: Disk, i: Instr)
    requires Plain(i)
    ensures d.(tables := Effect(d.tables, i)) == Applied(d, i)
  {
  }

  /** The total supply a registration has been answered, if any. */
  function Reply(p: Plan, contract: string, answer: Answer): Option<int> {
    if answer.Number? then Some(p.shown(SupplyCell(contract), answer.value)) else None
  }

  /** The next instruction cannot be executed as things stand: a fatal error that no failed
      call is to blame for. */
  predicate Blocked(p: Plan, s: State) {
    s.todo != [] &&
    match s.todo[0]
    case Halt(guard) => Open(s.disk.tables, guard)
    case Refresh(c, guard, _) =>
      && Open(s.disk.tables, guard)
      && (!p.listed(c) || (s.answer.Number? && !p.fits(c, s.answer.value)))
    case _ => Refused(s.disk.tables, s.todo[0])
  }

  /** The loops may go on with k after an error that was only logged. */
  predicate Ready(k: seq<Instr>) {
    k != [] && !k[0].InsertOp? && !k[0].SaveOp?
  }

  class Indexer {
    const w: World
    ghost const p: Plan
    const db: Database
    var head: nat
    var cursor: nat
    var cache: map<string, seq<string>>
    ghost var run: Run

    ghost predicate Sane()
      reads this
    {
      IsRun(p, run)
    }

    ghost predicate Valid()
      reads this, db
    {
      && Sane() && p.Length() == |w.chain|
      && head == run.now.head && cursor == run.now.cursor && db.disk == run.now.disk
      && db.Valid()
      && CacheFresh(cache, db.schemas) && AssetsKnown(w.assets, db.assetMap)
    }

    /** The rest of the block is k, and no instruction is in progress. */
    ghost predicate At(k: seq<Instr>)
      reads this`run
    {
      run.now.todo == k && run.now.answer == Nothing && run.now.saving == None
    }

    /** The first start, on the empty schema. */
    constructor (w: World, db: Database)
      requires WorldOk(w) && db.Valid() && db.disk == EMPTY_DISK && db.assetMap == map[]
      ensures Valid() && this.w == w && this.db == db && p == PlanOf(w) && run == Run([], INIT, true, true)
    {
      this.w, this.db, p := w, db, PlanOf(w);
      head, cursor, cache := 0, 1, map[];
      run := Run([], INIT, true, true);
      new;
      RunMeans(p, run);
    }

    /** There is a reason for the process to end. */
    ghost predicate Doomed()
      reads this`run
    {
      !run.smooth || Blocked(p, run.now)
    }

    // ---- the ghost record ----

    ghost method Note(a: Act)
      requires Sane() && (a.Skip? ==> !run.calm)
      modifies this`run
      ensures Sane() && run.now == Step(p, old(run.now), a)
      ensures run.calm == old(run.calm) && run.smooth == old(run.smooth)
    {
      RunExtends(p, run, a);
      run := Extended(p, run, a);
    }

    ghost method Advance()
      requires Sane() && run.now.head < p.Length()
      modifies this`run
      ensures Sane() && run.now == old(run.now).(head := old(run.now.head) + 1)
      ensures run.calm == old(run.calm) && run.smooth == old(run.smooth)
    {
      Note(NodeAdvance);
    }

    /** Only the disk and the instructions ahead have changed. */
    twostate predicate Moved(disk: Disk, k: seq<Instr>)
      reads this
    {
      && Sane() && At(k) && run.now.disk == disk
      && run.now.head == old(run.now.head) && run.now.cursor == old(run.now.cursor)
      && run.calm == old(run.calm) && run.smooth == old(run.smooth)
    }

    ghost method Pop(i: Instr, k: seq<Instr>)
      requires Sane() && At([i] + k) && k != [] && Plain(i) && !Refused(run.now.disk.tables, i)
      modifies this`run
      ensures Moved(Applied(old(run.now.disk), i), k)
    {
      AppliedIsEffect(run.now.disk, i);
      assert ([i] + k)[1..] == k;
      Note(Tick(true));
    }

    /** An instruction that has nothing to do. */
    ghost method Pass(i: Instr, k: seq<Instr>)
      requires Sane() && At([i] + k) && k != []
      requires (i.Refresh? && !Open(run.now.disk.tables, i.guard)) || (i.Halt? && !Open(run.now.disk.tables, i.guard))
               || (i.SaveHistory? && HistoryPut(run.now.disk.tables.tokens, i).None?)
               || (i.InsertOp? && i.key in run.now.disk.tables.rows)
               || (i.SaveReceipt? && KeyOf(i.receipt) in run.now.disk.tables.receipts)
      modifies this`run
      ensures Moved(old(run.now.disk), k)
    {
      assert ([i] + k)[1..] == k;
      Note(Tick(true));
    }

    /** The node is asked for a number; nothing is known of an asset it does not list. */
    ghost method Query(i: Instr, k: seq<Instr>)
      requires Sane() && At([i] + k) && i.Refresh? && Open(run.now.disk.tables, i.guard)
      modifies this`run
      ensures Sane() && run.calm == old(run.calm) && run.smooth == old(run.smooth)
      ensures run.now == old(run.now).(answer := if p.listed(i.cell) then Ask(p, old(run.now), i.cell) else Nothing)
    {
      Note(Tick(true));
    }

    /** The answer is stored. */
    ghost method Write(i: Instr, k: seq<Instr>)
      requires Sane() && run.now.todo == [i] + k && k != [] && run.now.saving == None
      requires i.Refresh? && Open(run.now.disk.tables, i.guard) && p.listed(i.cell)
      requires run.now.answer.Number? && p.fits(i.cell, run.now.answer.value)
      modifies this`run
      ensures Moved(WithLive(old(run.now.disk), i.cell, p.shown(i.cell, old(run.now.answer.value))), k)
    {
      assert ([i] + k)[1..] == k;
      Note(Tick(true));
    }

    /** A registration asks for the total supply, and goes on without it if that fails. */
    ghost method QuerySupply(i: Instr, k: seq<Instr>, answered: bool)
      requires Sane() && At([i] + k) && i.SaveToken?
      modifies this`run
      ensures Sane() && run.calm == old(run.calm) && run.smooth == old(run.smooth)
      ensures var answer := if answered then Ask(p, old(run.now), SupplyCell(i.contract)) else NoNumber;
              run.now == old(run.now).(answer := answer)
    {
      Note(Tick(answered));
    }

    ghost method WriteToken(i: Instr, k: seq<Instr>)
      requires Sane() && run.now.todo == [i] + k && k != [] && run.now.saving == None
      requires i.SaveToken? && run.now.answer != Nothing && !Refused(run.now.disk.tables, i)
      modifies this`run
      ensures i.contract in old(run.now.disk.tables.tokens) ==> Moved(old(run.now.disk), k)
      ensures i.contract !in old(run.now.disk.tables.tokens) ==>
                var record := TokenRecord(i.token, Reply(p, i.contract, old(run.now.answer)));
                Moved(WithToken(old(run.now.disk), i.contract, record), k)
    {
      assert ([i] + k)[1..] == k;
      Note(Tick(true));
    }

    ghost method BeginReceipt(r: Receipt, k: seq<Instr>)
      requires Sane() && At([SaveReceipt(r)] + k) && KeyOf(r) !in run.now.disk.tables.receipts
      modifies this`run
      ensures Sane() && run.calm == old(run.calm) && run.smooth == old(run.smooth)
      ensures var d := old(run.now.disk);
              run.now == old(run.now).(disk := d.(tables := Effect(d.tables, SaveReceipt(r)),
                                                  events := d.events[KeyOf(r) := []]),
                                       saving := Some(0), hwm := run.now.hwm)
    {
      Note(Tick(true));
    }

    ghost method WriteEvent(r: Receipt, k: seq<Instr>, n: nat)
      requires Sane() && run.now.todo == [SaveReceipt(r)] + k && run.now.saving == Some(n) && n < |r.events|
      requires KeyOf(r) in run.now.disk.events
      modifies this`run
      ensures Sane() && run.calm == old(run.calm) && run.smooth == old(run.smooth)
      ensures var d := old(run.now.disk);
              run.now == old(run.now).(disk := d.(events := d.events[KeyOf(r) := d.events[KeyOf(r)] + [r.events[n]]]),
                                       saving := Some(n + 1))
    {
      Note(Tick(true));
    }

    ghost method EndReceipt(r: Receipt, k: seq<Instr>)
      requires Sane() && run.now.todo == [SaveReceipt(r)] + k && k != [] && run.now.saving == Some(|r.events|)
      modifies this`run
      ensures Moved(old(run.now.disk), k)
    {
      assert ([SaveReceipt(r)] + k)[1..] == k;
      Note(Tick(true));
    }

    /** An operation's row goes in with the columns of the live schema. */
    ghost method Insert(key: OpKey, fields: Fields, k: seq<Instr>)
      requires Sane() && At([InsertOp(key, fields)] + k) && k != [] && CacheCoherent(run.now)
      requires key !in run.now.disk.tables.rows && key.table in run.now.disk.tables.schemas
      modifies this`run
      ensures var d := old(run.now.disk);
              Moved(WithRows(d, d.tables.rows[key := RowOf(d.tables.schemas[key.table], fields)]), k)
    {
      assert ([InsertOp(key, fields)] + k)[1..] == k;
      Note(Tick(true));
    }

    ghost method FinishBlock(num: nat)
      requires Sane() && At([EndBlock(num)])
      modifies this`run
      ensures Sane() && At([]) && run.calm == old(run.calm) && run.smooth == old(run.smooth)
      ensures run.now.head == old(run.now.head) && run.now.cursor == old(run.now.cursor) + 1
      ensures run.now.disk == if num % 100 == 0 then old(run.now.disk).(checkpoint := num) else old(run.now.disk)
    {
      Note(Tick(true));
    }

    /** GetBlock delivers the block at the cursor. */
    ghost method BeginBlock()
      requires Sane() && At([]) && 1 <= run.now.cursor <= run.now.head && run.now.cursor <= p.Length()
      modifies this`run
      ensures Moved(old(run.now.disk), p.Script(old(run.now.cursor)))
    {
      Note(Poll);
    }

    ghost method MarkCursor()
      requires Sane() && At([]) && run.now.cursor >= 1
      modifies this`run
      ensures Moved(old(run.now.disk).(checkpoint := old(run.now.cursor) - 1), [])
    {
      Note(Mark);
    }

    ghost method Restarted()
      requires Sane()
      modifies this`run
      ensures Sane() && At([]) && run.now.cursor == old(run.now.disk.checkpoint) + 1
      ensures run.now.disk == old(run.now.disk) && run.now.head == old(run.now.head)
      ensures run.calm == old(run.calm) && run.smooth
    {
      Note(Crash);
      RunDisturbed(p, run);
      run := run.(smooth := true);
    }

    /** The error of a call that failed was only logged: the instructions before k are dropped. */
    ghost method SkipTo(dropped: seq<Instr>, k: seq<Instr>)
      requires Sane() && !run.smooth && run.now.todo == dropped + k && run.now.saving == None
      requires dropped != [] && k != [] && Droppable(dropped, k[0])
      modifies this`run
      ensures Sane() && At(k) && run.now.disk == old(run.now.disk) && !run.calm && !run.smooth
      ensures run.now.head == old(run.now.head) && run.now.cursor == old(run.now.cursor)
    {
      RunDisturbed(p, run);
      run := run.(calm := false);
      assert (dropped + k)[|dropped|..] == k && (dropped + k)[..|dropped|] == dropped;
      Note(Skip(|dropped|));
    }

    // ---- calls ----

    /** The node may get ahead before a call. */
    method NodeMoves()
      requires Valid()
      modifies this`run, this`head
      ensures Valid() && run.calm == old(run.calm) && run.smooth == old(run.smooth)
      ensures run.now == old(run.now).(head := run.now.head) && head >= old(head)
    {
      var more: bool := *;
      while more && head < |w.chain|
        invariant Valid() && run.calm == old(run.calm) && run.smooth == old(run.smooth)
        invariant run.now == old(run.now).(head := run.now.head) && head >= old(head)
        decreases |w.chain| - head
      {
        Advance();
        head := head + 1;
        more := *;
      }
    }

    /** What becomes of the next call. */
    method Call() returns (r: Fate)
      requires Valid()
      modifies this`run, this`head
      ensures Valid() && run.now == old(run.now).(head := run.now.head) && head >= old(head)
      ensures run.calm == old(run.calm) && run.smooth == (old(run.smooth) && r.Went?)
    {
      NodeMoves();
      r := *;
      if !r.Went? {
        RunDisturbed(p, run);
        run := run.(smooth := false);
      }
    }

    /** A call whose error is fatal. */
    method Must() returns (r: Fate)
      requires Valid()
      modifies this`run, this`head
      ensures Valid() && run.now == old(run.now).(head := run.now.head)
      ensures !r.Failed? && run.calm == old(run.calm) && run.smooth == (old(run.smooth) && r.Went?)
    {
      r := Call();
      if r.Failed? {
        r := Died;
      }
    }
  }
}
