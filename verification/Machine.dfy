/** The scanner as a state machine over its single database writes. A run is any sequence of
    actions: the node's head advances, the process dies and restarts from the checkpoint, the
    scanner polls for its next block or marks its checkpoint, executes the next write, or (an
    I/O error it only logs) drops part of the current block. An action that is not possible
    leaves the state as it is. */
module Machine {
  import opened Wrappers
  import opened Json
  import opened Chain
  import opened Tables
  import opened Script
  import opened Plans
  import opened Collect

  /** The node's last answer: what was asked, which block was its head, and the number. */
  datatype Answer = Nothing | NoNumber | Number(head: nat, value: int)

  /** disk survives a crash. cursor is the block being scanned, todo what is left of its
      script; answer, saving (event rows already written by the receipt save in progress)
      and cache are volatile. soft records that some error was only logged; hwm counts the
      script instructions whose deterministic effect has been executed at least once; torn
      collects the receipts inside whose save a crash fell. */
  datatype State = State(
    disk: Disk,
    head: nat,
    cursor: nat,
    todo: seq<Instr>,
    answer: Answer,
    saving: Option<nat>,
    cache: map<string, set<string>>,
    soft: bool,
    hwm: nat,
    torn: set<ReceiptKey>)

  datatype Act = NodeAdvance | Crash | Poll | Mark | Tick(answered: bool) | Skip(count: nat)

  const INIT := State(EMPTY_DISK, 0, 1, [], Nothing, None, map[], false, 0, {})

  // ---- deterministic effect of an instruction ----

  predicate Blank(blockId: string) {
    blockId == "" || blockId == "TODO"
  }

  function Columns(schemas: map<string, set<string>>, table: string): set<string> {
    if table in schemas then schemas[table] else {}
  }

  // what an instruction offers to each find-or-save table

  function TokenPut(i: Instr): Option<Put<string, TokenRow>> {
    if i.SaveToken? then Some(Put(i.contract, i.token)) else None
  }

  function BlockPut(i: Instr): Option<Put<nat, BlockRow>> {
    if i.SaveBlock? then Some(Put(i.num, i.block)) else None
  }

  function TxPut(i: Instr): Option<Put<string, TxRow>> {
    if i.SaveTx? then Some(Put(i.txid, i.tx)) else None
  }

  function SchemaPut(i: Instr): Option<Put<string, set<string>>> {
    if i.MakeTable? then Some(Put(i.table, i.columns)) else None
  }

  function OpPut(i: Instr): Option<Put<string, OpRow>> {
    if i.SaveOp? then Some(Put(i.id, i.op)) else None
  }

  function AccountPut(i: Instr): Option<Put<string, string>> {
    if i.SaveAccount? then Some(Put(i.payer, i.name)) else None
  }

  function ReceiptPut(i: Instr): Option<Put<ReceiptKey, Receipt>> {
    if i.SaveReceipt? then Some(Put(KeyOf(i.receipt), i.receipt)) else None
  }

  function RowPut(schemas: map<string, set<string>>, i: Instr): Option<Put<OpKey, SqlRow>> {
    if i.InsertOp? then Some(Put(i.key, RowOf(Columns(schemas, i.key.table), i.fields))) else None
  }

  function HistoryPut(tokens: map<string, TokenRow>, i: Instr): Option<Put<ReceiptKey, HistoryRow>> {
    if i.SaveHistory? && i.hrow.contract in tokens && HistoryFits(i.hkey, i.hrow) then Some(Put(i.hkey, i.hrow))
    else None
  }

  /** Back-fill of the predecessor's hash, where it is still blank. */
  function FillHash(blocks: map<nat, BlockRow>, i: Instr): map<nat, BlockRow> {
    if i.BackFill? && i.num >= 1 && i.num - 1 in blocks && Blank(blocks[i.num - 1].blockId)
    then blocks[i.num - 1 := blocks[i.num - 1].(blockId := i.hash)]
    else blocks
  }

  /** What the instruction does to the deterministic tables. */
  function Effect(d: Tables, i: Instr): Tables {
    Tables(
      FillHash(Offer(d.blocks, BlockPut(i)), i),
      Offer(d.txs, TxPut(i)),
      Offer(d.schemas, SchemaPut(i)),
      Offer(d.rows, RowPut(d.schemas, i)),
      Offer(d.ops, OpPut(i)),
      Offer(d.receipts, ReceiptPut(i)),
      Offer(d.history, HistoryPut(d.tokens, i)),
      Offer(d.accounts, AccountPut(i)),
      Offer(d.tokens, TokenPut(i)))
  }

  /** A guarded instruction acts only if its guard is open. */
  predicate Open(d: Tables, guard: Guard) {
    match guard
    case Always => true
    case IfToken(contract) => contract in d.tokens
    case IfRecorded(contract, key) => contract in d.tokens && key in d.history
    case UnlessRecorded(contract, key) => contract in d.tokens && key !in d.history
  }

  /** The database refuses the instruction's row: it is new and does not fit its columns. */
  predicate Refused(d: Tables, i: Instr) {
    || (i.SaveAccount? && i.payer !in d.accounts && !AccountFits(i.payer, i.name))
    || (i.SaveToken? && i.contract !in d.tokens && !TokenFits(i.contract, i.token))
  }

  // ---- positions ----

  /** Index in the whole script of the next instruction. */
  function Position(p: Plan, s: State): int {
    if !(1 <= s.cursor <= p.Length() + 1) then 0
    else if s.todo == [] || s.cursor == p.Length() + 1 then Start(p, s.cursor)
    else Start(p, s.cursor + 1) - |s.todo|
  }

  function Max(a: int, b: nat): nat {
    if a > b then a else b
  }

  /** The high-water mark once the instruction at the cursor has taken effect. */
  function Reached(p: Plan, s: State): nat {
    Max(Position(p, s) + 1, s.hwm)
  }

  // ---- steps ----

  function Ask(p: Plan, s: State, c: Cell): Answer {
    Number(s.head, p.ledger(s.head, c))
  }

  /** What one substep of an instruction does: the disk it leaves, whether the instruction is
      finished, and otherwise what it waits with; effect says that its deterministic effect
      has just been executed although it is not finished. */
  datatype Outcome = Outcome(disk: Disk, done: bool, answer: Answer, saving: Option<nat>,
                             cache: map<string, set<string>>, effect: bool)

  function Done(s: State, disk: Disk): Outcome {
    Outcome(disk, true, Nothing, None, s.cache, true)
  }

  function Stuck(s: State): Outcome {
    Outcome(s.disk, false, s.answer, s.saving, s.cache, false)
  }

  function DoRefresh(p: Plan, s: State, c: Cell, guard: Guard, answered: bool): Outcome {
    if !Open(s.disk.tables, guard) then Done(s, s.disk)
    else if !p.listed(c) then Stuck(s)
    else if !s.answer.Number? then (if answered then Stuck(s).(answer := Ask(p, s, c)) else Stuck(s))
    else if !p.fits(c, s.answer.value) then Stuck(s)
    else Done(s, s.disk.(live := s.disk.live[c := p.shown(c, s.answer.value)]))
  }

  /** Registration asks for the total supply first; a failed query leaves it unset. */
  function DoToken(p: Plan, s: State, contract: string, row: TokenRow, answered: bool): Outcome {
    var d, c := s.disk.tables, SupplyCell(contract);
    if s.answer.Nothing? then Stuck(s).(answer := if answered then Ask(p, s, c) else NoNumber)
    else if contract in d.tokens then Done(s, s.disk)
    else if Refused(d, SaveToken(contract, row)) then Stuck(s)
    else
      var live := if s.answer.Number? then s.disk.live[c := p.shown(c, s.answer.value)] else s.disk.live;
      Done(s, s.disk.(tables := Effect(d, SaveToken(contract, row)), live := live))
  }

  /** The receipt row first, then its events one by one. */
  function DoReceipt(s: State, r: Receipt): Outcome {
    var d, k := s.disk.tables, KeyOf(r);
    match s.saving
    case None =>
      if k in d.receipts then Done(s, s.disk)
      else
        Stuck(s).(disk := s.disk.(tables := Effect(d, SaveReceipt(r)), events := s.disk.events[k := []]),
                  saving := Some(0), effect := true)
    case Some(n) =>
      if n < |r.events| then
        var rows := if k in s.disk.events then s.disk.events[k] else [];
        Stuck(s).(disk := s.disk.(events := s.disk.events[k := rows + [r.events[n]]]), saving := Some(n + 1))
      else Done(s, s.disk)
  }

  /** The insert goes by the cached schema when there is one, and caches it otherwise. */
  function DoInsert(s: State, key: OpKey, fields: Fields): Outcome {
    var d := s.disk.tables;
    if key in d.rows then Done(s, s.disk)
    else if key.table !in d.schemas then Stuck(s)
    else
      var columns := if key.table in s.cache then s.cache[key.table] else d.schemas[key.table];
      Done(s, s.disk.(tables := d.(rows := d.rows[key := RowOf(columns, fields)])))
        .(cache := s.cache[key.table := columns])
  }

  function Execute(p: Plan, s: State, i: Instr, answered: bool): Outcome {
    match i
    case Halt(guard) => if Open(s.disk.tables, guard) then Stuck(s) else Done(s, s.disk)
    case Refresh(c, guard, _) => DoRefresh(p, s, c, guard, answered)
    case SaveToken(contract, row) => DoToken(p, s, contract, row, answered)
    case SaveReceipt(r) => DoReceipt(s, r)
    case InsertOp(key, fields) => DoInsert(s, key, fields)
    case EndBlock(num) => Done(s, if num % 100 == 0 then s.disk.(checkpoint := num) else s.disk)
    case SaveAccount(_, _) =>
      if Refused(s.disk.tables, i) then Stuck(s) else Done(s, s.disk.(tables := Effect(s.disk.tables, i)))
    case _ => Done(s, s.disk.(tables := Effect(s.disk.tables, i)))
  }

  /** One substep of the instruction at the cursor; after the last one of a block the cursor
      moves to the next block. */
  function RunInstr(p: Plan, s: State, answered: bool): State
    requires s.todo != []
  {
    var o := Execute(p, s, s.todo[0], answered);
    State(o.disk, s.head,
          if o.done && |s.todo| == 1 then s.cursor + 1 else s.cursor,
          if o.done then s.todo[1..] else s.todo,
          o.answer, o.saving, o.cache, s.soft,
          if o.effect then Reached(p, s) else s.hwm,
          s.torn)
  }

  /** Restart: everything volatile is lost and the scan resumes after the checkpoint. */
  function Restart(s: State): State {
    var hit := if s.saving.Some? && s.todo != [] && s.todo[0].SaveReceipt? then {KeyOf(s.todo[0].receipt)} else {};
    s.(cursor := s.disk.checkpoint + 1, todo := [], answer := Nothing, saving := None, cache := map[],
       torn := s.torn + hit)
  }

  /** GetBlock: the block at the cursor, if the node has it. */
  function Fetch(p: Plan, s: State): State {
    if 1 <= s.cursor <= s.head && s.cursor <= p.Length() then s.(todo := p.Script(s.cursor)) else s
  }

  /** Between two blocks (the code does it when the node has no next one) the checkpoint is
      moved up to the cursor. */
  function MarkScanned(s: State): State {
    if s.cursor >= 1 then s.(disk := s.disk.(checkpoint := s.cursor - 1)) else s
  }

  /** What an error that is only logged may skip, and where the loops then go on: at the end
      of the block, or, with the block's transactions kept, not in the middle of an operation. */
  predicate Droppable(dropped: seq<Instr>, next: Instr) {
    && (forall i :: 0 <= i < |dropped| ==> !dropped[i].SaveBlock? && !dropped[i].BackFill?)
    && (next.EndBlock? || (!next.InsertOp? && !next.SaveOp? && forall i :: 0 <= i < |dropped| ==> !dropped[i].SaveTx?))
  }

  /** Such an error drops the next count instructions, never one in the middle of saving a
      receipt. */
  function Drop(p: Plan, s: State, count: nat): State {
    if 0 < count < |s.todo| && s.saving.None? && Droppable(s.todo[..count], s.todo[count])
    then s.(todo := s.todo[count..], answer := Nothing, soft := true, hwm := Max(Position(p, s) + count, s.hwm))
    else s
  }

  function Step(p: Plan, s: State, a: Act): State {
    match a
    case NodeAdvance => if s.head < p.Length() then s.(head := s.head + 1) else s
    case Crash => Restart(s)
    case Poll => if s.todo == [] then Fetch(p, s) else s
    case Mark => if s.todo == [] then MarkScanned(s) else s
    case Tick(answered) => if s.todo == [] then s else RunInstr(p, s, answered)
    case Skip(count) => Drop(p, s, count)
  }

  /** The state after a run. */
  function After(p: Plan, acts: seq<Act>): State {
    if acts == [] then INIT
    else Step(p, After(p, acts[..|acts| - 1]), acts[|acts| - 1])
  }

  /** Crashes only: no error was merely logged. */
  predicate FailStop(acts: seq<Act>) {
    forall i :: 0 <= i < |acts| ==> !acts[i].Skip?
  }

  lemma AfterStep(p: Plan, acts: seq<Act>, a: Act)
    ensures After(p, acts + [a]) == Step(p, After(p, acts), a)
  {
    assert (acts + [a])[..|acts|] == acts;
  }

  // ---- what a substep can do to the tables ----

  lemma EffectTables(p: Plan, s: State, i: Instr, answered: bool)
    requires !i.InsertOp?
    ensures var e := Execute(p, s, i, answered).disk.tables; e == s.disk.tables || e == Effect(s.disk.tables, i)
    ensures i.SaveTx? || i.SaveBlock? || i.SaveOp? ==>
              Execute(p, s, i, answered).disk.tables == Effect(s.disk.tables, i)
  {
    match i
    case Refresh(c, guard, _) => assert DoRefresh(p, s, c, guard, answered).disk.tables == s.disk.tables;
    case SaveToken(contract, row) => TokenTables(p, s, contract, row, answered);
    case SaveReceipt(r) => ReceiptTables(s, r);
    case _ =>
  }

  lemma TokenTables(p: Plan, s: State, contract: string, row: TokenRow, answered: bool)
    ensures var e := DoToken(p, s, contract, row, answered).disk.tables;
            e == s.disk.tables || e == Effect(s.disk.tables, SaveToken(contract, row))
  {
  }

  lemma ReceiptTables(s: State, r: Receipt)
    ensures var e := DoReceipt(s, r).disk.tables; e == s.disk.tables || e == Effect(s.disk.tables, SaveReceipt(r))
  {
  }

  /** A dynamic insert adds a row for its key, or leaves everything as it is. */
  lemma InsertTables(p: Plan, s: State, i: Instr, answered: bool)
    requires i.InsertOp?
    ensures var d, e := s.disk.tables, Execute(p, s, i, answered).disk.tables;
            e == d.(rows := e.rows) && d.rows.Keys <= e.rows.Keys <= d.rows.Keys + {i.key}
    ensures Execute(p, s, i, answered).done ==> i.key in Execute(p, s, i, answered).disk.tables.rows
  {
    assert Execute(p, s, i, answered) == DoInsert(s, i.key, i.fields);
    var d := s.disk.tables;
    if i.key !in d.rows && i.key.table in d.schemas {
      var columns := if i.key.table in s.cache then s.cache[i.key.table] else d.schemas[i.key.table];
      PutKeys(d.rows, i.key, RowOf(columns, i.fields));
      InsertDone(s, i.key, i.fields, columns);
    }
  }

  lemma PutKeys<K, V>(m: map<K, V>, k: K, v: V)
    ensures m.Keys <= m[k := v].Keys <= m.Keys + {k}
  {
  }

  lemma InsertDone(s: State, key: OpKey, fields: Fields, columns: set<string>)
    requires key !in s.disk.tables.rows && key.table in s.disk.tables.schemas
    requires columns == if key.table in s.cache then s.cache[key.table] else s.disk.tables.schemas[key.table]
    ensures DoInsert(s, key, fields).disk.tables
              == s.disk.tables.(rows := s.disk.tables.rows[key := RowOf(columns, fields)])
  {
  }
}
