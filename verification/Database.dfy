/** The database: one table per entity, the operation tables with their live schemas, and the
    event rows. It offers finds, saves and updates; nothing spans two of them. */
module Databases {
  import opened Wrappers
  import opened Numerals
  import opened Json
  import opened Chain
  import opened Tables
  import opened RowTables
  import opened DynamicInsert

  /** A token_contract row; the total supply is a nullable column. */
  datatype TokenRecord = TokenRecord(row: TokenRow, supply: Option<int>)

  const CHECKPOINT_KEY := "last_scanned_block_number"

  /** The (trxid, index_in_tx) columns of a tbl_* row. */
  function LabelOf(table: string, row: SqlRow): OpKey {
    OpKey(table,
          if "trxid" in row && row["trxid"].SqlText? then row["trxid"].s else "",
          if "index_in_tx" in row && row["index_in_tx"].SqlInt? && row["index_in_tx"].n >= 0
          then row["index_in_tx"].n else 0)
  }

  predicate Labelled(row: SqlRow, txid: string, index: nat) {
    && "trxid" in row && row["trxid"] == SqlText(txid)
    && "index_in_tx" in row && row["index_in_tx"] == SqlInt(index)
  }

  /** The checkpoint as the next start reads it: "0" if it was never written. */
  function CheckpointIn(configs: map<string, string>): Option<nat> {
    CheckpointOf(if CHECKPOINT_KEY in configs then configs[CHECKPOINT_KEY] else "0")
  }

  function At<K(==), V>(m: map<K, V>, k: K): Option<V> {
    if k in m then Some(m[k]) else None
  }

  /** Where each mirrored number is stored. */
  function StoredNumber(balances: map<Cell, int>, tokenBalances: map<Cell, int>, tokens: map<string, TokenRecord>,
                        c: Cell): Option<int> {
    match c
    case AddressCell(_, _) => At(balances, c)
    case TokenCell(_, _) => At(tokenBalances, c)
    case SupplyCell(contract) => if contract in tokens then tokens[contract].supply else None
  }

  ghost predicate LiveIs(live: map<Cell, int>, balances: map<Cell, int>, tokenBalances: map<Cell, int>,
                   tokens: map<string, TokenRecord>) {
    forall c {:trigger At(live, c)} :: At(live, c) == StoredNumber(balances, tokenBalances, tokens, c)
  }

  predicate TokensAre(rows: map<string, TokenRow>, tokens: map<string, TokenRecord>) {
    rows.Keys == tokens.Keys && forall k {:trigger rows[k]} :: k in tokens ==> rows[k] == tokens[k].row
  }

  predicate SchemasAre(sets: map<string, set<string>>, schemas: map<string, seq<string>>) {
    sets.Keys == schemas.Keys && forall t {:trigger ToSet(schemas[t])} :: t in schemas ==> sets[t] == ToSet(schemas[t])
  }

  /** Storing one balance or one supply changes one number. */
  lemma LiveAddress(live: map<Cell, int>, b: map<Cell, int>, t: map<Cell, int>, tokens: map<string, TokenRecord>,
                    c: Cell, v: int)
    requires LiveIs(live, b, t, tokens)
    ensures c.AddressCell? ==> LiveIs(live[c := v], b[c := v], t, tokens)
    ensures c.TokenCell? ==> LiveIs(live[c := v], b, t[c := v], tokens)
  {
    if c.AddressCell? {
      forall x {:trigger At(live[c := v], x)} ensures At(live[c := v], x) == StoredNumber(b[c := v], t, tokens, x) {
        assert At(live, x) == StoredNumber(b, t, tokens, x);
      }
    } else {
      forall x {:trigger At(live[c := v], x)}
        ensures c.TokenCell? ==> At(live[c := v], x) == StoredNumber(b, t[c := v], tokens, x)
      {
        assert At(live, x) == StoredNumber(b, t, tokens, x);
      }
    }
  }

  lemma LiveToken(live: map<Cell, int>, b: map<Cell, int>, t: map<Cell, int>, tokens: map<string, TokenRecord>,
                  contract: string, record: TokenRecord)
    requires LiveIs(live, b, t, tokens)
    ensures record.supply.Some? ==>
              LiveIs(live[SupplyCell(contract) := record.supply.value], b, t, tokens[contract := record])
    ensures record.supply.None? && contract !in tokens ==> LiveIs(live, b, t, tokens[contract := record])
  {
    var more := if record.supply.Some? then live[SupplyCell(contract) := record.supply.value] else live;
    forall x
      ensures record.supply.Some? || contract !in tokens ==>
                At(more, x) == StoredNumber(b, t, tokens[contract := record], x)
    {
      assert At(live, x) == StoredNumber(b, t, tokens, x);
    }
  }

  lemma TokensAfter(rows: map<string, TokenRow>, tokens: map<string, TokenRecord>, contract: string,
                    record: TokenRecord)
    requires TokensAre(rows, tokens)
    ensures TokensAre(rows[contract := record.row], tokens[contract := record])
    ensures contract in tokens && record.row == tokens[contract].row ==> TokensAre(rows, tokens[contract := record])
  {
  }

  /** The event rows written for one receipt, in order. */
  function EventsOf(rows: seq<(ReceiptKey, Event)>, k: ReceiptKey): seq<Event> {
    if rows == [] then []
    else EventsOf(rows[..|rows| - 1], k) + (if rows[|rows| - 1].0 == k then [rows[|rows| - 1].1] else [])
  }

  ghost predicate EventsAre(events: map<ReceiptKey, seq<Event>>, rows: seq<(ReceiptKey, Event)>) {
    forall k {:trigger EventsOf(rows, k)} ::
      EventsOf(rows, k) == if k in events then events[k] else []
  }

  lemma EventAppended(rows: seq<(ReceiptKey, Event)>, k: ReceiptKey, e: Event, x: ReceiptKey)
    ensures EventsOf(rows + [(k, e)], x) == EventsOf(rows, x) + if x == k then [e] else []
  {
    assert (rows + [(k, e)])[..|rows|] == rows;
  }

  /** An empty database reads as the empty disk, with checkpoint 0. */
  lemma EmptyDatabase()
    ensures CheckpointIn(map[]) == Some(0)
    ensures TokensAre(map[], map[]) && SchemasAre(map[], map[])
    ensures EventsAre(map[], []) && LiveIs(map[], map[], map[], map[])
  {
    CheckpointRoundTrip(0);
    assert Itoa(0) == "0";
  }

  predicate AllLabelled(rows: map<OpKey, SqlRow>) {
    forall k {:trigger rows[k]} :: k in rows ==> Labelled(rows[k], k.txid, k.index)
  }

  predicate SchemasLabelled(schemas: map<string, seq<string>>) {
    forall t {:trigger ToSet(schemas[t])} :: t in schemas ==> LABELS <= ToSet(schemas[t])
  }

  function WithReceipt(d: Disk, receipt: Receipt): Disk {
    d.(tables := d.tables.(receipts := d.tables.receipts[KeyOf(receipt) := receipt]),
       events := d.events[KeyOf(receipt) := []])
  }

  function WithEvent(d: Disk, key: ReceiptKey, event: Event): Disk
    requires key in d.events
  {
    d.(events := d.events[key := d.events[key] + [event]])
  }

  function WithToken(d: Disk, contract: string, record: TokenRecord): Disk {
    d.(tables := d.tables.(tokens := d.tables.tokens[contract := record.row]),
       live := if record.supply.Some? then d.live[SupplyCell(contract) := record.supply.value] else d.live)
  }

  /** The columns every operation table must have for its rows to be found again. */
  const LABELS := {"trxid", "index_in_tx"}

  /** All of it at one moment. */
  datatype Store = Store(
    blocks: Table<nat, BlockRow>,
    txs: Table<string, TxRow>,
    opRows: Table<OpKey, SqlRow>,
    operations: Table<string, OpRow>,
    receipts: Table<ReceiptKey, Receipt>,
    history: Table<ReceiptKey, HistoryRow>,
    accounts: Table<string, string>,
    tokens: Table<string, TokenRecord>,
    balances: Table<Cell, int>,
    tokenBalances: Table<Cell, int>,
    configs: Table<string, string>,
    assets: Table<string, nat>,
    schemas: map<string, seq<string>>,
    eventRows: seq<(ReceiptKey, Event)>,
    disk: Disk,
    tokenMap: map<string, TokenRecord>,
    balanceMap: map<Cell, int>,
    tokenBalanceMap: map<Cell, int>,
    configMap: map<string, string>,
    assetMap: map<string, nat>)

  /** The tokens, and the numbers that mirror the node. */
  ghost predicate NumbersCohere(tokens: Table<string, TokenRecord>, balances: Table<Cell, int>,
                                tokenBalances: Table<Cell, int>,
                                rows: map<string, TokenRow>, live: map<Cell, int>,
                                tokenMap: map<string, TokenRecord>, balanceMap: map<Cell, int>,
                                tokenBalanceMap: map<Cell, int>)
  {
    && TableIs(tokens, tokenMap) && TableIs(balances, balanceMap) && TableIs(tokenBalances, tokenBalanceMap)
    && TokensAre(rows, tokenMap) && LiveIs(live, balanceMap, tokenBalanceMap, tokenMap)
  }

  /** Storing a token contract, or its total supply. */
  lemma TokenStored(tokens: Table<string, TokenRecord>, balances: Table<Cell, int>, tokenBalances: Table<Cell, int>,
                    rows: map<string, TokenRow>, live: map<Cell, int>, tokenMap: map<string, TokenRecord>,
                    balanceMap: map<Cell, int>, tokenBalanceMap: map<Cell, int>, contract: string, record: TokenRecord)
    requires NumbersCohere(tokens, balances, tokenBalances, rows, live, tokenMap, balanceMap, tokenBalanceMap)
    ensures contract !in tokenMap ==>
              NumbersCohere(Saved(tokens, contract, record), balances, tokenBalances, rows[contract := record.row],
                            if record.supply.Some? then live[SupplyCell(contract) := record.supply.value] else live,
                            tokenMap[contract := record], balanceMap, tokenBalanceMap)
  {
    if contract !in tokenMap {
      SaveNew(tokens, tokenMap, contract, record);
      LiveToken(live, balanceMap, tokenBalanceMap, tokenMap, contract, record);
      TokensAfter(rows, tokenMap, contract, record);
    }
  }

  lemma AddressStored(tokens: Table<string, TokenRecord>, balances: Table<Cell, int>, tokenBalances: Table<Cell, int>,
                      rows: map<string, TokenRow>, live: map<Cell, int>, tokenMap: map<string, TokenRecord>,
                      balanceMap: map<Cell, int>, tokenBalanceMap: map<Cell, int>, cell: Cell, amount: int)
    requires NumbersCohere(tokens, balances, tokenBalances, rows, live, tokenMap, balanceMap, tokenBalanceMap)
    requires cell.AddressCell?
    ensures cell !in balanceMap ==>
              NumbersCohere(tokens, Saved(balances, cell, amount), tokenBalances, rows, live[cell := amount],
                            tokenMap, balanceMap[cell := amount], tokenBalanceMap)
  {
    LiveAddress(live, balanceMap, tokenBalanceMap, tokenMap, cell, amount);
    if cell !in balanceMap {
      SaveNew(balances, balanceMap, cell, amount);
    }
  }

  lemma TokenBalanceStored(tokens: Table<string, TokenRecord>, balances: Table<Cell, int>,
                           tokenBalances: Table<Cell, int>,
                           rows: map<string, TokenRow>, live: map<Cell, int>, tokenMap: map<string, TokenRecord>,
                           balanceMap: map<Cell, int>, tokenBalanceMap: map<Cell, int>, cell: Cell, amount: int)
    requires NumbersCohere(tokens, balances, tokenBalances, rows, live, tokenMap, balanceMap, tokenBalanceMap)
    requires cell.TokenCell?
    ensures cell !in tokenBalanceMap ==>
              NumbersCohere(tokens, balances, Saved(tokenBalances, cell, amount), rows, live[cell := amount],
                            tokenMap, balanceMap, tokenBalanceMap[cell := amount])
  {
    LiveAddress(live, balanceMap, tokenBalanceMap, tokenMap, cell, amount);
    if cell !in tokenBalanceMap {
      SaveNew(tokenBalances, tokenBalanceMap, cell, amount);
    }
  }

  lemma SupplyStored(tokens: Table<string, TokenRecord>, balances: Table<Cell, int>, tokenBalances: Table<Cell, int>,
                     rows: map<string, TokenRow>, live: map<Cell, int>, tokenMap: map<string, TokenRecord>,
                     balanceMap: map<Cell, int>, tokenBalanceMap: map<Cell, int>, row: Row<string, TokenRecord>,
                     supply: int)
    requires NumbersCohere(tokens, balances, tokenBalances, rows, live, tokenMap, balanceMap, tokenBalanceMap)
    requires row in tokens.rows
    ensures var record := row.value.(supply := Some(supply));
            NumbersCohere(UpdatedById(tokens, row.id, record), balances, tokenBalances, rows,
                          live[SupplyCell(row.key) := supply],
                          tokenMap[row.key := record], balanceMap, tokenBalanceMap)
  {
    var record := row.value.(supply := Some(supply));
    assert row.key in tokenMap && tokenMap[row.key] == row.value;
    UpdateById(tokens, tokenMap, row, record);
    LiveToken(live, balanceMap, tokenBalanceMap, tokenMap, row.key, record);
    TokensAfter(rows, tokenMap, row.key, record);
  }

  ghost predicate ReceiptsCohere(receipts: Table<ReceiptKey, Receipt>, eventRows: seq<(ReceiptKey, Event)>,
                                 rows: map<ReceiptKey, Receipt>, events: map<ReceiptKey, seq<Event>>)
  {
    TableIs(receipts, rows) && events.Keys == rows.Keys && EventsAre(events, eventRows)
  }

  lemma ReceiptStored(receipts: Table<ReceiptKey, Receipt>, eventRows: seq<(ReceiptKey, Event)>,
                      rows: map<ReceiptKey, Receipt>, events: map<ReceiptKey, seq<Event>>, receipt: Receipt)
    requires ReceiptsCohere(receipts, eventRows, rows, events)
    ensures KeyOf(receipt) !in rows ==>
              ReceiptsCohere(Saved(receipts, KeyOf(receipt), receipt), eventRows, rows[KeyOf(receipt) := receipt],
                             events[KeyOf(receipt) := []])
  {
    if KeyOf(receipt) !in rows {
      SaveNew(receipts, rows, KeyOf(receipt), receipt);
    }
  }

  lemma EventStored(receipts: Table<ReceiptKey, Receipt>, eventRows: seq<(ReceiptKey, Event)>,
                    rows: map<ReceiptKey, Receipt>, events: map<ReceiptKey, seq<Event>>, key: ReceiptKey, event: Event)
    requires ReceiptsCohere(receipts, eventRows, rows, events)
    ensures key in events ==>
              ReceiptsCohere(receipts, eventRows + [(key, event)], rows, events[key := events[key] + [event]])
  {
    forall x
      ensures EventsOf(eventRows + [(key, event)], x) == EventsOf(eventRows, x) + if x == key then [event] else []
    {
      EventAppended(eventRows, key, event, x);
    }
  }

  /** The operation tables: every row can be found by its labels. */
  ghost predicate OperationsCohere(opRows: Table<OpKey, SqlRow>, schemas: map<string, seq<string>>,
                                   rows: map<OpKey, SqlRow>, sets: map<string, set<string>>)
  {
    TableIs(opRows, rows) && SchemasAre(sets, schemas) && SchemasLabelled(schemas) && AllLabelled(rows)
  }

  lemma TableCreated(opRows: Table<OpKey, SqlRow>, schemas: map<string, seq<string>>,
                     rows: map<OpKey, SqlRow>, sets: map<string, set<string>>, table: string, columns: seq<string>)
    requires OperationsCohere(opRows, schemas, rows, sets) && table !in schemas && LABELS <= ToSet(columns)
    ensures OperationsCohere(opRows, schemas[table := columns], rows, sets[table := ToSet(columns)])
  {
  }

  lemma OperationStored(opRows: Table<OpKey, SqlRow>, schemas: map<string, seq<string>>,
                        rows: map<OpKey, SqlRow>, sets: map<string, set<string>>, key: OpKey, row: SqlRow)
    requires OperationsCohere(opRows, schemas, rows, sets)
    ensures key !in rows && Labelled(row, key.txid, key.index) ==>
              OperationsCohere(Saved(opRows, key, row), schemas, rows[key := row], sets)
  {
    if key !in rows {
      SaveNew(opRows, rows, key, row);
    }
  }

  ghost predicate ConfigCoheres(configs: Table<string, string>, configMap: map<string, string>, checkpoint: nat) {
    TableIs(configs, configMap) && CheckpointIn(configMap) == Some(checkpoint)
  }

  /** Inserting and updating the checkpoint's row. */
  lemma CheckpointStored(configs: Table<string, string>, m: map<string, string>, text: string, newVal: nat)
    requires TableIs(configs, m) && CheckpointOf(text) == Some(newVal)
    ensures CHECKPOINT_KEY !in m ==>
              ConfigCoheres(Saved(configs, CHECKPOINT_KEY, text), m[CHECKPOINT_KEY := text], newVal)
    ensures CHECKPOINT_KEY in m ==>
              ConfigCoheres(UpdatedByKey(configs, CHECKPOINT_KEY, text), m[CHECKPOINT_KEY := text], newVal)
  {
    if CHECKPOINT_KEY !in m {
      SaveNew(configs, m, CHECKPOINT_KEY, text);
    } else {
      UpdateByKey(configs, m, CHECKPOINT_KEY, text);
    }
  }

  /** Every table holds at most one row per logical key and shows its part of the disk. */
  ghost predicate Coherent(s: Store) {
    && TableIs(s.blocks, s.disk.tables.blocks) && TableIs(s.txs, s.disk.tables.txs)
    && TableIs(s.operations, s.disk.tables.ops) && TableIs(s.history, s.disk.tables.history)
    && TableIs(s.accounts, s.disk.tables.accounts) && TableIs(s.assets, s.assetMap)
    && OperationsCohere(s.opRows, s.schemas, s.disk.tables.rows, s.disk.tables.schemas)
    && ReceiptsCohere(s.receipts, s.eventRows, s.disk.tables.receipts, s.disk.events)
    && NumbersCohere(s.tokens, s.balances, s.tokenBalances, s.disk.tables.tokens, s.disk.live,
                     s.tokenMap, s.balanceMap, s.tokenBalanceMap)
    && ConfigCoheres(s.configs, s.configMap, s.disk.checkpoint)
  }

  /** Mentioned where the meaning of a database's coherent is needed; elsewhere it stays folded. */
  predicate Unfold(s: Store) {
    true
  }

  class Database {
    ghost const coherent: Store -> bool
    var blocks: Table<nat, BlockRow>
    var txs: Table<string, TxRow>
    var opRows: Table<OpKey, SqlRow>
    var operations: Table<string, OpRow>
    var receipts: Table<ReceiptKey, Receipt>
    var history: Table<ReceiptKey, HistoryRow>
    var accounts: Table<string, string>
    var tokens: Table<string, TokenRecord>
    var balances: Table<Cell, int>
    var tokenBalances: Table<Cell, int>
    var configs: Table<string, string>
    var assets: Table<string, nat>
    var schemas: map<string, seq<string>>
    var eventRows: seq<(ReceiptKey, Event)>
    ghost var disk: Disk
    ghost var tokenMap: map<string, TokenRecord>
    ghost var balanceMap: map<Cell, int>
    ghost var tokenBalanceMap: map<Cell, int>
    ghost var configMap: map<string, string>
    ghost var assetMap: map<string, nat>

    ghost function Snapshot(): Store
      reads this
    {
      Store(blocks, txs, opRows, operations, receipts, history, accounts, tokens, balances, tokenBalances, configs,
            assets, schemas, eventRows, disk, tokenMap, balanceMap, tokenBalanceMap, configMap, assetMap)
    }

    ghost predicate Folded() {
      forall s {:trigger Unfold(s)} :: coherent(s) <==> Coherent(s)
    }

    ghost predicate Valid()
      reads this
    {
      Folded() && coherent(Snapshot())
    }

    /** What Valid says. */
    lemma Meaning()
      requires Folded()
      ensures Valid() <==> Coherent(Snapshot())
    {
      assert Unfold(Snapshot());
    }

    /** Every operation table has the columns its rows are found by. */
    lemma Labels(table: string)
      requires Valid() && table in disk.tables.schemas
      ensures table in schemas && ToSet(schemas[table]) == disk.tables.schemas[table]
      ensures LABELS <= ToSet(schemas[table])
    {
      Meaning();
    }

    /** The empty schema. */
    constructor ()
      ensures Valid() && disk == EMPTY_DISK && assetMap == map[]
    {
      blocks, txs, opRows, operations := Table([], 0), Table([], 0), Table([], 0), Table([], 0);
      receipts, history, accounts, tokens := Table([], 0), Table([], 0), Table([], 0), Table([], 0);
      balances, tokenBalances, configs, assets := Table([], 0), Table([], 0), Table([], 0), Table([], 0);
      coherent := s => Coherent(s);
      schemas, eventRows, disk := map[], [], EMPTY_DISK;
      tokenMap, balanceMap, tokenBalanceMap, configMap, assetMap := map[], map[], map[], map[], map[];
      new;
      EmptyDatabase();
      assert Folded();
      Meaning();
    }

    // ---- blocks, transactions, operations ----

    method FindBlock(num: nat) returns (r: Option<Row<nat, BlockRow>>)
      requires Valid()
      ensures r.Some? <==> num in disk.tables.blocks
      ensures r.Some? ==> r.value in blocks.rows && r.value.key == num && r.value.value == disk.tables.blocks[num]
    {
      Meaning();
      r := FindRow(blocks, disk.tables.blocks, num);
    }

    lemma BlockSaved(s: Store, t: Store, num: nat, row: BlockRow)
      requires Folded() && coherent(s) && num !in s.disk.tables.blocks
      requires t == s.(blocks := Saved(s.blocks, num, row),
                       disk := WithBlocks(s.disk, s.disk.tables.blocks[num := row]))
      ensures coherent(t)
    {
      assert Unfold(s);
      SaveNew(s.blocks, s.disk.tables.blocks, num, row);
      assert Unfold(t);
    }

    method SaveBlock(num: nat, row: BlockRow)
      requires Valid()
      modifies this`blocks, this`disk
      ensures blocks == Saved(old(blocks), num, row)
      ensures num !in old(disk.tables.blocks) ==>
                Valid() && disk == WithBlocks(old(disk), old(disk).tables.blocks[num := row])
    {
      ghost var s := Snapshot();
      blocks := Saved(blocks, num, row);
      disk := WithBlocks(disk, disk.tables.blocks[num := row]);
      if num !in s.disk.tables.blocks {
        BlockSaved(s, Snapshot(), num, row);
      }
    }

    lemma BlockUpdated(s: Store, t: Store, row: Row<nat, BlockRow>, value: BlockRow)
      requires Folded() && coherent(s) && row in s.blocks.rows
      requires t == s.(blocks := UpdatedByKey(s.blocks, row.key, value),
                       disk := WithBlocks(s.disk, s.disk.tables.blocks[row.key := value]))
      ensures coherent(t)
    {
      assert Unfold(s);
      UpdateByKey(s.blocks, s.disk.tables.blocks, row.key, value);
      assert Unfold(t);
    }

    /** UPDATE public.blocks SET block_id WHERE number, of a block read before. */
    method UpdateBlockHash(row: Row<nat, BlockRow>, hash: string)
      requires Valid() && row in blocks.rows
      modifies this`blocks, this`disk
      ensures Valid()
      ensures disk == WithBlocks(old(disk), old(disk).tables.blocks[row.key := row.value.(blockId := hash)])
    {
      ghost var s := Snapshot();
      var value := row.value.(blockId := hash);
      blocks := UpdatedByKey(blocks, row.key, value);
      disk := WithBlocks(disk, disk.tables.blocks[row.key := value]);
      BlockUpdated(s, Snapshot(), row, value);
    }

    method FindTransaction(txid: string) returns (r: Option<Row<string, TxRow>>)
      requires Valid()
      ensures r.Some? <==> txid in disk.tables.txs
      ensures r.Some? ==> r.value in txs.rows && r.value.key == txid && r.value.value == disk.tables.txs[txid]
    {
      Meaning();
      r := FindRow(txs, disk.tables.txs, txid);
    }

    lemma TransactionSaved(s: Store, t: Store, txid: string, row: TxRow)
      requires Folded() && coherent(s) && txid !in s.disk.tables.txs
      requires t == s.(txs := Saved(s.txs, txid, row), disk := WithTxs(s.disk, s.disk.tables.txs[txid := row]))
      ensures coherent(t)
    {
      assert Unfold(s);
      SaveNew(s.txs, s.disk.tables.txs, txid, row);
      assert Unfold(t);
    }

    method SaveTransaction(txid: string, row: TxRow)
      requires Valid()
      modifies this`txs, this`disk
      ensures txs == Saved(old(txs), txid, row)
      ensures txid !in old(disk.tables.txs) ==> Valid() && disk == WithTxs(old(disk), old(disk).tables.txs[txid := row])
    {
      ghost var s := Snapshot();
      txs := Saved(txs, txid, row);
      disk := WithTxs(disk, disk.tables.txs[txid := row]);
      if txid !in s.disk.tables.txs {
        TransactionSaved(s, Snapshot(), txid, row);
      }
    }

    method FindBaseOperation(id: string) returns (r: Option<Row<string, OpRow>>)
      requires Valid()
      ensures r.Some? <==> id in disk.tables.ops
      ensures r.Some? ==> r.value in operations.rows && r.value.key == id && r.value.value == disk.tables.ops[id]
    {
      Meaning();
      r := FindRow(operations, disk.tables.ops, id);
    }

    lemma BaseOperationSaved(s: Store, t: Store, id: string, row: OpRow)
      requires Folded() && coherent(s) && id !in s.disk.tables.ops
      requires t == s.(operations := Saved(s.operations, id, row),
                       disk := WithOps(s.disk, s.disk.tables.ops[id := row]))
      ensures coherent(t)
    {
      assert Unfold(s);
      SaveNew(s.operations, s.disk.tables.ops, id, row);
      assert Unfold(t);
    }

    method SaveBaseOperation(id: string, row: OpRow)
      requires Valid()
      modifies this`operations, this`disk
      ensures operations == Saved(old(operations), id, row)
      ensures id !in old(disk.tables.ops) ==> Valid() && disk == WithOps(old(disk), old(disk).tables.ops[id := row])
    {
      ghost var s := Snapshot();
      operations := Saved(operations, id, row);
      disk := WithOps(disk, disk.tables.ops[id := row]);
      if id !in s.disk.tables.ops {
        BaseOperationSaved(s, Snapshot(), id, row);
      }
    }

    // ---- operation tables ----

    lemma SchemaNames(table: string)
      requires Valid()
      ensures table in schemas <==> table in disk.tables.schemas
    {
      Meaning();
    }

    method CheckTableExist(table: string) returns (found: bool)
      requires Valid()
      ensures found <==> table in schemas
      ensures found <==> table in disk.tables.schemas
    {
      Meaning();
      found := table in schemas;
    }

    lemma SchemaSaved(s: Store, t: Store, table: string, columns: seq<string>)
      requires Folded() && coherent(s) && table !in s.schemas && LABELS <= ToSet(columns)
      requires t == s.(schemas := s.schemas[table := columns],
                       disk := WithSchemas(s.disk, s.disk.tables.schemas[table := ToSet(columns)]))
      ensures coherent(t)
    {
      assert Unfold(s);
      TableCreated(s.opRows, s.schemas, s.disk.tables.rows, s.disk.tables.schemas, table, columns);
      assert Unfold(t);
    }

    /** CREATE TABLE fails if the table exists. */
    method CreateTable(table: string, columns: seq<string>) returns (created: bool)
      requires Valid()
      modifies this`schemas, this`disk
      ensures created <==> table !in old(disk).tables.schemas
      ensures !created ==> schemas == old(schemas) && disk == old(disk)
      ensures created ==> schemas == old(schemas)[table := columns]
      ensures created ==> disk == WithSchemas(old(disk), old(disk).tables.schemas[table := ToSet(columns)])
      ensures created && LABELS <= ToSet(columns) ==> Valid()
    {
      ghost var s := Snapshot();
      created := table !in schemas;
      SchemaNames(table);
      if created {
        schemas := schemas[table := columns];
        disk := WithSchemas(disk, disk.tables.schemas[table := ToSet(columns)]);
        if LABELS <= ToSet(columns) {
          SchemaSaved(s, Snapshot(), table, columns);
        }
      }
    }

    /** GetTableSchema: no columns if there is no such table. */
    method GetTableSchema(table: string) returns (columns: seq<string>)
      requires Valid()
      ensures table in disk.tables.schemas ==> table in schemas && columns == schemas[table]
      ensures table in disk.tables.schemas ==> ToSet(columns) == disk.tables.schemas[table]
    {
      Meaning();
      columns := if table in schemas then schemas[table] else [];
    }

    /** CheckOperationExist: SELECT ... WHERE trxid AND index_in_tx. */
    method CheckOperationExist(table: string, txid: string, index: nat) returns (found: bool)
      requires Valid()
      ensures found <==> OpKey(table, txid, index) in disk.tables.rows
    {
      Meaning();
      var rows := opRows.rows;
      for i := 0 to |rows|
        invariant forall j :: 0 <= j < i ==> rows[j].key != OpKey(table, txid, index)
      {
        assert disk.tables.rows[rows[i].key] == rows[i].value;
        if rows[i].key.table == table && rows[i].value["trxid"] == SqlText(txid)
            && rows[i].value["index_in_tx"] == SqlInt(index) {
          return true;
        }
      }
      assert !Holds(rows, OpKey(table, txid, index));
      return false;
    }

    lemma OperationSaved(s: Store, t: Store, key: OpKey, row: SqlRow)
      requires Folded() && coherent(s) && key !in s.disk.tables.rows && Labelled(row, key.txid, key.index)
      requires t == s.(opRows := Saved(s.opRows, key, row), disk := WithRows(s.disk, s.disk.tables.rows[key := row]))
      ensures coherent(t)
    {
      assert Unfold(s);
      OperationStored(s.opRows, s.schemas, s.disk.tables.rows, s.disk.tables.schemas, key, row);
      assert Unfold(t);
    }

    /** InsertDynamicOperation: whatever the iteration order, one row holding the operation's
        JSON restricted to the columns. */
    method InsertDynamicOperation(table: string, columns: seq<string>, fields: Fields)
      requires Valid()
      modifies this`opRows, this`disk
      ensures var row := RowOf(ToSet(columns), fields);
              && opRows == Saved(old(opRows), LabelOf(table, row), row)
              && (LabelOf(table, row) !in old(disk).tables.rows
                  && Labelled(row, LabelOf(table, row).txid, LabelOf(table, row).index) ==>
                    Valid() && disk == WithRows(old(disk), old(disk).tables.rows[LabelOf(table, row) := row]))
    {
      ghost var s := Snapshot();
      var st := BuildInsert(columns, fields);
      var row := Denotes(st);
      var key := LabelOf(table, row);
      opRows := Saved(opRows, key, row);
      disk := WithRows(disk, disk.tables.rows[key := row]);
      if key !in s.disk.tables.rows && Labelled(row, key.txid, key.index) {
        OperationSaved(s, Snapshot(), key, row);
      }
    }

    // ---- receipts and their events ----

    method FindContractOpReceipt(key: ReceiptKey) returns (r: Option<Row<ReceiptKey, Receipt>>)
      requires Valid()
      ensures r.Some? <==> key in disk.tables.receipts
      ensures r.Some? ==> r.value in receipts.rows && r.value.key == key && r.value.value == disk.tables.receipts[key]
    {
      Meaning();
      r := FindRow(receipts, disk.tables.receipts, key);
    }

    lemma ReceiptRowSaved(s: Store, t: Store, receipt: Receipt)
      requires Folded() && coherent(s) && KeyOf(receipt) !in s.disk.tables.receipts
      requires t == s.(receipts := Saved(s.receipts, KeyOf(receipt), receipt), disk := WithReceipt(s.disk, receipt))
      ensures coherent(t)
    {
      assert Unfold(s);
      ReceiptStored(s.receipts, s.eventRows, s.disk.tables.receipts, s.disk.events, receipt);
      assert Unfold(t);
    }

    /** The first INSERT of SaveContractOpReceipt. */
    method SaveReceiptRow(receipt: Receipt)
      requires Valid()
      modifies this`receipts, this`disk
      ensures receipts == Saved(old(receipts), KeyOf(receipt), receipt)
      ensures KeyOf(receipt) !in old(disk).tables.receipts ==> Valid() && disk == WithReceipt(old(disk), receipt)
    {
      ghost var s := Snapshot();
      receipts := Saved(receipts, KeyOf(receipt), receipt);
      disk := WithReceipt(disk, receipt);
      if KeyOf(receipt) !in s.disk.tables.receipts {
        ReceiptRowSaved(s, Snapshot(), receipt);
      }
    }

    lemma EventRowSaved(s: Store, t: Store, key: ReceiptKey, event: Event)
      requires Folded() && coherent(s) && key in s.disk.events
      requires t == s.(eventRows := s.eventRows + [(key, event)], disk := WithEvent(s.disk, key, event))
      ensures coherent(t)
    {
      assert Unfold(s);
      EventStored(s.receipts, s.eventRows, s.disk.tables.receipts, s.disk.events, key, event);
      assert Unfold(t);
    }

    /** One of the INSERTs of its events. */
    method SaveEventRow(key: ReceiptKey, event: Event)
      requires Valid()
      modifies this`eventRows, this`disk
      ensures eventRows == old(eventRows) + [(key, event)]
      ensures key in old(disk).events ==> Valid() && disk == WithEvent(old(disk), key, event)
    {
      ghost var s := Snapshot();
      eventRows := eventRows + [(key, event)];
      if key in disk.events {
        disk := WithEvent(disk, key, event);
        EventRowSaved(s, Snapshot(), key, event);
      }
    }

    // ---- accounts, history, tokens ----

    method FindAccount(payer: string) returns (r: Option<Row<string, string>>)
      requires Valid()
      ensures r.Some? <==> payer in disk.tables.accounts
      ensures r.Some? ==>
                r.value in accounts.rows && r.value.key == payer && r.value.value == disk.tables.accounts[payer]
    {
      Meaning();
      r := FindRow(accounts, disk.tables.accounts, payer);
    }

    lemma AccountSaved(s: Store, t: Store, payer: string, name: string)
      requires Folded() && coherent(s) && payer !in s.disk.tables.accounts
      requires t == s.(accounts := Saved(s.accounts, payer, name),
                       disk := WithAccounts(s.disk, s.disk.tables.accounts[payer := name]))
      ensures coherent(t)
    {
      assert Unfold(s);
      SaveNew(s.accounts, s.disk.tables.accounts, payer, name);
      assert Unfold(t);
    }

    /** An INSERT fails, and changes nothing, if a value does not fit its column. */
    method SaveAccount(payer: string, name: string) returns (ok: bool)
      requires Valid()
      modifies this`accounts, this`disk
      ensures ok <==> AccountFits(payer, name)
      ensures !ok ==> accounts == old(accounts) && disk == old(disk)
      ensures ok ==> accounts == Saved(old(accounts), payer, name)
      ensures ok && payer !in old(disk.tables.accounts) ==>
                Valid() && disk == WithAccounts(old(disk), old(disk).tables.accounts[payer := name])
    {
      ok := AccountFits(payer, name);
      if !ok {
        return;
      }
      ghost var s := Snapshot();
      accounts := Saved(accounts, payer, name);
      disk := WithAccounts(disk, disk.tables.accounts[payer := name]);
      if payer !in s.disk.tables.accounts {
        AccountSaved(s, Snapshot(), payer, name);
      }
    }

    method FindHistory(key: ReceiptKey) returns (r: Option<Row<ReceiptKey, HistoryRow>>)
      requires Valid()
      ensures r.Some? <==> key in disk.tables.history
      ensures r.Some? ==> r.value in history.rows && r.value.key == key && r.value.value == disk.tables.history[key]
    {
      Meaning();
      r := FindRow(history, disk.tables.history, key);
    }

    lemma HistorySaved(s: Store, t: Store, key: ReceiptKey, row: HistoryRow)
      requires Folded() && coherent(s) && key !in s.disk.tables.history
      requires t == s.(history := Saved(s.history, key, row),
                       disk := WithHistory(s.disk, s.disk.tables.history[key := row]))
      ensures coherent(t)
    {
      assert Unfold(s);
      SaveNew(s.history, s.disk.tables.history, key, row);
      assert Unfold(t);
    }

    method SaveHistory(key: ReceiptKey, row: HistoryRow) returns (ok: bool)
      requires Valid()
      modifies this`history, this`disk
      ensures ok <==> HistoryFits(key, row)
      ensures !ok ==> history == old(history) && disk == old(disk)
      ensures ok ==> history == Saved(old(history), key, row)
      ensures ok && key !in old(disk.tables.history) ==>
                Valid() && disk == WithHistory(old(disk), old(disk).tables.history[key := row])
    {
      ok := HistoryFits(key, row);
      if !ok {
        return;
      }
      ghost var s := Snapshot();
      history := Saved(history, key, row);
      disk := WithHistory(disk, disk.tables.history[key := row]);
      if key !in s.disk.tables.history {
        HistorySaved(s, Snapshot(), key, row);
      }
    }

    method FindTokenContract(contract: string) returns (r: Option<Row<string, TokenRecord>>)
      requires Valid()
      ensures r.Some? <==> contract in tokenMap
      ensures r.Some? <==> contract in disk.tables.tokens
      ensures r.Some? ==> r.value in tokens.rows && r.value.key == contract && r.value.value == tokenMap[contract]
    {
      Meaning();
      r := FindRow(tokens, tokenMap, contract);
    }

    lemma TokenSaved(s: Store, t: Store, contract: string, record: TokenRecord)
      requires Folded() && coherent(s) && contract !in s.disk.tables.tokens
      requires t == s.(tokens := Saved(s.tokens, contract, record), tokenMap := s.tokenMap[contract := record],
                       disk := WithToken(s.disk, contract, record))
      ensures coherent(t)
    {
      assert Unfold(s);
      TokenStored(s.tokens, s.balances, s.tokenBalances, s.disk.tables.tokens, s.disk.live, s.tokenMap, s.balanceMap,
                  s.tokenBalanceMap, contract, record);
      assert Unfold(t);
    }

    method SaveTokenContract(contract: string, record: TokenRecord) returns (ok: bool)
      requires Valid()
      modifies this`tokens, this`disk, this`tokenMap
      ensures ok <==> TokenFits(contract, record.row)
      ensures !ok ==> tokens == old(tokens) && disk == old(disk) && tokenMap == old(tokenMap)
      ensures ok ==> tokens == Saved(old(tokens), contract, record)
      ensures ok && contract !in old(disk).tables.tokens ==> Valid() && disk == WithToken(old(disk), contract, record)
    {
      ok := TokenFits(contract, record.row);
      if !ok {
        return;
      }
      ghost var s := Snapshot();
      tokens, tokenMap := Saved(tokens, contract, record), tokenMap[contract := record];
      disk := WithToken(disk, contract, record);
      if contract !in s.disk.tables.tokens {
        TokenSaved(s, Snapshot(), contract, record);
      }
    }

    lemma SupplySaved(s: Store, t: Store, row: Row<string, TokenRecord>, supply: int)
      requires Folded() && coherent(s) && row in s.tokens.rows
      requires var record := row.value.(supply := Some(supply));
               t == s.(tokens := UpdatedById(s.tokens, row.id, record), tokenMap := s.tokenMap[row.key := record],
                       disk := WithLive(s.disk, SupplyCell(row.key), supply))
      ensures coherent(t)
    {
      assert Unfold(s);
      SupplyStored(s.tokens, s.balances, s.tokenBalances, s.disk.tables.tokens, s.disk.live, s.tokenMap, s.balanceMap,
                   s.tokenBalanceMap, row, supply);
      assert Unfold(t);
    }

    /** UpdateTokenContract, of a row read before. */
    method UpdateTokenContract(row: Row<string, TokenRecord>, supply: int)
      requires Valid() && row in tokens.rows
      modifies this`tokens, this`disk, this`tokenMap
      ensures Valid() && disk == WithLive(old(disk), SupplyCell(row.key), supply)
    {
      var record := row.value.(supply := Some(supply));
      ghost var s := Snapshot();
      tokens, tokenMap := UpdatedById(tokens, row.id, record), tokenMap[row.key := record];
      disk := WithLive(disk, SupplyCell(row.key), supply);
      SupplySaved(s, Snapshot(), row, supply);
    }

    // ---- balances ----

    method FindAddressBalance(cell: Cell) returns (r: Option<Row<Cell, int>>)
      requires Valid()
      ensures r.Some? <==> cell in balanceMap
      ensures r.Some? ==> r.value in balances.rows && r.value.key == cell && r.value.value == balanceMap[cell]
    {
      Meaning();
      r := FindRow(balances, balanceMap, cell);
    }

    lemma AddressBalanceSaved(s: Store, t: Store, cell: Cell, amount: int)
      requires Folded() && coherent(s) && cell.AddressCell? && cell !in s.balanceMap
      requires t == s.(balances := Saved(s.balances, cell, amount), balanceMap := s.balanceMap[cell := amount],
                       disk := WithLive(s.disk, cell, amount))
      ensures coherent(t)
    {
      assert Unfold(s);
      AddressStored(s.tokens, s.balances, s.tokenBalances, s.disk.tables.tokens, s.disk.live, s.tokenMap, s.balanceMap,
                    s.tokenBalanceMap, cell, amount);
      assert Unfold(t);
    }

    lemma AddressBalanceUpdated(s: Store, t: Store, row: Row<Cell, int>, amount: int)
      requires Folded() && coherent(s) && row in s.balances.rows && row.key.AddressCell?
      requires t == s.(balances := UpdatedById(s.balances, row.id, amount),
                       balanceMap := s.balanceMap[row.key := amount],
                       disk := WithLive(s.disk, row.key, amount))
      ensures coherent(t)
    {
      assert Unfold(s);
      UpdateById(s.balances, s.balanceMap, row, amount);
      LiveAddress(s.disk.live, s.balanceMap, s.tokenBalanceMap, s.tokenMap, row.key, amount);
      assert Unfold(t);
    }

    method SaveAddressBalance(cell: Cell, amount: int) returns (ok: bool)
      requires Valid() && cell.AddressCell?
      modifies this`balances, this`disk, this`balanceMap
      ensures ok <==> NumberFits(cell, amount)
      ensures !ok ==> balances == old(balances) && disk == old(disk) && balanceMap == old(balanceMap)
      ensures ok ==> balances == Saved(old(balances), cell, amount)
      ensures ok && cell !in old(balanceMap) ==> Valid() && disk == WithLive(old(disk), cell, amount)
    {
      ok := NumberFits(cell, amount);
      if !ok {
        return;
      }
      ghost var s := Snapshot();
      balances, balanceMap := Saved(balances, cell, amount), balanceMap[cell := amount];
      disk := WithLive(disk, cell, amount);
      if cell !in s.balanceMap {
        AddressBalanceSaved(s, Snapshot(), cell, amount);
      }
    }

    method UpdateAddressBalance(row: Row<Cell, int>, amount: int) returns (ok: bool)
      requires Valid() && row in balances.rows && row.key.AddressCell?
      modifies this`balances, this`disk, this`balanceMap
      ensures Valid() && (ok <==> NumberFits(row.key, amount))
      ensures disk == if ok then WithLive(old(disk), row.key, amount) else old(disk)
      ensures !ok ==> balances == old(balances) && balanceMap == old(balanceMap)
    {
      ok := NumberFits(row.key, amount);
      if !ok {
        return;
      }
      ghost var s := Snapshot();
      balances, balanceMap := UpdatedById(balances, row.id, amount), balanceMap[row.key := amount];
      disk := WithLive(disk, row.key, amount);
      AddressBalanceUpdated(s, Snapshot(), row, amount);
    }

    method FindTokenBalance(cell: Cell) returns (r: Option<Row<Cell, int>>)
      requires Valid()
      ensures r.Some? <==> cell in tokenBalanceMap
      ensures r.Some? ==> r.value in tokenBalances.rows && r.value.key == cell && r.value.value == tokenBalanceMap[cell]
    {
      Meaning();
      r := FindRow(tokenBalances, tokenBalanceMap, cell);
    }

    lemma TokenBalanceSaved(s: Store, t: Store, cell: Cell, amount: int)
      requires Folded() && coherent(s) && cell.TokenCell? && cell !in s.tokenBalanceMap
      requires t == s.(tokenBalances := Saved(s.tokenBalances, cell, amount),
                       tokenBalanceMap := s.tokenBalanceMap[cell := amount],
                       disk := WithLive(s.disk, cell, amount))
      ensures coherent(t)
    {
      assert Unfold(s);
      TokenBalanceStored(s.tokens, s.balances, s.tokenBalances, s.disk.tables.tokens, s.disk.live, s.tokenMap,
                         s.balanceMap, s.tokenBalanceMap, cell, amount);
      assert Unfold(t);
    }

    lemma TokenBalanceUpdated(s: Store, t: Store, row: Row<Cell, int>, amount: int)
      requires Folded() && coherent(s) && row in s.tokenBalances.rows && row.key.TokenCell?
      requires t == s.(tokenBalances := UpdatedById(s.tokenBalances, row.id, amount),
                       tokenBalanceMap := s.tokenBalanceMap[row.key := amount],
                       disk := WithLive(s.disk, row.key, amount))
      ensures coherent(t)
    {
      assert Unfold(s);
      UpdateById(s.tokenBalances, s.tokenBalanceMap, row, amount);
      LiveAddress(s.disk.live, s.balanceMap, s.tokenBalanceMap, s.tokenMap, row.key, amount);
      assert Unfold(t);
    }

    method SaveTokenBalance(cell: Cell, amount: int) returns (ok: bool)
      requires Valid() && cell.TokenCell?
      modifies this`tokenBalances, this`disk, this`tokenBalanceMap
      ensures ok <==> NumberFits(cell, amount)
      ensures !ok ==>
                tokenBalances == old(tokenBalances) && disk == old(disk) && tokenBalanceMap == old(tokenBalanceMap)
      ensures ok ==> tokenBalances == Saved(old(tokenBalances), cell, amount)
      ensures ok && cell !in old(tokenBalanceMap) ==> Valid() && disk == WithLive(old(disk), cell, amount)
    {
      ok := NumberFits(cell, amount);
      if !ok {
        return;
      }
      ghost var s := Snapshot();
      tokenBalances, tokenBalanceMap := Saved(tokenBalances, cell, amount), tokenBalanceMap[cell := amount];
      disk := WithLive(disk, cell, amount);
      if cell !in s.tokenBalanceMap {
        TokenBalanceSaved(s, Snapshot(), cell, amount);
      }
    }

    method UpdateTokenBalance(row: Row<Cell, int>, amount: int) returns (ok: bool)
      requires Valid() && row in tokenBalances.rows && row.key.TokenCell?
      modifies this`tokenBalances, this`disk, this`tokenBalanceMap
      ensures Valid() && (ok <==> NumberFits(row.key, amount))
      ensures disk == if ok then WithLive(old(disk), row.key, amount) else old(disk)
      ensures !ok ==> tokenBalances == old(tokenBalances) && tokenBalanceMap == old(tokenBalanceMap)
    {
      ok := NumberFits(row.key, amount);
      if !ok {
        return;
      }
      ghost var s := Snapshot();
      tokenBalances, tokenBalanceMap := UpdatedById(tokenBalances, row.id, amount), tokenBalanceMap[row.key := amount];
      disk := WithLive(disk, row.key, amount);
      TokenBalanceUpdated(s, Snapshot(), row, amount);
    }

    method FindAsset(id: string) returns (r: Option<Row<string, nat>>)
      requires Valid()
      ensures r.Some? <==> id in assetMap
      ensures r.Some? ==> r.value in assets.rows && r.value.key == id && r.value.value == assetMap[id]
    {
      Meaning();
      r := FindRow(assets, assetMap, id);
    }

    lemma AssetSaved(s: Store, t: Store, id: string, precision: nat)
      requires Folded() && coherent(s) && id !in s.assetMap
      requires t == s.(assets := Saved(s.assets, id, precision), assetMap := s.assetMap[id := precision])
      ensures coherent(t)
    {
      assert Unfold(s);
      SaveNew(s.assets, s.assetMap, id, precision);
      assert Unfold(t);
    }

    method SaveAsset(id: string, precision: nat)
      requires Valid()
      modifies this`assets, this`assetMap
      ensures assets == Saved(old(assets), id, precision) && assetMap == old(assetMap)[id := precision]
      ensures id !in old(assetMap) ==> Valid()
    {
      ghost var s := Snapshot();
      assets, assetMap := Saved(assets, id, precision), assetMap[id := precision];
      if id !in s.assetMap {
        AssetSaved(s, Snapshot(), id, precision);
      }
    }

    // ---- the checkpoint ----

    method FindScanConfig(key: string) returns (r: Option<Row<string, string>>)
      requires Valid()
      ensures r.Some? <==> key in configMap
      ensures r.Some? ==> r.value in configs.rows && r.value.key == key && r.value.value == configMap[key]
    {
      Meaning();
      r := FindRow(configs, configMap, key);
    }

    method SaveConfig(value: string, ghost newVal: nat)
      requires Valid() && CheckpointOf(value) == Some(newVal)
      modifies this`configs, this`disk, this`configMap
      ensures configs == Saved(old(configs), CHECKPOINT_KEY, value)
      ensures CHECKPOINT_KEY !in old(configMap) ==> Valid() && disk == old(disk).(checkpoint := newVal)
    {
      Meaning();
      CheckpointStored(configs, configMap, value, newVal);
      configs, configMap := Saved(configs, CHECKPOINT_KEY, value), configMap[CHECKPOINT_KEY := value];
      disk := disk.(checkpoint := newVal);
      Meaning();
    }

    method UpdateConfig(value: string, ghost newVal: nat)
      requires Valid() && CHECKPOINT_KEY in configMap && CheckpointOf(value) == Some(newVal)
      modifies this`configs, this`disk, this`configMap
      ensures Valid() && disk == old(disk).(checkpoint := newVal)
    {
      Meaning();
      CheckpointStored(configs, configMap, value, newVal);
      configs, configMap := UpdatedByKey(configs, CHECKPOINT_KEY, value), configMap[CHECKPOINT_KEY := value];
      disk := disk.(checkpoint := newVal);
      Meaning();
    }

    /** UpdateLastScannedBlockNumber: insert, skip if equal, or update. Read back, the value is
        the one written, for every block number a uint32 holds. */
    method UpdateLastScannedBlockNumber(newVal: nat)
      requires Valid() && newVal < UINT32_RANGE
      modifies this`configs, this`disk, this`configMap
      ensures Valid() && disk == old(disk).(checkpoint := newVal)
    {
      var text := Itoa(newVal);
      CheckpointRoundTrip(newVal);
      var config := FindScanConfig(CHECKPOINT_KEY);
      if config.None? {
        SaveConfig(text, newVal);
      } else if config.value.value != text {
        UpdateConfig(text, newVal);
      } else {
        Meaning();
      }
    }

    /** GetLastScannedBlockNumber */
    method GetLastScannedBlockNumber() returns (r: Option<nat>)
      requires Valid()
      ensures r == Some(disk.checkpoint)
    {
      var config := FindScanConfig(CHECKPOINT_KEY);
      Meaning();
      r := CheckpointOf(if config.Some? then config.value.value else "0");
    }
  }
}
