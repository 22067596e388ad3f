/** The rows of the database, without serial ids and timestamps. */
module Tables {
  import opened Wrappers
  import opened Json
  import opened Chain
  import FixedPoint

  datatype BlockRow = BlockRow(previous: string, txCount: nat, blockId: string)

  datatype TxRow = TxRow(blockNum: nat, opCount: nat, indexInBlock: nat, firstOpType: int)

  datatype OpRow = OpRow(txid: string, blockNum: nat, txIndex: nat, opType: int,
                         typeName: string, json: Fields, addr: string)

  datatype TokenRow = TokenRow(blockNum: nat, txid: string, ownerPubkey: string,
                               ownerAddr: string, inheritFrom: string,
                               gasPrice: nat, gasLimit: nat)

  datatype HistoryRow = HistoryRow(contract: string, from: string, to: string,
                                   amount: nat, blockNum: nat)

  /** Key of a tbl_* row: its table and the (trxid, index_in_tx) pair. */
  datatype OpKey = OpKey(table: string, txid: string, index: nat)

  /** Key of receipts and of transfer history. */
  datatype ReceiptKey = ReceiptKey(txid: string, opNum: int)

  // ---- what the columns hold: varchar(100) and varchar(200), integer, decimal(36,18) ----

  const SHORT_TEXT: nat := 100
  const LONG_TEXT: nat := 200
  const SQL_INTEGERS: nat := 0x8000_0000
  const AMOUNTS: nat := 100_0000_0000_0000_0000

  predicate HistoryFits(key: ReceiptKey, row: HistoryRow) {
    && row.amount < AMOUNTS && |key.txid| <= SHORT_TEXT
    && |row.contract| <= SHORT_TEXT && |row.from| <= SHORT_TEXT && |row.to| <= SHORT_TEXT
  }

  predicate TokenFits(contract: string, row: TokenRow) {
    && |contract| <= SHORT_TEXT && |row.txid| <= SHORT_TEXT && |row.ownerPubkey| <= LONG_TEXT
    && |row.ownerAddr| <= SHORT_TEXT && |row.inheritFrom| <= SHORT_TEXT
    && row.gasPrice < SQL_INTEGERS && row.gasLimit < SQL_INTEGERS
  }

  /** The row of a mirrored number holds its names and the number as stored; a total supply is
      a text. */
  predicate NumberFits(c: Cell, shown: int) {
    match c
    case AddressCell(addr, _) => |addr| <= SHORT_TEXT && FixedPoint.FitsColumn(shown)
    case TokenCell(contract, owner) =>
      |contract| <= SHORT_TEXT && |owner| <= SHORT_TEXT && FixedPoint.Abs(shown) < AMOUNTS
    case SupplyCell(_) => true
  }

  predicate AccountFits(payer: string, name: string) {
    |payer| <= SHORT_TEXT && |name| <= SHORT_TEXT
  }

  function KeyOf(r: Receipt): ReceiptKey {
    ReceiptKey(r.txid, r.opNum)
  }

  /** A value bound to a placeholder of an INSERT: integers and texts pass as they are,
      anything else as its JSON text. */
  datatype SqlValue = SqlInt(n: int) | SqlText(s: string) | SqlJson(j: Json)

  function Encode(j: Json): SqlValue {
    match j
    case JInt(n) => SqlInt(n)
    case JString(s) => SqlText(s)
    case JNumber(lit) => SqlText(lit)
    case _ => SqlJson(j)
  }

  type SqlRow = map<string, SqlValue>

  /** What a dynamic insert means: the operation's JSON restricted to the table's columns. */
  function RowOf(columns: set<string>, fields: Fields): SqlRow {
    map k | k in fields && k in columns :: Encode(fields[k])
  }

  /** The tables whose content is a function of the chain alone. */
  datatype Tables = Tables(
    blocks: map<nat, BlockRow>,
    txs: map<string, TxRow>,
    schemas: map<string, set<string>>,
    rows: map<OpKey, SqlRow>,
    ops: map<string, OpRow>,
    receipts: map<ReceiptKey, Receipt>,
    history: map<ReceiptKey, HistoryRow>,
    accounts: map<string, string>,
    tokens: map<string, TokenRow>)

  const EMPTY_TABLES := Tables(map[], map[], map[], map[], map[], map[], map[], map[], map[])

  /** Everything that survives a crash: those tables, the event rows of each receipt, the
      mirrored node numbers, and the checkpoint (0 when never written). */
  datatype Disk = Disk(tables: Tables, events: map<ReceiptKey, seq<Event>>,
                       live: map<Cell, int>, checkpoint: nat)

  const EMPTY_DISK := Disk(EMPTY_TABLES, map[], map[], 0)

  function WithBlocks(d: Disk, m: map<nat, BlockRow>): Disk {
    d.(tables := d.tables.(blocks := m))
  }

  function WithTxs(d: Disk, m: map<string, TxRow>): Disk {
    d.(tables := d.tables.(txs := m))
  }

  function WithSchemas(d: Disk, m: map<string, set<string>>): Disk {
    d.(tables := d.tables.(schemas := m))
  }

  function WithRows(d: Disk, m: map<OpKey, SqlRow>): Disk {
    d.(tables := d.tables.(rows := m))
  }

  function WithOps(d: Disk, m: map<string, OpRow>): Disk {
    d.(tables := d.tables.(ops := m))
  }

  function WithHistory(d: Disk, m: map<ReceiptKey, HistoryRow>): Disk {
    d.(tables := d.tables.(history := m))
  }

  function WithAccounts(d: Disk, m: map<string, string>): Disk {
    d.(tables := d.tables.(accounts := m))
  }

  function WithLive(d: Disk, c: Cell, v: int): Disk {
    d.(live := d.live[c := v])
  }
}
