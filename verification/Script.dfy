/** The instructions the scanner's nested loops issue for a block, in order. Each one is a
    find-or-save, an update or a checkpoint; Halt is a deterministic Fatal or panic. The
    functions follow the loops: a `break` ends the list it is in. */
module Script {
  import opened Wrappers
  import opened Numerals
  import opened Json
  import opened Chain
  import opened Tables
  import opened Readings

  /** What made the scanner ask the node for a number again. */
  datatype Cause =
    | ByTransferOp
    | ByAssetOp
    | ByDeposit
    | ByInited
    | ByTransferEvent(from: string, to: string)

  /** When an instruction acts: always, only for a registered token contract, or for one with
      or without a transfer history row under the key. */
  datatype Guard =
    | Always
    | IfToken(contract: string)
    | IfRecorded(contract: string, key: ReceiptKey)
    | UnlessRecorded(contract: string, key: ReceiptKey)

  datatype Instr =
    | SaveBlock(num: nat, block: BlockRow)
    | BackFill(num: nat, hash: string)
    | SaveTx(txid: string, tx: TxRow)
    | MakeTable(table: string, columns: set<string>)
    | InsertOp(key: OpKey, fields: Fields)
    | SaveOp(id: string, op: OpRow)
    | SaveAccount(payer: string, name: string)
    | SaveToken(contract: string, token: TokenRow)
    | SaveHistory(hkey: ReceiptKey, hrow: HistoryRow)
    | Refresh(cell: Cell, guard: Guard, cause: Cause)
    | SaveReceipt(receipt: Receipt)
    | EndBlock(num: nat)
    | Halt(guard: Guard)

  // ---- one operation ----

  datatype OpForm =
    | Malformed
    | Panics
    | Unquoted(opName: string, fields: Fields)
    | Good(opType: nat, opName: string, fields: Fields)

  /** PostgreSQL reads a table name written without quotes as it stands: no other characters
      than those of an identifier, and none that it folds to lower case. */
  predicate PlainName(name: string) {
    forall i :: 0 <= i < |name| ==> PlainChar(name[i])
  }

  predicate PlainChar(c: char) {
    'a' <= c <= 'z' || '0' <= c <= '9' || c == '_' || c == '$' || c as int >= 128
  }

  /** The checks at the head of the operation loop. */
  function ReadOp(names: seq<string>, op: seq<Json>): (form: OpForm)
    ensures form.Good? <==> Scannable(names, op)
  {
    if |op| != 2 then Malformed
    else if op[0].JNull? then Panics
    else if !op[0].JNumber? then Malformed
    else
      var t := Atoi(op[0].literal);
      if t.None? || !op[1].JObject? then Malformed
      else if !(0 <= t.value < |names|) then Malformed
      else if PlainName(names[t.value]) then Good(t.value, names[t.value], op[1].fields)
      else Unquoted(names[t.value], op[1].fields)
  }

  /** The keys the scanner adds to every operation before storing it. */
  function Augment(num: nat, txid: string, index: nat, fields: Fields): Fields {
    var f := fields["block_num" := JInt(num)]["trxid" := JString(txid)]["index_in_tx" := JInt(index)];
    var g := if "memo" in f then f else f["memo" := JString("")];
    if "guarantee_id" in g then g else g["guarantee_id" := JString("")]
  }

  const ADDR_PROPS := ["addr", "from_addr", "caller_addr", "owner_addr", "miner_address",
                       "payer", "fee_paying_account", "lock_balance_addr", "pay_back_owner", "bonus_owner",
                       "fee_pay_address", "publisher_addr", "addr_from_claim", "issuer_addr"]

  function TableName(opName: string): string {
    "tbl_" + opName
  }

  function BaseRow(num: nat, txIndex: nat, txid: string, opType: nat, opName: string, f: Fields): OpRow {
    OpRow(txid, num, txIndex, opType, opName, f, FirstPresent(ADDR_PROPS, f))
  }

  /** TransferPlugin */
  function TransferScript(opName: string, f: Fields): seq<Instr> {
    if opName != "transfer_operation" then []
    else
      var to, from := GetString(f, "to_addr"), GetString(f, "from_addr");
      if to.None? || from.None? || "amount" !in f || !f["amount"].JObject? then [Halt(Always)]
      else
        var asset := GetString(f["amount"].fields, "asset_id");
        if asset.None? then []
        else [Refresh(AddressCell(from.value, asset.value), Always, ByTransferOp),
              Refresh(AddressCell(to.value, asset.value), Always, ByTransferOp)]
  }

  /** AccountRegisterPlugin */
  function AccountScript(opName: string, f: Fields): seq<Instr> {
    var name, payer := GetString(f, "name"), GetString(f, "payer");
    if opName != "account_create_operation" || name.None? || payer.None? then []
    else [SaveAccount(payer.value, name.value)]
  }

  const TRY_ADDR_PROPS := ["addr", "caller_addr", "lock_balance_addr", "foreclose_addr"]
  const TRY_ASSET_PROPS := ["asset_id", "lock_asset_id", "foreclose_asset_id"]

  /** Which asset an operation may move, as AssetMaybeChangePlugin guesses it. */
  function TouchedAsset(f: Fields): Option<string> {
    var direct := FirstString(TRY_ASSET_PROPS, f);
    if direct.Some? && direct.value != "" then direct
    else if "amount" in f && f["amount"].JObject? then GetString(f["amount"].fields, "asset_id")
    else None
  }

  function AssetScript(f: Fields): seq<Instr> {
    var addr := FirstString(TRY_ADDR_PROPS, f);
    if addr.None? || addr.value == "" then []
    else
      var asset := TouchedAsset(f);
      if asset.None? then []
      else [Refresh(AddressCell(addr.value, asset.value), Always, ByAssetOp)]
  }

  datatype Registration = Registration(contract: string, abi: seq<string>, offlineAbi: seq<string>,
                                       ownerPubkey: string, ownerAddr: string, inheritFrom: string,
                                       gasPrice: nat, gasLimit: nat)

  const UINT64_RANGE: int := 0x1_0000_0000_0000_0000

  /** decodeTokenRegisterOperation; the uint64 conversions wrap. */
  function DecodeRegistration(f: Fields): Option<Registration> {
    if "contract_code" !in f || !f["contract_code"].JObject? then None
    else
      var code := f["contract_code"].fields;
      if "abi" !in code || "offline_abi" !in code then None
      else
        var abi, offline := StringArray(code["abi"]), StringArray(code["offline_abi"]);
        var pubkey, time := GetString(f, "owner_pubkey"), GetString(f, "register_time");
        var owner, inherit := GetString(f, "owner_addr"), GetString(f, "inherit_from");
        var price, limit := GetInt(f, "gas_price"), GetInt(f, "init_cost");
        var id := GetString(f, "contract_id");
        if abi.None? || offline.None? || pubkey.None? || time.None? || owner.None? || inherit.None?
           || price.None? || limit.None? || id.None? then None
        else Some(Registration(id.value, abi.value, offline.value, pubkey.value, owner.value,
                               inherit.value, price.value % UINT64_RANGE, limit.value % UINT64_RANGE))
  }

  predicate IsToken(r: Registration) {
    && AllIn(["transfer", "transferFrom", "approve"], r.abi)
    && AllIn(["balanceOf", "totalSupply", "precision", "approvedBalanceFrom"], r.offlineAbi)
  }

  /** TokenContractCreateScanPlugin */
  function RegisterScript(num: nat, txid: string, opName: string, f: Fields, receipt: Option<Receipt>): seq<Instr> {
    if opName != "contract_register_operation" || receipt.None? || !receipt.value.succeeded then []
    else
      var r := DecodeRegistration(f);
      if r.None? then [Halt(Always)]
      else if !IsToken(r.value) then []
      else
        var row := TokenRow(num, txid, r.value.ownerPubkey, r.value.ownerAddr, r.value.inheritFrom,
                            r.value.gasPrice, r.value.gasLimit);
        [SaveToken(r.value.contract, row)]
  }

  function HistoryOf(num: nat, e: Event, arg: TransferArg): HistoryRow {
    HistoryRow(e.contract, arg.from, arg.to, arg.amount, num)
  }

  /** A Transfer whose history row does not fit its columns goes on only if the operation has
      a history row already; otherwise the insert fails and the rest of the event is left. */
  function TransferGuard(key: ReceiptKey, row: HistoryRow): Guard {
    if HistoryFits(key, row) then IfToken(row.contract) else IfRecorded(row.contract, key)
  }

  /** What a decodable Transfer event of a token contract causes. */
  function TransferEventScript(num: nat, txid: string, index: nat, e: Event, arg: TransferArg): seq<Instr> {
    var key, row := ReceiptKey(txid, index), HistoryOf(num, e, arg);
    [SaveHistory(key, row)]
    + (UsersScript(e, arg, TransferGuard(key, row)) + SupplyScript(e, arg, TransferGuard(key, row)))
  }

  /** One event: everything it causes happens only for a registered token contract. */
  function EventScript(num: nat, txid: string, index: nat, e: Event): seq<Instr> {
    if e.name == "Inited" then [Refresh(SupplyCell(e.contract), IfToken(e.contract), ByInited)]
    else if e.name == "Transfer" && e.arg.Some? then TransferEventScript(num, txid, index, e, e.arg.value)
    else []
  }

  /** usersToUpdate: sender and receiver, each once, the empty address never. */
  function UsersToUpdate(arg: TransferArg): seq<string> {
    (if arg.from != "" then [arg.from] else [])
    + (if arg.to != "" && arg.to != arg.from then [arg.to] else [])
  }

  function UserRefreshes(e: Event, arg: TransferArg, guard: Guard, users: seq<string>): seq<Instr> {
    if users == [] then []
    else [Refresh(TokenCell(e.contract, users[0]), guard, ByTransferEvent(arg.from, arg.to))]
         + UserRefreshes(e, arg, guard, users[1..])
  }

  function UsersScript(e: Event, arg: TransferArg, guard: Guard): seq<Instr> {
    UserRefreshes(e, arg, guard, UsersToUpdate(arg))
  }

  function SupplyScript(e: Event, arg: TransferArg, guard: Guard): seq<Instr> {
    if arg.from == "" || arg.to == "" then
      [Refresh(SupplyCell(e.contract), guard, ByTransferEvent(arg.from, arg.to))]
    else []
  }

  function EventsScript(num: nat, txid: string, index: nat, events: seq<Event>): seq<Instr> {
    if events == [] then []
    else EventScript(num, txid, index, events[0]) + EventsScript(num, txid, index, events[1..])
  }

  /** The (address, asset) pair of one deposit_to_address entry, if it has the expected shape. */
  function DepositPair(d: Json): Option<(string, string)> {
    if d.JArray? && |d.items| >= 2 && d.items[0].JArray? && |d.items[0].items| >= 2
       && d.items[0].items[0].JString? && d.items[0].items[1].JString?
    then Some((d.items[0].items[0].s, d.items[0].items[1].s))
    else None
  }

  function DepositsScript(deposits: seq<Json>): seq<Instr> {
    if deposits == [] then []
    else
      var p := DepositPair(deposits[0]);
      (if p.Some? then [Refresh(AddressCell(p.value.0, p.value.1), Always, ByDeposit)] else [])
      + DepositsScript(deposits[1..])
  }

  /** The error the last event leaves behind if it is a Transfer: an undecodable argument
      always, a history row that does not fit if it had to be inserted. */
  function Leftover(num: nat, txid: string, index: nat, e: Event): Option<Guard> {
    if e.name != "Transfer" then None
    else if e.arg.None? then Some(IfToken(e.contract))
    else if HistoryFits(ReceiptKey(txid, index), HistoryOf(num, e, e.arg.value)) then None
    else Some(UnlessRecorded(e.contract, ReceiptKey(txid, index)))
  }

  /** Such an error is returned, and fatal, when no deposit overwrites it. */
  function LeftoverScript(num: nat, txid: string, index: nat, r: Receipt): seq<Instr> {
    if r.events == [] || DepositsScript(r.deposits) != [] then []
    else
      var left := Leftover(num, txid, index, r.events[|r.events| - 1]);
      if left.Some? then [Halt(left.value)] else []
  }

  /** TokenContractInvokeScanPlugin */
  function InvokeScript(num: nat, block: Block, txid: string, index: nat, receipt: Option<Receipt>): seq<Instr> {
    if receipt.None? || !receipt.value.succeeded then []
    else if !block.timestampParses then [Halt(Always)]
    else EventsScript(num, txid, index, receipt.value.events)
         + (DepositsScript(receipt.value.deposits) + LeftoverScript(num, txid, index, receipt.value))
  }

  /** The five plugins in registration order. */
  function PluginsScript(num: nat, block: Block, txid: string, index: nat, opName: string, f: Fields,
                         receipt: Option<Receipt>): seq<Instr> {
    TransferScript(opName, f)
    + (AccountScript(opName, f)
       + (AssetScript(f)
          + (RegisterScript(num, txid, opName, f, receipt)
             + InvokeScript(num, block, txid, index, receipt))))
  }

  // ---- one transaction ----

  predicate IsContractOpType(t: int) {
    76 <= t <= 81
  }

  /** CheckTransactionHasContractOp */
  predicate HasContractOp(ops: seq<seq<Json>>) {
    exists i :: 0 <= i < |ops| && NamesContract(ops[i])
  }

  predicate NamesContract(op: seq<Json>) {
    |op| >= 2 && op[0].JNumber? &&
    var t := Atoi(op[0].literal);
    t.Some? && IsContractOpType(t.value)
  }

  /** The receipts the scanner fetches: none unless some operation is a contract operation. */
  function FetchedReceipts(tx: Tx): seq<Receipt> {
    if HasContractOp(tx.ops) then tx.receipts else []
  }

  function ReceiptFor(tx: Tx, index: nat): Option<Receipt> {
    if index < |FetchedReceipts(tx)| then Some(FetchedReceipts(tx)[index]) else None
  }

  /** What the operation loop does with one operation. A name that needs quoting is quoted when
      the table is created, but neither for its index nor in the queries. */
  function OpScript(num: nat, block: Block, t: nat, tx: Tx, o: nat, form: OpForm): seq<Instr> {
    match form
    case Malformed => []
    case Panics => [Halt(Always)]
    case Unquoted(opName, fields) =>
      [MakeTable(TableName(opName), Augment(num, tx.txid, o, fields).Keys), Halt(Always)]
    case Good(opType, opName, fields) =>
      var f := Augment(num, tx.txid, o, fields);
      var table := TableName(opName);
      [MakeTable(table, f.Keys),
       InsertOp(OpKey(table, tx.txid, o), f),
       SaveOp(OperationId(num, tx.txid, o), BaseRow(num, t, tx.txid, opType, opName, f))]
      + PluginsScript(num, block, tx.txid, o, opName, f, ReceiptFor(tx, o))
  }

  type OpBody = (nat, OpForm) -> seq<Instr>

  function BodyOfOps(num: nat, block: Block, t: nat, tx: Tx): OpBody {
    (o: nat, form: OpForm) => OpScript(num, block, t, tx, o, form)
  }

  /** How the loop reads an operation. */
  type Reader = seq<Json> -> OpForm

  function ReaderOf(names: seq<string>): Reader {
    (op: seq<Json>) => ReadOp(names, op)
  }

  /** The operation loop from index o on: it ends at the first operation that is not good. */
  function OpsLoop(read: Reader, ops: seq<seq<Json>>, o: nat, body: OpBody): seq<Instr>
    requires o <= |ops|
    decreases |ops| - o
  {
    if o == |ops| then []
    else
      var form := read(ops[o]);
      body(o, form) + (if form.Good? then OpsLoop(read, ops, o + 1, body) else [])
  }

  function ReceiptsScript(receipts: seq<Receipt>): seq<Instr> {
    if receipts == [] then [] else [SaveReceipt(receipts[0])] + ReceiptsScript(receipts[1..])
  }

  datatype LeadForm = LeadBad | LeadPanics | LeadOk(firstType: int)

  /** What SaveTransaction makes of the leading operation: -1 when there is none, an error
      when its type is not an integer number, a panic when the pair itself is empty. */
  function Leading(tx: Tx): (lead: LeadForm)
    ensures lead.LeadOk? <==> CanSave(tx)
  {
    if tx.ops == [] then LeadOk(-1)
    else if tx.ops[0] == [] then LeadPanics
    else if !tx.ops[0][0].JNumber? then LeadBad
    else
      var t := Atoi(tx.ops[0][0].literal);
      if t.Some? then LeadOk(t.value) else LeadBad
  }

  function TxScript(names: seq<string>, num: nat, block: Block, t: nat, tx: Tx, firstType: int): seq<Instr> {
    [SaveTx(tx.txid, TxRow(num, |tx.ops|, t, firstType))]
    + (OpsLoop(ReaderOf(names), tx.ops, 0, BodyOfOps(num, block, t, tx)) + ReceiptsScript(FetchedReceipts(tx)))
  }

  type Leads = Tx -> LeadForm

  function LeadsOf(): Leads {
    (tx: Tx) => Leading(tx)
  }

  type TxBody = (nat, Tx, int) -> seq<Instr>

  function BodyOfTxs(names: seq<string>, num: nat, block: Block): TxBody {
    (t: nat, tx: Tx, firstType: int) => TxScript(names, num, block, t, tx, firstType)
  }

  /** The transaction loop from index t on: it stops at the first one that cannot be saved. */
  function TxsLoop(leads: Leads, txs: seq<Tx>, t: nat, body: TxBody): seq<Instr>
    requires t <= |txs|
    decreases |txs| - t
  {
    if t == |txs| then []
    else
      var lead := leads(txs[t]);
      if lead.LeadBad? then []
      else if lead.LeadPanics? then [Halt(Always)]
      else body(t, txs[t], lead.firstType) + TxsLoop(leads, txs, t + 1, body)
  }

  // ---- blocks ----

  function HeadScript(num: nat, block: Block): seq<Instr> {
    [SaveBlock(num, BlockRow(block.previous, |block.txs|, ""))]
    + (if num > 1 then [BackFill(num, block.previous)] else [])
  }

  function TxsScript(names: seq<string>, num: nat, block: Block): seq<Instr> {
    TxsLoop(LeadsOf(), block.txs, 0, BodyOfTxs(names, num, block))
  }

  function BlockScript(w: World, num: nat): (r: seq<Instr>)
    requires 1 <= num <= |w.chain|
    ensures r != []
  {
    HeadScript(num, BlockAt(w, num)) + (TxsScript(w.names, num, BlockAt(w, num)) + [EndBlock(num)])
  }
}
