/** What a chain says, read off its JSON alone: which transactions and operations the scanner
    gets to, what they are, and what they mean for the rows and numbers of the database. None of
    this refers to the scripts. */
module Readings {
  import opened Wrappers
  import opened Numerals
  import opened Json
  import opened Chain
  import opened Tables

  // ---- properties ----

  predicate IsText(f: Fields, key: string, v: string) {
    key in f && f[key] == JString(v)
  }

  predicate HasText(f: Fields, key: string) {
    key in f && f[key].JString?
  }

  /** A number literal that int64 holds. */
  predicate IsInteger(j: Json, n: int) {
    j.JNumber? && Atoi(j.literal) == Some(n)
  }

  predicate HasNumber(f: Fields, key: string) {
    key in f && f[key].JNumber? && Atoi(f[key].literal).Some?
  }

  /** The number under the key as a uint64: a negative one wraps around. */
  predicate IsUint64(f: Fields, key: string, v: nat) {
    HasNumber(f, key) && v == Atoi(f[key].literal).value % 0x1_0000_0000_0000_0000
  }

  /** v is the text under the first of the keys that has one. */
  predicate FirstText(f: Fields, keys: seq<string>, v: string) {
    exists i :: 0 <= i < |keys| && IsText(f, keys[i], v) && forall j :: 0 <= j < i ==> !HasText(f, keys[j])
  }

  predicate IsObject(f: Fields, key: string) {
    key in f && f[key].JObject?
  }

  /** The key holds an array of texts only, all those wanted among them. */
  predicate ListsTexts(f: Fields, key: string, wanted: seq<string>) {
    && key in f && f[key].JArray?
    && (forall i :: 0 <= i < |f[key].items| ==> f[key].items[i].JString?)
    && (forall i :: 0 <= i < |wanted| ==> JString(wanted[i]) in f[key].items)
  }

  // ---- operations and transactions ----

  /** An ASCII character that a PostgreSQL identifier cannot have without quotes. */
  predicate IsSpecial(c: char) {
    c as int < 128 && !('a' <= c <= 'z') && !('0' <= c <= '9') && c != '_' && c != '$'
  }

  predicate NeedsQuotes(name: string) {
    exists i :: 0 <= i < |name| && IsSpecial(name[i])
  }

  /** The pair of an operation of that type, its type's name in the table, and its JSON. */
  predicate IsOp(names: seq<string>, op: seq<Json>, opType: nat, name: string, fields: Fields) {
    && |op| == 2 && IsInteger(op[0], opType) && opType < |names| && names[opType] == name
    && op[1] == JObject(fields)
  }

  /** An operation after which the loop goes on. */
  predicate Scannable(names: seq<string>, op: seq<Json>) {
    && |op| == 2 && op[0].JNumber? && op[1].JObject?
    && var t := Atoi(op[0].literal);
       t.Some? && 0 <= t.value < |names| && !NeedsQuotes(names[t.value])
  }

  /** The type the transaction's row is given: the first operation's, or -1 if there is none. */
  predicate LeadsWith(tx: Tx, opType: int) {
    if tx.ops == [] then opType == -1 else tx.ops[0] != [] && IsInteger(tx.ops[0][0], opType)
  }

  predicate CanSave(tx: Tx) {
    tx.ops == [] || (tx.ops[0] != [] && tx.ops[0][0].JNumber? && Atoi(tx.ops[0][0].literal).Some?)
  }

  /** The scanner asks for receipts: some operation's type is one of the contract operations. */
  predicate IsContractTx(tx: Tx) {
    exists i :: 0 <= i < |tx.ops| && |tx.ops[i]| >= 2 && exists t :: 76 <= t <= 81 && IsInteger(tx.ops[i][0], t)
  }

  /** r is the receipt that goes with operation o. */
  predicate IsReceiptOf(tx: Tx, o: nat, r: Receipt) {
    IsContractTx(tx) && o < |tx.receipts| && tx.receipts[o] == r
  }

  /** The invoke plugin looks into it. */
  predicate IsHeard(block: Block, tx: Tx, o: nat, r: Receipt) {
    IsReceiptOf(tx, o, r) && r.succeeded && block.timestampParses
  }

  /** Operation o of transaction t of block n. */
  datatype Place = Place(n: nat, t: nat, o: nat)

  /** Earlier in scan order. */
  predicate Earlier(x: Place, y: Place) {
    x.n < y.n || (x.n == y.n && (x.t < y.t || (x.t == y.t && x.o < y.o)))
  }

  function TxAt(w: World, x: Place): Tx
    requires 1 <= x.n <= |w.chain| && x.t < |BlockAt(w, x.n).txs|
  {
    BlockAt(w, x.n).txs[x.t]
  }

  /** The scanner gets to the operation: every transaction of the block up to its own can be
      saved, and every operation before it in its transaction is scannable. */
  predicate Tried(w: World, x: Place) {
    && 1 <= x.n <= |w.chain| && x.t < |BlockAt(w, x.n).txs|
    && (forall j :: 0 <= j <= x.t ==> CanSave(BlockAt(w, x.n).txs[j]))
    && x.o < |TxAt(w, x).ops|
    && (forall j :: 0 <= j < x.o ==> Scannable(w.names, TxAt(w, x).ops[j]))
  }

  /** Transaction t of block n and all before it in the block can be saved. */
  predicate TxReached(w: World, n: nat, t: nat) {
    && 1 <= n <= |w.chain| && t < |BlockAt(w, n).txs|
    && forall j :: 0 <= j <= t ==> CanSave(BlockAt(w, n).txs[j])
  }

  /** The operation is scannable, and so are all before it in its transaction. */
  predicate OpReached(w: World, x: Place) {
    Tried(w, x) && Scannable(w.names, TxAt(w, x).ops[x.o])
  }

  /** The stated assumption: a transaction id names one transaction of the chain. */
  predicate UniqueTxids(w: World) {
    forall n1, t1, n2, t2 ::
      1 <= n1 <= |w.chain| && 0 <= t1 < |BlockAt(w, n1).txs| && 1 <= n2 <= |w.chain| && 0 <= t2 < |BlockAt(w, n2).txs|
      && BlockAt(w, n1).txs[t1].txid == BlockAt(w, n2).txs[t2].txid
      ==> n1 == n2 && t1 == t2
  }

  /** It is an operation with that type, type name and JSON. */
  predicate OpIs(w: World, x: Place, opType: nat, name: string, fields: Fields) {
    Tried(w, x) && IsOp(w.names, TxAt(w, x).ops[x.o], opType, name, fields)
  }

  /** And it is stored. */
  predicate Taken(w: World, x: Place, opType: nat, name: string, fields: Fields) {
    OpIs(w, x, opType, name, fields) && !NeedsQuotes(name)
  }

  // ---- what an operation means ----

  /** The JSON an operation is stored with. */
  predicate IsStoredJson(num: nat, txid: string, o: nat, fields: Fields, f: Fields) {
    && f.Keys == fields.Keys + {"block_num", "trxid", "index_in_tx", "memo", "guarantee_id"}
    && f["block_num"] == JInt(num) && f["trxid"] == JString(txid) && f["index_in_tx"] == JInt(o)
    && ("memo" !in fields ==> f["memo"] == JString(""))
    && ("guarantee_id" !in fields ==> f["guarantee_id"] == JString(""))
    && forall k :: k in fields && k !in {"block_num", "trxid", "index_in_tx"} ==> f[k] == fields[k]
  }

  /** The key is the first of the list that is present. */
  predicate IsFirstKey(f: Fields, keys: seq<string>, i: nat) {
    i < |keys| && keys[i] in f && forall j :: 0 <= j < i ==> keys[j] !in f
  }

  /** The address it is listed under: the first of these properties that is present, if that is
      a text. */
  ghost predicate IsAddressOf(fields: Fields, addr: string) {
    var keys := ["addr", "from_addr", "caller_addr", "owner_addr", "miner_address", "payer", "fee_paying_account",
                 "lock_balance_addr", "pay_back_owner", "bonus_owner", "fee_pay_address", "publisher_addr",
                 "addr_from_claim", "issuer_addr"];
    || (exists i: nat :: IsFirstKey(fields, keys, i) && fields[keys[i]] == JString(addr))
    || (addr == "" && forall i: nat :: IsFirstKey(fields, keys, i) ==> !fields[keys[i]].JString?)
  }

  /** A transfer of an asset. */
  predicate Transfers(name: string, fields: Fields, from: string, to: string, asset: string) {
    && name == "transfer_operation" && IsText(fields, "from_addr", from) && IsText(fields, "to_addr", to)
    && IsObject(fields, "amount") && IsText(fields["amount"].fields, "asset_id", asset)
  }

  /** A transfer the plugin cannot read. */
  predicate BadTransfer(name: string, fields: Fields) {
    && name == "transfer_operation"
    && (!HasText(fields, "from_addr") || !HasText(fields, "to_addr") || !IsObject(fields, "amount"))
  }

  /** Any operation with an address and an asset among its properties may move the asset. */
  ghost predicate Touches(fields: Fields, addr: string, asset: string) {
    && addr != "" && FirstText(fields, ["addr", "caller_addr", "lock_balance_addr", "foreclose_addr"], addr)
    && if exists v :: v != "" && FirstText(fields, ["asset_id", "lock_asset_id", "foreclose_asset_id"], v)
       then FirstText(fields, ["asset_id", "lock_asset_id", "foreclose_asset_id"], asset)
       else IsObject(fields, "amount") && IsText(fields["amount"].fields, "asset_id", asset)
  }

  predicate CreatesAccount(name: string, fields: Fields, payer: string, account: string) {
    name == "account_create_operation" && IsText(fields, "payer", payer) && IsText(fields, "name", account)
  }

  /** A contract registration that can be decoded. */
  predicate Decodes(fields: Fields) {
    && IsObject(fields, "contract_code")
    && ListsTexts(fields["contract_code"].fields, "abi", [])
    && ListsTexts(fields["contract_code"].fields, "offline_abi", [])
    && HasText(fields, "owner_pubkey") && HasText(fields, "register_time") && HasText(fields, "owner_addr")
    && HasText(fields, "inherit_from") && HasText(fields, "contract_id")
    && HasNumber(fields, "gas_price") && HasNumber(fields, "init_cost")
  }

  /** The registration of a contract with the token interface, and the row it gets. */
  predicate RegistersToken(num: nat, txid: string, name: string, fields: Fields, contract: string, row: TokenRow) {
    && name == "contract_register_operation" && Decodes(fields)
    && ListsTexts(fields["contract_code"].fields, "abi", ["transfer", "transferFrom", "approve"])
    && ListsTexts(fields["contract_code"].fields, "offline_abi",
                  ["balanceOf", "totalSupply", "precision", "approvedBalanceFrom"])
    && IsText(fields, "contract_id", contract) && row.blockNum == num && row.txid == txid
    && IsText(fields, "owner_pubkey", row.ownerPubkey) && IsText(fields, "owner_addr", row.ownerAddr)
    && IsText(fields, "inherit_from", row.inheritFrom)
    && IsUint64(fields, "gas_price", row.gasPrice) && IsUint64(fields, "init_cost", row.gasLimit)
  }

  predicate IsTransfer(e: Event) {
    e.name == "Transfer" && e.arg.Some?
  }

  /** The history row a Transfer gets. */
  predicate IsRowOf(row: HistoryRow, n: nat, e: Event) {
    && IsTransfer(e) && row.contract == e.contract && row.blockNum == n
    && row.from == e.arg.value.from && row.to == e.arg.value.to && row.amount == e.arg.value.amount
  }

  /** A deposit of the asset to the address is among the receipt's deposits. */
  predicate Deposits(deposits: seq<Json>, addr: string, asset: string) {
    exists d :: d in deposits && d.JArray? && |d.items| >= 2 && d.items[0].JArray? && |d.items[0].items| >= 2
                && d.items[0].items[0] == JString(addr) && d.items[0].items[1] == JString(asset)
  }

  /** The operation moves the asset of the address: it transfers it, or has both among its
      properties, or its receipt deposits it. */
  ghost predicate Moves(block: Block, tx: Tx, o: nat, name: string, fields: Fields, addr: string, asset: string) {
    || (exists x :: Transfers(name, fields, addr, x, asset) || Transfers(name, fields, x, addr, asset))
    || Touches(fields, addr, asset)
    || (exists r :: IsHeard(block, tx, o, r) && Deposits(r.deposits, addr, asset))
  }
}
