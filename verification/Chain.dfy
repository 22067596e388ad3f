/** What the node serves: an append-only chain of decoded blocks, the receipts of contract
    transactions, the list of assets, and a ledger that changes from block to block. */
module Chain {
  import opened Wrappers
  import opened Json

  datatype TransferArg = TransferArg(from: string, to: string, amount: nat)

  /** arg is what event_arg decodes to as a transfer argument, if it does. */
  datatype Event = Event(contract: string, name: string, opNum: int, caller: string,
                         text: string, arg: Option<TransferArg>)

  datatype Receipt = Receipt(txid: string, opNum: int, succeeded: bool,
                             events: seq<Event>, deposits: seq<Json>)

  /** receipts is the node's fixed answer to get_contract_invoke_object for this txid. */
  datatype Tx = Tx(txid: string, ops: seq<seq<Json>>, receipts: seq<Receipt>)

  datatype Block = Block(previous: string, timestampParses: bool, txs: seq<Tx>)

  datatype AssetInfo = AssetInfo(id: string, precision: nat)

  /** One number the node can be asked for and the database mirrors. */
  datatype Cell =
    | AddressCell(addr: string, asset: string)
    | TokenCell(contract: string, owner: string)
    | SupplyCell(contract: string)

  /** chain[n - 1] is block n; ledger(n, c) is the node's answer for c once block n is its
      head; names is the operation-name table. No forks: chain never changes, only the
      node's head moves along it. */
  datatype World = World(names: seq<string>, chain: seq<Block>, assets: seq<AssetInfo>,
                         ledger: (nat, Cell) -> int)

  function BlockAt(w: World, n: nat): Block
    requires 1 <= n <= |w.chain|
  {
    w.chain[n - 1]
  }

  /** The asset's precision according to the node's asset list. */
  function PrecisionIn(assets: seq<AssetInfo>, id: string): Option<nat> {
    if assets == [] then None
    else if assets[0].id == id then Some(assets[0].precision)
    else PrecisionIn(assets[1..], id)
  }
}
