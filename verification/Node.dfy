/** What the scanner does with a block before it scans it. */
module NodeService {
  import opened Json
  import opened Chain
  import opened Readings
  import opened Script
  import opened OpContents

  /** A decoded transaction of a block; its id arrives with a second reply of the node. */
  datatype RawTx = RawTx(txid: string, blockNum: nat, indexInBlock: nat, ops: seq<seq<Json>>)

  datatype TxInfo = TxInfo(txid: string, blockNum: nat)

  /** Transaction i with its place in the block, and with its id if the second reply has one. */
  function Merged(tx: RawTx, i: nat, infos: seq<TxInfo>): RawTx {
    var placed := tx.(indexInBlock := i);
    if i < |infos| then placed.(txid := infos[i].txid, blockNum := infos[i].blockNum) else placed
  }

  /** The two loops of GetBlock: the transactions are numbered, then the ids are handed out by
      position; ids beyond the transactions are only listed. */
  method MergeIds(txs: array<RawTx>, infos: seq<TxInfo>) returns (ids: seq<string>)
    modifies txs
    ensures forall i :: 0 <= i < txs.Length ==>
              && txs[i].indexInBlock == i && txs[i].ops == old(txs[i].ops)
              && txs[i].txid == (if i < |infos| then infos[i].txid else old(txs[i].txid))
              && txs[i].blockNum == (if i < |infos| then infos[i].blockNum else old(txs[i].blockNum))
    ensures |ids| == |infos| && forall i :: 0 <= i < |infos| ==> ids[i] == infos[i].txid
  {
    for i := 0 to txs.Length
      invariant forall j :: 0 <= j < txs.Length ==>
                  txs[j] == if j < i then old(txs[j]).(indexInBlock := j) else old(txs[j])
    {
      txs[i] := txs[i].(indexInBlock := i);
    }
    ids := [];
    for i := 0 to |infos|
      invariant |ids| == i && forall j :: 0 <= j < i ==> ids[j] == infos[j].txid
      invariant forall j :: 0 <= j < txs.Length ==> txs[j] == Merged(old(txs[j]), j, infos[..i])
    {
      ids := ids + [infos[i].txid];
      if i < txs.Length {
        txs[i] := txs[i].(txid := infos[i].txid, blockNum := infos[i].blockNum);
      }
    }
    assert infos[..|infos|] == infos;
  }

  /** CheckTransactionHasContractOp */
  method CheckTransactionHasContractOp(tx: Tx) returns (found: bool)
    ensures found <==> HasContractOp(tx.ops)
    ensures found <==> IsContractTx(tx)
  {
    ContractExactly(tx);
    for i := 0 to |tx.ops|
      invariant forall j :: 0 <= j < i ==> !NamesContract(tx.ops[j])
    {
      if NamesContract(tx.ops[i]) {
        return true;
      }
    }
    return false;
  }
}
