/** The scripts of all blocks, one after the other: what the machine executes. A plan keeps
    of a world only what a run can depend on. */
module Plans {
  import opened Wrappers
  import opened Chain
  import opened Tables
  import opened Script
  import FixedPoint

  /** scripts[n - 1] is the script of block n; shown is what is stored for a number of the
      node, listed says for which cells anything can be stored at all, and fits which numbers
      of the node the cell's row can hold. */
  datatype Plan = Plan(scripts: seq<seq<Instr>>, ledger: (nat, Cell) -> int,
                       shown: (Cell, int) -> int, listed: Cell -> bool, fits: (Cell, int) -> bool) {
    function Length(): nat {
      |scripts|
    }

    function Script(n: nat): seq<Instr>
      requires 1 <= n <= Length()
    {
      scripts[n - 1]
    }
  }

  /** What is stored for a number of the node: balances are scaled by the asset's precision. */
  function Shown(w: World, c: Cell, n: int): int {
    match c
    case AddressCell(_, asset) =>
      var precision := PrecisionIn(w.assets, asset);
      FixedPoint.Scale(n, if precision.Some? then precision.value else 0)
    case _ => n
  }

  /** updateAddressBalance fails for an asset the node does not list. */
  predicate Listed(w: World, c: Cell) {
    c.AddressCell? ==> PrecisionIn(w.assets, c.asset).Some?
  }

  /** The plan of a chain. */
  function PlanOf(w: World): (p: Plan)
    ensures p.Length() == |w.chain|
    ensures forall n :: 1 <= n <= |w.chain| ==> p.Script(n) == BlockScript(w, n)
  {
    Plan(seq(|w.chain|, k requires 0 <= k < |w.chain| => BlockScript(w, k + 1)), w.ledger,
         (c: Cell, n: int) => Shown(w, c, n), (c: Cell) => Listed(w, c),
         (c: Cell, n: int) => NumberFits(c, Shown(w, c, n)))
  }

  /** Number of instructions in the blocks before block n. */
  function Start(p: Plan, n: nat): nat
    requires 1 <= n <= p.Length() + 1
  {
    if n == 1 then 0 else Start(p, n - 1) + |p.Script(n - 1)|
  }

  /** The instructions of blocks 1 to n. */
  function UpTo(p: Plan, n: nat): (r: seq<Instr>)
    requires n <= p.Length()
    ensures |r| == Start(p, n + 1)
  {
    if n == 0 then [] else UpTo(p, n - 1) + p.Script(n)
  }

  /** The whole script. */
  function All(p: Plan): (r: seq<Instr>)
    ensures |r| == Start(p, p.Length() + 1)
  {
    UpTo(p, p.Length())
  }

  // ---- positions in the whole script ----

  lemma {:induction false} StartMonotone(p: Plan, m: nat, n: nat)
    requires 1 <= m <= n <= p.Length() + 1
    ensures Start(p, m) <= Start(p, n)
  {
    if m < n {
      StartMonotone(p, m, n - 1);
    }
  }

  lemma {:induction false} UpToAt(p: Plan, n: nat, last: nat, k: nat)
    requires 1 <= n <= last <= p.Length() && k < |p.Script(n)|
    ensures Start(p, n) + k < Start(p, last + 1)
    ensures UpTo(p, last)[Start(p, n) + k] == p.Script(n)[k]
  {
    if n < last {
      UpToAt(p, n, last - 1, k);
    }
  }

  /** Instruction k of block n stands at Start(n) + k of the whole script. */
  lemma BlockPlace(p: Plan, n: nat, k: nat)
    requires 1 <= n <= p.Length() && k < |p.Script(n)|
    ensures Start(p, n) + k < Start(p, n + 1) <= |All(p)|
    ensures All(p)[Start(p, n) + k] == p.Script(n)[k]
  {
    UpToAt(p, n, p.Length(), k);
    StartMonotone(p, n + 1, p.Length() + 1);
  }

  /** Every position of the whole script lies in exactly one block. */
  lemma {:induction false} BlockOf(p: Plan, last: nat, i: nat) returns (n: nat, k: nat)
    requires last <= p.Length() && i < Start(p, last + 1)
    ensures 1 <= n <= last && k < |p.Script(n)| && i == Start(p, n) + k
  {
    if i >= Start(p, last) {
      n, k := last, i - Start(p, last);
    } else {
      n, k := BlockOf(p, last - 1, i);
    }
  }

  lemma {:induction false} SamePlaces(p: Plan, q: Plan, n: nat)
    requires p.scripts == q.scripts && n <= p.Length()
    ensures UpTo(p, n) == UpTo(q, n)
  {
    if n > 0 {
      SamePlaces(p, q, n - 1);
    }
  }

  // ---- what a block's script may contain ----

  /** Instruction k of block num, its EndBlock aside. */
  predicate Fits(num: nat, k: nat, i: Instr) {
    match i
    case SaveBlock(n, row) => n == num && k == 0 && row.blockId == ""
    case BackFill(n, hash) => n == num && num > 1 && k == 1
    case SaveTx(txid, row) => row.blockNum == num
    case MakeTable(_, columns) => {"trxid", "index_in_tx"} <= columns
    case SaveHistory(_, row) => row.blockNum == num
    case Refresh(c, guard, cause) => RefreshFits(c, guard, cause)
    case EndBlock(_) => false
    case Halt(guard) => !guard.IfRecorded?
    case _ => true
  }

  /** Which causes can refresh which number: a token balance only a Transfer event that names
      its owner, a total supply only an Inited event or a Transfer with an empty side. */
  predicate RefreshFits(c: Cell, guard: Guard, cause: Cause) {
    match c
    case AddressCell(_, _) => guard == Always && !cause.ByInited? && !cause.ByTransferEvent?
    case TokenCell(contract, owner) =>
      && GuardFits(guard, contract)
      && owner != "" && cause.ByTransferEvent? && owner in {cause.from, cause.to}
    case SupplyCell(contract) =>
      && GuardFits(guard, contract)
      && (cause.ByInited? || (cause.ByTransferEvent? && "" in {cause.from, cause.to}))
  }

  predicate GuardFits(guard: Guard, contract: string) {
    (guard.IfToken? || guard.IfRecorded?) && guard.contract == contract
  }

  predicate ProperBlock(num: nat, s: seq<Instr>) {
    && |s| >= 2
    && s[|s| - 1] == EndBlock(num)
    && s[0].SaveBlock?
    && (num > 1 ==> s[1].BackFill?)
    && forall k :: 0 <= k < |s| - 1 ==> Fits(num, k, s[k])
  }

  predicate Proper(p: Plan) {
    forall n {:trigger ProperBlock(n, p.Script(n))} :: 1 <= n <= p.Length() ==> ProperBlock(n, p.Script(n))
  }
}
