/** Block hashes arrive one block late: the hash of block m is the Previous field of block
    m + 1, filled in when that block is scanned. */
module BackFills {
  import opened Tables
  import opened Script
  import opened Plans
  import opened Machine
  import opened Collect
  import opened Invariant
  import opened Replay
  import opened Confluence

  /** Where the hash of block m is filled in. */
  function FillPlace(p: Plan, m: nat): nat
    requires 1 <= m < p.Length()
  {
    Start(p, m + 1) + 1
  }

  /** The Previous field of block m + 1, as its script carries it. */
  function SuccessorHash(p: Plan, m: nat): string
    requires Proper(p) && 1 <= m < p.Length()
  {
    assert ProperBlock(m + 1, p.Script(m + 1));
    p.Script(m + 1)[1].hash
  }

  predicate Filled(p: Plan, n: nat, m: nat) {
    1 <= m < p.Length() && FillPlace(p, m) < n
  }

  predicate HashExact(p: Plan, blocks: map<nat, BlockRow>, n: nat, m: nat)
    requires Proper(p)
  {
    m in blocks ==>
      && 1 <= m <= p.Length()
      && blocks[m].blockId == (if Filled(p, n, m) then SuccessorHash(p, m) else "")
  }

  lemma FillAt(p: Plan, i: nat)
    requires Proper(p) && i < |All(p)| && All(p)[i].BackFill?
    ensures var num := All(p)[i].num;
            1 < num <= p.Length() && i == FillPlace(p, num - 1) && All(p)[i].hash == SuccessorHash(p, num - 1)
  {
    var n := BackFillPlace(p, i);
    assert ProperBlock(n, p.Script(n));
    BlockPlace(p, n, 1);
  }

  lemma SavedAt(p: Plan, i: nat)
    requires Proper(p) && i < |All(p)| && All(p)[i].SaveBlock?
    ensures var num := All(p)[i].num;
            1 <= num <= p.Length() && i == Start(p, num) && All(p)[i].block.blockId == ""
  {
    var n, k := BlockOf(p, p.Length(), i);
    BlockPlace(p, n, k);
    assert ProperBlock(n, p.Script(n));
    assert Fits(n, k, p.Script(n)[k]);
  }

  /** What one instruction does to the row of block m. */
  lemma EffectOnBlock(d: Tables, i: Instr, m: nat)
    ensures !i.SaveBlock? && !i.BackFill? ==> Effect(d, i).blocks == d.blocks
    ensures i.SaveBlock? ==> Effect(d, i).blocks == PutIfAbsent(d.blocks, i.num, i.block)
    ensures i.BackFill? ==> Effect(d, i).blocks == FillHash(d.blocks, i)
  {
  }

  /** One instruction keeps the hash of block m exact. */
  lemma HashNext(p: Plan, before: map<nat, BlockRow>, after: map<nat, BlockRow>, i: Instr, n: nat, m: nat)
    requires Proper(p) && HashExact(p, before, n, m)
    requires !i.SaveBlock? && !i.BackFill? ==> after == before
    requires i.SaveBlock? ==> 1 <= i.num <= p.Length() && n == Start(p, i.num) && i.block.blockId == ""
                              && after == PutIfAbsent(before, i.num, i.block)
    requires i.BackFill? ==> 1 < i.num <= p.Length() && n == FillPlace(p, i.num - 1)
                             && i.hash == SuccessorHash(p, i.num - 1) && after == FillHash(before, i)
    requires 1 <= m < p.Length() && FillPlace(p, m) == n ==> i.BackFill? && i.num == m + 1
    ensures HashExact(p, after, n + 1, m)
  {
    if i.SaveBlock? && i.num == m && m < p.Length() {
      StartMonotone(p, m, m + 1);
    }
  }

  lemma HashPrefix(p: Plan, n: nat, m: nat)
    requires Proper(p) && n < |All(p)| && HashExact(p, Ideal(p, n).blocks, n, m)
    ensures HashExact(p, Ideal(p, n + 1).blocks, n + 1, m)
  {
    var i := All(p)[n];
    PrefixStep(All(p), n);
    EffectOnBlock(Ideal(p, n), i, m);
    if i.BackFill? {
      FillAt(p, n);
    }
    if i.SaveBlock? {
      SavedAt(p, n);
    }
    if 1 <= m < p.Length() && FillPlace(p, m) == n {
      FillIs(p, m);
    }
    HashNext(p, Ideal(p, n).blocks, Ideal(p, n + 1).blocks, i, n, m);
  }

  lemma {:induction false} HashesExact(p: Plan, n: nat, m: nat)
    requires Proper(p) && n <= |All(p)|
    ensures HashExact(p, Ideal(p, n).blocks, n, m)
  {
    if n > 0 {
      HashesExact(p, n - 1, m);
      HashPrefix(p, n - 1, m);
    } else {
      assert All(p)[..0] == [];
    }
  }

  lemma FillIs(p: Plan, m: nat)
    requires Proper(p) && 1 <= m < p.Length()
    ensures FillPlace(p, m) < |All(p)|
    ensures All(p)[FillPlace(p, m)] == BackFill(m + 1, SuccessorHash(p, m))
  {
    assert ProperBlock(m + 1, p.Script(m + 1));
    BlockPlace(p, m + 1, 1);
    assert Fits(m + 1, 1, p.Script(m + 1)[1]);
  }

  /** In every run with crashes only: a stored block's hash is the successor's Previous if the
      back-fill has ever been executed, and empty otherwise; it is set for every block whose
      successor lies below the cursor, even when a crash fell between saving the successor
      and updating the block; whatever Previous fields hold. */
  lemma HashBackFill(p: Plan, acts: seq<Act>, m: nat)
    requires Proper(p) && FailStop(acts) && m in After(p, acts).disk.tables.blocks
    ensures 1 <= m <= p.Length()
    ensures var s := After(p, acts);
            && s.disk.tables.blocks[m].blockId == (if Filled(p, s.hwm, m) then SuccessorHash(p, m) else "")
            && (m + 1 < s.cursor ==> Filled(p, s.hwm, m))
  {
    ReplayConfluenceButHistory(p, acts);
    ShapeAlways(p, acts);
    HashIn(p, After(p, acts), m);
  }

  lemma HashIn(p: Plan, s: State, m: nat)
    requires Proper(p) && Shape(p, s) && s.hwm <= |All(p)| && s.disk.tables.blocks == Ideal(p, s.hwm).blocks
    requires m in s.disk.tables.blocks
    ensures 1 <= m <= p.Length()
    ensures s.disk.tables.blocks[m].blockId == (if Filled(p, s.hwm, m) then SuccessorHash(p, m) else "")
    ensures m + 1 < s.cursor ==> Filled(p, s.hwm, m)
  {
    HashesExact(p, s.hwm, m);
    if m + 1 < s.cursor {
      assert ProperBlock(m + 1, p.Script(m + 1));
      StartMonotone(p, m + 2, s.cursor);
    }
  }

  /** A hash that has been filled in never changes again, over any continuation of the run. */
  lemma HashStable(p: Plan, acts: seq<Act>, more: seq<Act>, m: nat)
    requires Proper(p) && FailStop(acts + more) && FailStop(acts)
    requires m in After(p, acts).disk.tables.blocks && After(p, acts).disk.tables.blocks[m].blockId != ""
    ensures m in After(p, acts + more).disk.tables.blocks
    ensures After(p, acts + more).disk.tables.blocks[m].blockId == After(p, acts).disk.tables.blocks[m].blockId
  {
    var s, t := After(p, acts), After(p, acts + more);
    MarkMonotone(p, acts, more);
    ReplayConfluenceButHistory(p, acts);
    ReplayConfluenceButHistory(p, acts + more);
    BlocksReplayed(All(p), s.hwm, m);
    BlocksReplayed(All(p), t.hwm, m);
    HashBackFill(p, acts, m);
    HashBackFill(p, acts + more, m);
  }
}
