/** Which transactions and operations of a block end up in the database, for an arbitrary and
    possibly malformed block: two nested longest prefixes. */
module Ingestion {
  import opened Numerals
  import opened Chain
  import opened Tables
  import opened Readings
  import opened Script
  import opened Plans
  import opened BlockFacts
  import opened Collect
  import opened Machine
  import opened Invariant
  import opened Replay
  import opened Confluence
  import opened Places
  import opened ChainRows
  import opened ChainBlocks

  /** In every run, errors that are only logged included, a stored transaction was saved by the
      script. */
  lemma {:induction false} StoredWasScripted(p: Plan, acts: seq<Act>, txid: string)
    requires Proper(p)
    ensures txid in After(p, acts).disk.tables.txs ==> Scripted(p, txid)
  {
    if acts != [] {
      var before := acts[..|acts| - 1];
      StoredWasScripted(p, before, txid);
      ShapeAlways(p, before);
      ScriptedStep(p, After(p, before), acts[|acts| - 1], txid);
    }
  }

  predicate Scripted(p: Plan, txid: string) {
    exists i :: 0 <= i < |All(p)| && All(p)[i].SaveTx? && All(p)[i].txid == txid
  }

  lemma ScriptedStep(p: Plan, s: State, a: Act, txid: string)
    requires Proper(p) && Shape(p, s)
    requires txid in s.disk.tables.txs ==> Scripted(p, txid)
    ensures txid in Step(p, s, a).disk.tables.txs ==> Scripted(p, txid)
  {
    if a.Tick? && s.todo != [] {
      AtPosition(p, s);
      ExecuteTxs(p, s, s.todo[0], a.answered);
      if txid in Step(p, s, a).disk.tables.txs && txid !in s.disk.tables.txs {
        assert All(p)[Position(p, s)].SaveTx? && All(p)[Position(p, s)].txid == txid;
      }
    }
  }

  lemma ExecuteTxs(p: Plan, s: State, i: Instr, answered: bool)
    ensures Execute(p, s, i, answered).disk.tables.txs == s.disk.tables.txs
            || (i.SaveTx? && Execute(p, s, i, answered).disk.tables.txs == s.disk.tables.txs[i.txid := i.tx])
  {
    if i.InsertOp? {
      InsertTables(p, s, i, answered);
    } else {
      EffectTables(p, s, i, answered);
      assert Effect(s.disk.tables, i).txs == Offer(s.disk.tables.txs, TxPut(i));
    }
  }

  lemma SameScripts(p: Plan, q: Plan)
    requires p.Length() == q.Length() && forall m :: 1 <= m <= p.Length() ==> p.Script(m) == q.Script(m)
    ensures All(p) == All(q)
  {
    forall k | 0 <= k < p.Length() ensures p.scripts[k] == q.scripts[k] {
      assert p.Script(k + 1) == q.Script(k + 1);
    }
    SamePlaces(p, q, p.Length());
  }

  /** So, ids being unique, a transaction found in the database can be saved, and so can all
      before it in its block. */
  lemma StoredTxLeads(w: World, p: Plan, acts: seq<Act>, n: nat, t: nat)
    requires Proper(p) && p.Length() == |w.chain| && UniqueTxids(w)
    requires forall m {:trigger p.Script(m)} :: 1 <= m <= |w.chain| ==> p.Script(m) == BlockScript(w, m)
    requires 1 <= n <= |w.chain| && t < |BlockAt(w, n).txs|
    requires BlockAt(w, n).txs[t].txid in After(p, acts).disk.tables.txs
    ensures TxReached(w, n, t)
  {
    StoredWasScripted(p, acts, BlockAt(w, n).txs[t].txid);
    SameScripts(p, PlanOf(w));
    ScriptedTxLeads(w, n, t);
  }

  lemma ScriptedTxLeads(w: World, n: nat, t: nat)
    requires UniqueTxids(w) && 1 <= n <= |w.chain| && t < |BlockAt(w, n).txs|
    requires Scripted(PlanOf(w), BlockAt(w, n).txs[t].txid)
    ensures TxReached(w, n, t)
  {
    var p, txid := PlanOf(w), BlockAt(w, n).txs[t].txid;
    var i: nat :| i < |All(p)| && All(p)[i].SaveTx? && All(p)[i].txid == txid;
    TxsLaid(w);
    var x, r := OwnerIn(p, TxLayout(w), i);
    TxFramed(w, x.n, x.t);
  }

  lemma TxExactly(w: World, mark: nat, n: nat, t: nat)
    requires UniqueTxids(w) && 1 <= n <= |w.chain| && t < |BlockAt(w, n).txs|
    requires Start(PlanOf(w), n + 1) <= mark <= |All(PlanOf(w))|
    ensures BlockAt(w, n).txs[t].txid in Ideal(PlanOf(w), mark).txs <==> TxReached(w, n, t)
  {
    if TxReached(w, n, t) {
      TxThere(w, mark, n, t);
    } else if BlockAt(w, n).txs[t].txid in Ideal(PlanOf(w), mark).txs {
      var x := TxFrom(w, mark, BlockAt(w, n).txs[t].txid);
    }
  }

  lemma OpExactly(w: World, mark: nat, x: Place)
    requires UniqueTxids(w) && 1 <= x.n <= |w.chain| && x.t < |BlockAt(w, x.n).txs|
    requires Start(PlanOf(w), x.n + 1) <= mark <= |All(PlanOf(w))|
    ensures OperationId(x.n, TxAt(w, x).txid, x.o) in Ideal(PlanOf(w), mark).ops <==> OpReached(w, x)
  {
    var id := OperationId(x.n, TxAt(w, x).txid, x.o);
    if OpReached(w, x) {
      BaseThere(w, mark, x);
    } else if id in Ideal(PlanOf(w), mark).ops {
      var y := BaseFrom(w, mark, id);
      OperationIdInjective(x.n, TxAt(w, x).txid, x.o, y.n, TxAt(w, y).txid, y.o);
    }
  }

  /** Two-level prefix ingestion: after any run with crashes only, of a block scanned to its
      end the stored transactions are exactly the longest prefix in which every leading
      operation type is an integer, and of each of them the stored operations are exactly the
      longest prefix of well-formed operations of known types. */
  lemma PrefixIngestion(w: World, acts: seq<Act>, x: Place)
    requires UniqueTxids(w) && FailStop(acts)
    requires 1 <= x.n <= |w.chain| && x.t < |BlockAt(w, x.n).txs|
    ensures var s, txid := After(PlanOf(w), acts), TxAt(w, x).txid;
            Start(PlanOf(w), x.n + 1) <= s.hwm ==>
              && (txid in s.disk.tables.txs <==> TxReached(w, x.n, x.t))
              && (OperationId(x.n, txid, x.o) in s.disk.tables.ops <==> OpReached(w, x))
  {
    PlanProper(w);
    ReplayConfluenceButHistory(PlanOf(w), acts);
    if Start(PlanOf(w), x.n + 1) <= After(PlanOf(w), acts).hwm {
      TxExactly(w, After(PlanOf(w), acts).hwm, x.n, x.t);
      OpExactly(w, After(PlanOf(w), acts).hwm, x);
    }
  }

  /** Nothing else is ever stored: every row comes from a reached transaction or operation. */
  lemma NothingElse(w: World, acts: seq<Act>)
    requires FailStop(acts)
    ensures forall txid :: txid in After(PlanOf(w), acts).disk.tables.txs ==>
              exists n: nat, t: nat :: TxReached(w, n, t) && BlockAt(w, n).txs[t].txid == txid
    ensures forall id :: id in After(PlanOf(w), acts).disk.tables.ops ==>
              exists x :: OpReached(w, x) && id == OperationId(x.n, TxAt(w, x).txid, x.o)
  {
    var p := PlanOf(w);
    var mark := After(p, acts).hwm;
    PlanProper(w);
    ReplayConfluenceButHistory(p, acts);
    forall txid | txid in Ideal(p, mark).txs
      ensures exists n: nat, t: nat :: TxReached(w, n, t) && BlockAt(w, n).txs[t].txid == txid
    {
      var x := TxFrom(w, mark, txid);
    }
    forall id | id in Ideal(p, mark).ops
      ensures exists x :: OpReached(w, x) && id == OperationId(x.n, TxAt(w, x).txid, x.o)
    {
      var x := BaseFrom(w, mark, id);
    }
  }
}
