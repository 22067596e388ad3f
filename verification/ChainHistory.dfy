/** Transfer history, read off the chain: which event of an operation its history row is of. */
module ChainHistory {
  import opened Wrappers
  import opened Chain
  import opened Tables
  import opened Readings
  import opened Script
  import opened Plans
  import opened BlockFacts
  import opened Collect
  import opened Machine
  import opened Replay
  import opened Confluence
  import opened FirstWriters
  import opened EventLog
  import opened ChainMisses

  /** The first event of its operation that records a history row, and the row. */
  ghost predicate FirstRecords(log: EventMap, blocks: nat, x: Spot, row: HistoryRow) {
    && Records(log, blocks, x) && IsRowOf(row, x.n, log.event(x).value)
    && forall k: nat :: k < x.k ==> !Records(log, blocks, x.(k := k))
  }

  /** What the first instruction of a recording event offers. */
  lemma RecordPut(p: Plan, log: EventMap, pos: Spot -> nat, x: Spot)
    requires EventsLaid(p, log, pos) && Records(log, p.Length(), x)
    ensures pos(x) < |All(p)| && 1 <= x.n <= p.Length() && pos(x) < Start(p, x.n + 1)
    ensures Offers(All(p), i => TransferPut(All(p), i), pos(x), log.key(x))
  {
    assert EventStands(p, log, pos, x);
    InstrAt(p, log, pos, x, 0);
    EverRegistered(p, log, pos, log.event(x).value.contract);
  }

  /** What an event offers to the history is its row, under its operation's key. */
  lemma OfferedBy(p: Plan, log: EventMap, pos: Spot -> nat, x: Spot, r: nat, key: ReceiptKey)
    requires EventsLaid(p, log, pos) && log.event(x).Some? && r < |Instrs(log, x)|
    requires Offers(All(p), i => TransferPut(All(p), i), pos(x) + r, key)
    ensures r == 0 && log.key(x) == key && Records(log, p.Length(), x)
    ensures IsRowOf(TransferPut(All(p), All(p)[pos(x)]).value.value, x.n, log.event(x).value)
    ensures 1 <= x.n <= p.Length()
  {
    assert EventStands(p, log, pos, x);
    InstrAt(p, log, pos, x, r);
    EverRegistered(p, log, pos, log.event(x).value.contract);
  }

  /** The event that a history row is of. */
  lemma HistoryFrom(p: Plan, log: EventMap, pos: Spot -> nat, n: nat, key: ReceiptKey) returns (x: Spot)
    requires EventsLaid(p, log, pos) && EventsFollowRegistration(All(p)) && n <= |All(p)|
    requires key in Ideal(p, n).history
    ensures log.key(x) == key && FirstRecords(log, p.Length(), x, Ideal(p, n).history[key])
    ensures 1 <= x.n <= p.Length() && Start(p, x.n) < n
  {
    var a, f := All(p), i => TransferPut(All(p), i);
    HistoryCollected(a, n);
    var i := CollectedAt(a[..n], f, key);
    assert OfSomeEvent(log, pos, i);
    x :| log.event(x).Some? && pos(x) <= i < pos(x) + |Instrs(log, x)|;
    OfferedBy(p, log, pos, x, i - pos(x), key);
    assert EventStands(p, log, pos, x);
    NoneBefore(p, log, pos, n, x, i);
  }

  lemma NoneBefore(p: Plan, log: EventMap, pos: Spot -> nat, n: nat, x: Spot, i: nat)
    requires EventsLaid(p, log, pos) && log.event(x).Some? && i == pos(x) && i < n <= |All(p)|
    requires FirstOffer(All(p)[..n], j => TransferPut(All(p), j), i, log.key(x))
    ensures forall k: nat :: k < x.k ==> !Records(log, p.Length(), x.(k := k))
  {
    forall k: nat | k < x.k ensures !Records(log, p.Length(), x.(k := k)) {
      if Records(log, p.Length(), x.(k := k)) {
        RecordPut(p, log, pos, x.(k := k));
        assert Ordered(log, pos, x.(k := k), x);
        assert Offers(All(p)[..n], j => TransferPut(All(p), j), pos(x.(k := k)), log.key(x));
      }
    }
  }

  lemma HistoryThere(p: Plan, log: EventMap, pos: Spot -> nat, n: nat, x: Spot)
    requires EventsLaid(p, log, pos) && EventsFollowRegistration(All(p)) && Records(log, p.Length(), x)
    requires x.n <= p.Length() && Start(p, x.n + 1) <= n <= |All(p)|
    ensures log.key(x) in Ideal(p, n).history
  {
    var a, f := All(p), i => TransferPut(All(p), i);
    RecordPut(p, log, pos, x);
    HistoryCollected(a, n);
    assert Offers(a[..n], f, pos(x), log.key(x));
    KeyExactly(a[..n], f, log.key(x));
  }

  /** In any run with crashes only, the history row of an operation is that of its first
      decodable Transfer of a token contract whose row fits: contract, both sides, amount and
      block number; and it is there once the block has been scanned. */
  lemma HistoryOnChain(w: World, acts: seq<Act>, key: ReceiptKey)
    requires UniqueTxids(w) && EventsFollowRegistration(All(PlanOf(w))) && FailStop(acts)
    ensures var s, log := After(PlanOf(w), acts), LogOf(w);
            && (key in s.disk.tables.history ==>
                  exists x :: log.key(x) == key && FirstRecords(log, |w.chain|, x, s.disk.tables.history[key])
                              && Start(PlanOf(w), x.n) < s.hwm)
            && (forall x {:trigger Records(log, |w.chain|, x)} ::
                  Records(log, |w.chain|, x) && log.key(x) == key && Start(PlanOf(w), x.n + 1) <= s.hwm ==>
                  key in s.disk.tables.history)
  {
    var p, s, log := PlanOf(w), After(PlanOf(w), acts), LogOf(w);
    PlanProper(w);
    LogLaid(w);
    ReplayConfluence(p, acts);
    if key in s.disk.tables.history {
      var x := HistoryFrom(p, log, EventPosOf(w), s.hwm, key);
    }
    forall x | Records(log, |w.chain|, x) && log.key(x) == key && Start(p, x.n + 1) <= s.hwm
      ensures key in s.disk.tables.history
    {
      HistoryThere(p, log, EventPosOf(w), s.hwm, x);
    }
  }
}
