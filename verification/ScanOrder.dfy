/** Which operation of the chain a find-or-save table got its row from: the first in scan order
    that offers one under the key. */
module ScanOrder {
  import opened Wrappers
  import opened Script
  import opened Plans
  import opened Collect
  import opened Readings
  import opened Places

  /** Some instruction of operation x offers a value for k. */
  ghost predicate OffersAt<K(!new), V(!new)>(l: Layout, f: Instr -> Option<Put<K, V>>, x: Place, k: K) {
    l.log(x).Some? && exists r :: Offers(l.log(x).value, f, r, k)
  }

  /** Only instructions of that kind offer anything. */
  ghost predicate Only<K(!new), V(!new)>(f: Instr -> Option<Put<K, V>>, kind: Instr -> bool) {
    forall i {:trigger f(i)} :: f(i).Some? ==> kind(i)
  }

  /** The operation that a stored value comes from, and which of its instructions. */
  lemma FirstPlace<K(!new), V(!new)>(p: Plan, l: Layout, f: Instr -> Option<Put<K, V>>, k: K, n: nat)
    returns (x: Place, r: nat)
    requires Laid(p, l) && Only(f, l.kind) && n <= |All(p)| && k in Collected(All(p)[..n], f)
    ensures l.log(x).Some? && r < |l.log(x).value| && Offers(l.log(x).value, f, r, k)
    ensures 1 <= x.n <= p.Length() && Start(p, x.n) < n
    ensures Collected(All(p)[..n], f)[k] == f(l.log(x).value[r]).value.value
    ensures forall q :: 0 <= q < r ==> !Offers(l.log(x).value, f, q, k)
    ensures forall y :: Earlier(y, x) ==> !OffersAt(l, f, y, k)
  {
    var a := All(p);
    var i := CollectedAt(a[..n], f, k);
    assert Belongs(l.log, l.pos, i);
    x :| l.log(x).Some? && l.pos(x) <= i < l.pos(x) + |l.log(x).value|;
    r := i - l.pos(x);
    assert Stands(p, l.log, l.pos, x);
    forall q | 0 <= q < r ensures !Offers(l.log(x).value, f, q, k) {
      assert !Offers(a[..n], f, l.pos(x) + q, k);
    }
    forall y | Earlier(y, x) ensures !OffersAt(l, f, y, k) {
      if OffersAt(l, f, y, k) {
        var q :| Offers(l.log(y).value, f, q, k);
        assert Stands(p, l.log, l.pos, y) && InOrder(l.log, l.pos, y, x);
        assert Offers(a[..n], f, l.pos(y) + q, k);
      }
    }
  }

  /** What an operation offers is stored once its block has been scanned. */
  lemma PlaceStored<K(!new), V(!new)>(p: Plan, l: Layout, f: Instr -> Option<Put<K, V>>, k: K, n: nat,
                                      x: Place)
    requires Laid(p, l) && OffersAt(l, f, x, k) && x.n <= p.Length() && Start(p, x.n + 1) <= n <= |All(p)|
    ensures k in Collected(All(p)[..n], f)
  {
    var r :| Offers(l.log(x).value, f, r, k);
    assert Stands(p, l.log, l.pos, x);
    assert Offers(All(p)[..n], f, l.pos(x) + r, k);
    KeyExactly(All(p)[..n], f, k);
  }

  /** The same for the first blocks. */
  lemma FirstUpTo<K(!new), V(!new)>(p: Plan, l: Layout, f: Instr -> Option<Put<K, V>>, k: K,
                                    last: nat) returns (x: Place, r: nat)
    requires Laid(p, l) && Only(f, l.kind) && last <= p.Length() && Start(p, last + 1) <= |All(p)|
    requires k in Collected(All(p)[..Start(p, last + 1)], f)
    ensures l.log(x).Some? && r < |l.log(x).value| && Offers(l.log(x).value, f, r, k) && x.n <= last
  {
    x, r := FirstPlace(p, l, f, k, Start(p, last + 1));
    assert Stands(p, l.log, l.pos, x);
    if x.n > last {
      StartMonotone(p, last + 1, x.n);
    }
  }

  lemma StoredUpTo<K(!new), V(!new)>(p: Plan, l: Layout, f: Instr -> Option<Put<K, V>>, k: K,
                                     last: nat, x: Place)
    requires Laid(p, l) && OffersAt(l, f, x, k) && x.n <= last <= p.Length() && Start(p, last + 1) <= |All(p)|
    ensures k in Collected(All(p)[..Start(p, last + 1)], f)
  {
    assert Stands(p, l.log, l.pos, x);
    StartMonotone(p, x.n + 1, last + 1);
    PlaceStored(p, l, f, k, Start(p, last + 1), x);
  }
}
