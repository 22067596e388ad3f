/** A table filled by find-or-save: the first value offered for a key stays. */
module Collect {
  import opened Wrappers

  datatype Put<K, V> = Put(key: K, value: V)

  function PutIfAbsent<K, V>(m: map<K, V>, k: K, v: V): map<K, V> {
    if k in m then m else m[k := v]
  }

  function Offer<K, V>(m: map<K, V>, put: Option<Put<K, V>>): map<K, V> {
    if put.Some? then PutIfAbsent(m, put.value.key, put.value.value) else m
  }

  /** The table after the items of a were executed in order; f says what an item offers. */
  function Collected<I, K, V>(a: seq<I>, f: I -> Option<Put<K, V>>): map<K, V> {
    if a == [] then map[] else Offer(Collected(a[..|a| - 1], f), f(a[|a| - 1]))
  }

  /** Item i offers a value for k. */
  predicate Offers<I, K(==), V>(a: seq<I>, f: I -> Option<Put<K, V>>, i: int, k: K) {
    0 <= i < |a| && f(a[i]).Some? && f(a[i]).value.key == k
  }

  /** Item i is the first to offer a value for k. */
  predicate FirstOffer<I, K(==), V>(a: seq<I>, f: I -> Option<Put<K, V>>, i: int, k: K) {
    Offers(a, f, i, k) && forall j :: 0 <= j < i ==> !Offers(a, f, j, k)
  }

  lemma {:induction false} CollectedAt<I, K, V>(a: seq<I>, f: I -> Option<Put<K, V>>, k: K) returns (i: int)
    ensures k in Collected(a, f) ==> FirstOffer(a, f, i, k) && Collected(a, f)[k] == f(a[i]).value.value
    ensures k !in Collected(a, f) ==> forall j :: !Offers(a, f, j, k)
  {
    i := -1;
    if a != [] {
      var front := a[..|a| - 1];
      i := CollectedAt(front, f, k);
      forall j ensures Offers(a, f, j, k) <==> Offers(front, f, j, k) || (j == |a| - 1 && Offers(a, f, j, k)) {
      }
      if k !in Collected(front, f) && k in Collected(a, f) {
        i := |a| - 1;
      }
    }
  }

  /** A key is in the table exactly if something offered it. */
  lemma KeyExactly<I, K, V>(a: seq<I>, f: I -> Option<Put<K, V>>, k: K)
    ensures k in Collected(a, f) <==> exists i :: Offers(a, f, i, k)
  {
    var i := CollectedAt(a, f, k);
  }

  /** The stored value is the first one offered. */
  lemma FirstWriter<I, K, V>(a: seq<I>, f: I -> Option<Put<K, V>>, i: int, k: K)
    requires FirstOffer(a, f, i, k)
    ensures k in Collected(a, f) && Collected(a, f)[k] == f(a[i]).value.value
  {
    var j := CollectedAt(a, f, k);
  }
}
