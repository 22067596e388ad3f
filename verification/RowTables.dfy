/** A database table as the list of its rows, with a serial id, a logical key the code looks
    rows up by, and the remaining columns. No constraint keeps keys distinct: that they are
    is what find-or-save has to achieve. */
module RowTables {
  import opened Wrappers

  datatype Row<K, V> = Row(id: nat, key: K, value: V)

  datatype Table<K, V> = Table(rows: seq<Row<K, V>>, next: nat)

  /** At most one row per key. */
  predicate UniqueKeys<K(==), V>(rows: seq<Row<K, V>>) {
    forall i, j :: 0 <= i < j < |rows| ==> rows[i].key != rows[j].key
  }

  /** Serial ids are distinct and below the next one. */
  predicate SerialIds<K, V>(rows: seq<Row<K, V>>, next: nat) {
    && (forall i :: 0 <= i < |rows| ==> rows[i].id < next)
    && (forall i, j :: 0 <= i < j < |rows| ==> rows[i].id != rows[j].id)
  }

  predicate Keyed<K(==), V>(t: Table<K, V>) {
    UniqueKeys(t.rows) && SerialIds(t.rows, t.next)
  }

  predicate Holds<K(==), V>(rows: seq<Row<K, V>>, k: K) {
    exists i :: 0 <= i < |rows| && rows[i].key == k
  }

  /** m is what the rows say: every row is in it, and it has no other key. */
  ghost predicate Means<K(!new), V>(rows: seq<Row<K, V>>, m: map<K, V>) {
    && (forall i :: 0 <= i < |rows| ==> rows[i].key in m && m[rows[i].key] == rows[i].value)
    && (forall k {:trigger Holds(rows, k)} :: k in m ==> Holds(rows, k))
  }

  /** Keys are unique, ids are serial, and the rows say exactly what m says. */
  ghost predicate TableIs<K(!new), V>(t: Table<K, V>, m: map<K, V>) {
    Keyed(t) && Means(t.rows, m)
  }

  lemma MeansAppend<K(!new), V>(rows: seq<Row<K, V>>, m: map<K, V>, r: Row<K, V>)
    requires Means(rows, m) && forall i :: 0 <= i < |rows| ==> rows[i].key != r.key
    ensures Means(rows + [r], m[r.key := r.value])
  {
    var all, c := rows + [r], m[r.key := r.value];
    forall k | k in c ensures Holds(all, k) {
      if k == r.key {
        assert all[|rows|].key == k;
      } else {
        assert Holds(rows, k);
        var i :| 0 <= i < |rows| && rows[i].key == k;
        assert all[i].key == k;
      }
    }
  }

  /** SELECT ... WHERE key */
  method FindRow<K(==, !new), V>(t: Table<K, V>, ghost m: map<K, V>, k: K) returns (r: Option<Row<K, V>>)
    requires TableIs(t, m)
    ensures r.Some? <==> k in m
    ensures r.Some? ==> r.value in t.rows && r.value.key == k && r.value.value == m[k]
  {
    for i := 0 to |t.rows|
      invariant forall j :: 0 <= j < i ==> t.rows[j].key != k
    {
      if t.rows[i].key == k {
        return Some(t.rows[i]);
      }
    }
    assert !Holds(t.rows, k);
    return None;
  }

  /** INSERT. Nothing refuses a second row for a key. */
  function Saved<K, V>(t: Table<K, V>, k: K, v: V): Table<K, V> {
    Table(t.rows + [Row(t.next, k, v)], t.next + 1)
  }

  /** A new key stays unique, and only its value is added. */
  lemma SaveNew<K(!new), V>(t: Table<K, V>, m: map<K, V>, k: K, v: V)
    requires TableIs(t, m) && k !in m
    ensures TableIs(Saved(t, k, v), m[k := v])
  {
    MeansAppend(t.rows, m, Row(t.next, k, v));
  }

  /** UPDATE ... WHERE: every row for which hit holds gets the new value. */
  function Rewritten<K, V>(rows: seq<Row<K, V>>, hit: Row<K, V> -> bool, v: V): (r: seq<Row<K, V>>)
    ensures |r| == |rows|
    ensures forall i :: 0 <= i < |rows| ==> r[i] == if hit(rows[i]) then rows[i].(value := v) else rows[i]
  {
    seq(|rows|, i requires 0 <= i < |rows| => if hit(rows[i]) then rows[i].(value := v) else rows[i])
  }

  /** If exactly the row of key k is hit, only its value changes. */
  lemma RewrittenMeans<K(!new), V>(t: Table<K, V>, m: map<K, V>, hit: Row<K, V> -> bool, k: K, v: V)
    requires TableIs(t, m) && k in m
    requires forall i :: 0 <= i < |t.rows| ==> (hit(t.rows[i]) <==> t.rows[i].key == k)
    ensures TableIs(Table(Rewritten(t.rows, hit, v), t.next), m[k := v])
  {
    var rows := Rewritten(t.rows, hit, v);
    RewrittenKeyed(t, hit, v);
    forall x | x in m[k := v] ensures Holds(rows, x) {
      assert Holds(t.rows, x);
      var i :| 0 <= i < |t.rows| && t.rows[i].key == x;
      assert rows[i].key == x;
    }
  }

  lemma RewrittenKeyed<K, V>(t: Table<K, V>, hit: Row<K, V> -> bool, v: V)
    requires Keyed(t)
    ensures Keyed(Table(Rewritten(t.rows, hit, v), t.next))
  {
  }

  /** UPDATE ... WHERE id */
  function UpdatedById<K, V>(t: Table<K, V>, id: nat, v: V): Table<K, V> {
    Table(Rewritten(t.rows, (row: Row<K, V>) => row.id == id, v), t.next)
  }

  /** An update by the id of a row read before changes that row's key only. */
  lemma UpdateById<K(!new), V>(t: Table<K, V>, m: map<K, V>, row: Row<K, V>, v: V)
    requires TableIs(t, m) && row in t.rows
    ensures TableIs(UpdatedById(t, row.id, v), m[row.key := v])
  {
    var i :| 0 <= i < |t.rows| && t.rows[i] == row;
    RewrittenMeans(t, m, (r: Row<K, V>) => r.id == row.id, row.key, v);
  }

  /** UPDATE ... WHERE key */
  function UpdatedByKey<K(==), V>(t: Table<K, V>, k: K, v: V): Table<K, V> {
    Table(Rewritten(t.rows, (row: Row<K, V>) => row.key == k, v), t.next)
  }

  lemma UpdateByKey<K(!new), V>(t: Table<K, V>, m: map<K, V>, k: K, v: V)
    requires TableIs(t, m) && k in m
    ensures TableIs(UpdatedByKey(t, k, v), m[k := v])
  {
    RewrittenMeans(t, m, (r: Row<K, V>) => r.key == k, k, v);
  }
}
