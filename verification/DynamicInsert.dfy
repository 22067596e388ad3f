/** The INSERT statement of a dynamic operation: three lists grown side by side in a loop over
    the operation's JSON, whose iteration order Go leaves open. */
module DynamicInsert {
  import opened Wrappers
  import opened Json
  import opened Tables

  /** The statement's column names, the numbers of its placeholders, and the values bound to
      them in order. */
  datatype Statement = Statement(columns: seq<string>, placeholders: seq<nat>, values: seq<SqlValue>)

  predicate Distinct(s: seq<string>) {
    forall i, j :: 0 <= i < j < |s| ==> s[i] != s[j]
  }

  /** Placeholder k stands at place k - 1 and is bound to value k; no column is named twice. */
  predicate WellFormed(st: Statement) {
    && |st.columns| == |st.placeholders| == |st.values|
    && (forall k :: 0 <= k < |st.placeholders| ==> st.placeholders[k] == k + 1)
    && Distinct(st.columns)
  }

  /** What the database stores: column k of the list gets the value bound to its placeholder. */
  function Denotes(st: Statement): SqlRow
    requires WellFormed(st)
  {
    Pairs(st.columns, st.values)
  }

  function Pairs(columns: seq<string>, values: seq<SqlValue>): SqlRow
    requires |columns| == |values|
  {
    if columns == [] then map[]
    else Pairs(columns[..|columns| - 1], values[..|values| - 1])[columns[|columns| - 1] := values[|values| - 1]]
  }

  lemma PairsAppend(columns: seq<string>, values: seq<SqlValue>, c: string, v: SqlValue)
    requires |columns| == |values|
    ensures Pairs(columns + [c], values + [v]) == Pairs(columns, values)[c := v]
  {
    assert (columns + [c])[..|columns|] == columns && (values + [v])[..|values|] == values;
  }

  function ToSet(columns: seq<string>): set<string> {
    set i | 0 <= i < |columns| :: columns[i]
  }

  lemma WellFormedAppend(st: Statement, c: string, v: SqlValue)
    requires WellFormed(st) && c !in st.columns
    ensures WellFormed(Statement(st.columns + [c], st.placeholders + [|st.placeholders| + 1], st.values + [v]))
  {
  }

  /** HasColumn */
  method HasColumn(columns: seq<string>, name: string) returns (found: bool)
    ensures found <==> name in ToSet(columns)
  {
    for i := 0 to |columns|
      invariant forall j :: 0 <= j < i ==> columns[j] != name
    {
      if columns[i] == name {
        return true;
      }
    }
    return false;
  }

  /** The part of the JSON the loop has already been through, restricted to the columns. */
  function Taken(columns: set<string>, fields: Fields, left: set<string>): SqlRow {
    map k | k in fields && k !in left && k in columns :: Encode(fields[k])
  }

  lemma TakenNext(columns: set<string>, fields: Fields, left: set<string>, key: string)
    requires key in left && left <= fields.Keys
    ensures Taken(columns, fields, left - {key})
            == if key in columns then Taken(columns, fields, left)[key := Encode(fields[key])]
               else Taken(columns, fields, left)
  {
  }

  /** The loop of InsertDynamicOperation. Whatever order the keys come in, the statement
      denotes exactly the JSON restricted to the table's columns, each value encoded. */
  method BuildInsert(columns: seq<string>, fields: Fields) returns (st: Statement)
    ensures WellFormed(st)
    ensures Denotes(st) == RowOf(ToSet(columns), fields)
  {
    var names: seq<string>, marks: seq<nat>, values: seq<SqlValue> := [], [], [];
    var left := fields.Keys;
    while left != {}
      invariant left <= fields.Keys
      invariant WellFormed(Statement(names, marks, values))
      invariant forall name :: name in left ==> name !in names
      invariant Pairs(names, values) == Taken(ToSet(columns), fields, left)
      decreases |left|
    {
      var key :| key in left;
      TakenNext(ToSet(columns), fields, left, key);
      left := left - {key};
      var known := HasColumn(columns, key);
      if known {
        PairsAppend(names, values, key, Encode(fields[key]));
        WellFormedAppend(Statement(names, marks, values), key, Encode(fields[key]));
        names, marks, values := names + [key], marks + [|marks| + 1], values + [Encode(fields[key])];
      }
    }
    st := Statement(names, marks, values);
    assert Taken(ToSet(columns), fields, {}) == RowOf(ToSet(columns), fields);
  }
}
