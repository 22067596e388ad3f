/** JSON values as the scanner sees them after decoding with UseNumber. */
module Json {
  import opened Wrappers
  import opened Numerals

  /** JNumber keeps the literal (json.Number); JInt is an int the scanner itself stores. */
  datatype Json =
    | JNull
    | JBool(b: bool)
    | JNumber(literal: string)
    | JInt(n: int)
    | JString(s: string)
    | JArray(items: seq<Json>)
    | JObject(fields: map<string, Json>)

  type Fields = map<string, Json>

  /** mapGetString and getStringPropFromJSONObj: present and a string. */
  function GetString(m: Fields, key: string): Option<string> {
    if key in m && m[key].JString? then Some(m[key].s) else None
  }

  /** getIntPropFromJSONObj on a decoded object: only a json.Number holding an int64. */
  function GetInt(m: Fields, key: string): Option<int> {
    if key in m && m[key].JNumber? then Atoi(m[key].literal) else None
  }

  /** The value of the first listed property that is present and a string. */
  function FirstString(props: seq<string>, m: Fields): Option<string> {
    if props == [] then None
    else
      var v := GetString(m, props[0]);
      if v.Some? then v else FirstString(props[1..], m)
  }

  /** The first listed property that is present with any type, as a string or "". */
  function FirstPresent(props: seq<string>, m: Fields): string {
    if props == [] then ""
    else if props[0] in m then (if m[props[0]].JString? then m[props[0]].s else "")
    else FirstPresent(props[1..], m)
  }

  /** objToStringArray */
  function StringArray(j: Json): Option<seq<string>> {
    if j.JArray? then Strings(j.items) else None
  }

  function Strings(items: seq<Json>): Option<seq<string>> {
    if items == [] then Some([])
    else if !items[0].JString? then None
    else
      var rest := Strings(items[1..]);
      if rest.Some? then Some([items[0].s] + rest.value) else None
  }

  /** isAllInArray */
  predicate AllIn(items: seq<string>, arr: seq<string>) {
    forall i :: 0 <= i < |items| ==> items[i] in arr
  }
}
