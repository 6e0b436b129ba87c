/** JSON values as they cross the HTTP boundary (`request.json()`, `JSON.stringify`). */
module Json {
  import opened Common

  datatype Json =
    | JNull
    | JBool(b: bool)
    | JNum(n: real)
    | JStr(s: string)
    | JArr(items: seq<Json>)
    | JObj(fields: map<string, Json>)

  /** Property access on an object: an absent key reads as `undefined`. */
  function Get(fields: map<string, Json>, key: string): Option<Json> {
    if key in fields then Some(fields[key]) else None
  }

  /** A list of strings as a JSON array. */
  function StringArray(ss: seq<string>): (r: seq<Json>)
    ensures |r| == |ss|
  {
    if ss == [] then [] else [JStr(ss[0])] + StringArray(ss[1..])
  }

  /** `z.array(z.string())`: the strings of an array all of whose items are strings. */
  function AsStrings(items: seq<Json>): (r: Option<seq<string>>)
    ensures r.Some? <==> forall i :: 0 <= i < |items| ==> items[i].JStr?
    ensures r.Some? ==> |r.value| == |items| && forall i :: 0 <= i < |items| ==> r.value[i] == items[i].s
  {
    if items == [] then Some([])
    else if !items[0].JStr? then None
    else
      var rest := AsStrings(items[1..]);
      if rest.None? then None
      else Some([items[0].s] + rest.value)
  }

  /** Encoding strings as JSON and reading them back is the identity. */
  lemma {:induction false} AsStringsOfStringArray(ss: seq<string>)
    ensures AsStrings(StringArray(ss)) == Some(ss)
  {
    if ss != [] {
      var items := StringArray(ss);
      AsStringsOfStringArray(ss[1..]);
      assert items[0] == JStr(ss[0]);
      assert items[1..] == StringArray(ss[1..]);
      assert [ss[0]] + ss[1..] == ss;
    }
  }

  /** An array that reads as strings is the encoding of those strings. */
  lemma {:induction false} StringArrayOfAsStrings(items: seq<Json>)
    requires AsStrings(items).Some?
    ensures StringArray(AsStrings(items).value) == items
  {
    if items != [] {
      StringArrayOfAsStrings(items[1..]);
    }
  }
}
