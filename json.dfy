/** The JSON-like values that settings, request bodies and API documents hold. */
module Json {
  import opened Wrappers
  import opened PyStr

  /** A Python value of the kinds this package stores in dicts: None, bool, int, str, list, dict. */
  datatype Value =
    | JNull
    | JBool(b: bool)
    | JInt(i: int)
    | JStr(s: string)
    | JArray(items: seq<Value>)
    | JObject(fields: map<string, Value>)

  /** A Python list of strings. */
  function StrList(xs: seq<string>): (r: Value)
    ensures r.JArray? && |r.items| == |xs|
    ensures forall i :: 0 <= i < |xs| ==> r.items[i] == JStr(xs[i])
  {
    JArray(seq(|xs|, i requires 0 <= i < |xs| => JStr(xs[i])))
  }

  /**
   * Python `name in container` for a string `name`: a substring test on a str, an element
   * test on a list, a key test on a dict. None stands for the TypeError raised for None,
   * a bool or an int, which support no membership test.
   */
  function Contains(container: Value, name: string): (r: Option<bool>)
    ensures r.None? <==> container.JNull? || container.JBool? || container.JInt?
    ensures container.JStr? ==> r == Some(IsSubstring(name, container.s))
    ensures container.JArray? ==> r == Some(JStr(name) in container.items)
    ensures container.JObject? ==> r == Some(name in container.fields)
  {
    match container
    case JStr(s) => Some(IsSubstring(name, s))
    case JArray(items) => Some(JStr(name) in items)
    case JObject(fields) => Some(name in fields)
    case _ => None
  }

  /** A string is in a list of strings exactly when it is one of them. */
  lemma ContainsInList(xs: seq<string>, name: string)
    ensures Contains(StrList(xs), name) == Some(name in xs)
  {
    var items := StrList(xs).items;
    if name in xs {
      var i :| 0 <= i < |xs| && xs[i] == name;
      assert items[i] == JStr(name);
    }
    if JStr(name) in items {
      var i :| 0 <= i < |items| && items[i] == JStr(name);
      assert xs[i] == name;
    }
  }
}
