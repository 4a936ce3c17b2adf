/** Parsed JSON values, and the Python operations the integration applies to
    them (`json.loads` gives dicts, lists, strings, numbers, booleans and
    None). An object is its association list in document order, which is the
    iteration order of the Python dict `json.loads` builds. For a repeated
    key `json.loads` keeps the last value while `Lookup` finds the first, so
    the two agree exactly on objects whose keys are distinct
    (`DistinctKeys`). */
module JsonValue {
  import opened Common

  datatype Json =
    | JNull
    | JBool(b: bool)
    | JNum(n: real)
    | JStr(s: string)
    | JArr(items: seq<Json>)
    | JObj(fields: seq<(string, Json)>)

  function Keys(fields: seq<(string, Json)>): (ks: seq<string>)
    ensures |ks| == |fields|
    ensures forall i :: 0 <= i < |fields| ==> ks[i] == fields[i].0
  {
    if fields == [] then [] else [fields[0].0] + Keys(fields[1..])
  }

  function Values(fields: seq<(string, Json)>): (vs: seq<Json>)
    ensures |vs| == |fields|
    ensures forall i :: 0 <= i < |fields| ==> vs[i] == fields[i].1
  {
    if fields == [] then [] else [fields[0].1] + Values(fields[1..])
  }

  /** The value stored under `k`, if any. */
  function Lookup(fields: seq<(string, Json)>, k: string): (r: Option<Json>)
    ensures r.Some? <==> k in Keys(fields)
    ensures r.Some? ==> exists i :: 0 <= i < |fields| && fields[i] == (k, r.value)
  {
    if fields == [] then None
    else if fields[0].0 == k then Some(fields[0].1)
    else Lookup(fields[1..], k)
  }

  /** No key occurs twice, as in every object `json.dumps` writes. */
  predicate DistinctKeys(fields: seq<(string, Json)>)
  {
    forall i, j :: 0 <= i < j < |fields| ==> fields[i].0 != fields[j].0
  }

  /** With distinct keys the entry `Lookup` finds is the only one for its
      key, so it is also the one a Python dict (last entry wins) holds. */
  lemma {:induction false} LookupDistinct(fields: seq<(string, Json)>, k: string, v: Json)
    requires DistinctKeys(fields)
    ensures Lookup(fields, k) == Some(v) <==> (k, v) in fields
  {
    if fields != [] {
      if fields[0].0 == k {
        if (k, v) in fields {
          var i :| 0 <= i < |fields| && fields[i] == (k, v);
          assert i == 0;
        }
      } else {
        assert DistinctKeys(fields[1..]) by {
          forall i, j | 0 <= i < j < |fields[1..]|
            ensures fields[1..][i].0 != fields[1..][j].0
          {
            assert fields[1..][i] == fields[i + 1] && fields[1..][j] == fields[j + 1];
          }
        }
        LookupDistinct(fields[1..], k, v);
        assert (k, v) in fields <==> (k, v) in fields[1..] by {
          assert fields == [fields[0]] + fields[1..];
        }
      }
    }
  }

  /** Python truthiness: None, False, 0, "", [] and {} are false. */
  predicate Truthy(j: Json)
  {
    match j
    case JNull => false
    case JBool(b) => b
    case JNum(n) => n != 0.0
    case JStr(s) => s != ""
    case JArr(items) => items != []
    case JObj(fields) => fields != []
  }

  /** Python `key in container` for a string key: dict membership, substring
      for a string, element equality for a list; TypeError otherwise. */
  function PyIn(key: string, container: Json): (r: Outcome<bool>)
    ensures container.JObj? ==> r == Value(key in Keys(container.fields))
    ensures container.JStr? ==> r == Value(IsSubstring(key, container.s))
    ensures container.JArr? ==> r == Value(JStr(key) in container.items)
    ensures r.Raised? <==> container.JNull? || container.JBool? || container.JNum?
  {
    match container
    case JObj(fields) => Value(key in Keys(fields))
    case JStr(s) => Value(IsSubstring(key, s))
    case JArr(items) => Value(JStr(key) in items)
    case _ => Raised
  }

  /** Python `container.get(key, default)`: only a dict has `get`. */
  function PyGet(container: Json, key: string, default: Json): (r: Outcome<Json>)
    ensures r.Raised? <==> !container.JObj?
    ensures container.JObj? && key in Keys(container.fields) ==>
              r == Value(Lookup(container.fields, key).value)
    ensures container.JObj? && key !in Keys(container.fields) ==> r == Value(default)
  {
    match container
    case JObj(fields) =>
      (match Lookup(fields, key)
       case Some(v) => Value(v)
       case None => Value(default))
    case _ => Raised
  }

  /** Python `container[key]` for a string key: a present dict key gives its
      value; a missing key is a KeyError, any other container a TypeError. */
  function PySubscript(container: Json, key: string): (r: Outcome<Json>)
    ensures r.Value? <==> container.JObj? && key in Keys(container.fields)
    ensures r.Value? ==> Lookup(container.fields, key) == Some(r.value)
  {
    match container
    case JObj(fields) =>
      (match Lookup(fields, key)
       case Some(v) => Value(v)
       case None => Raised)
    case _ => Raised
  }

  /** Python `float(j)`: numbers convert, booleans are 0 and 1, strings go
      through `parse` (None is a ValueError), anything else is a TypeError. */
  function PyFloat(j: Json, parse: string -> Option<real>): (r: Outcome<real>)
    ensures j.JNum? ==> r == Value(j.n)
    ensures j.JStr? ==> (r.Raised? <==> parse(j.s).None?)
    ensures j.JNull? || j.JArr? || j.JObj? ==> r.Raised?
  {
    match j
    case JNum(n) => Value(n)
    case JBool(b) => Value(if b then 1.0 else 0.0)
    case JStr(s) =>
      (match parse(s)
       case Some(x) => Value(x)
       case None => Raised)
    case _ => Raised
  }

  /** Python `for item in j`: a list gives its items, a dict its keys, a
      string its one-character strings; anything else is not iterable. */
  function PyIter(j: Json): (r: Outcome<seq<Json>>)
    ensures j.JArr? ==> r == Value(j.items)
    ensures r.Raised? <==> j.JNull? || j.JBool? || j.JNum?
  {
    match j
    case JArr(items) => Value(items)
    case JObj(fields) => Value(seq(|fields|, i requires 0 <= i < |fields| => JStr(fields[i].0)))
    case JStr(s) => Value(seq(|s|, i requires 0 <= i < |s| => JStr([s[i]])))
    case _ => Raised
  }
}
