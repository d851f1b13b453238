/**
 * Decoded JSON values as Python sees them, with the few operations the
 * program applies to them: truthiness, `dict.get` and iteration.  Calling
 * `.get` on anything but a dict raises AttributeError; iterating a number,
 * a boolean or None raises TypeError.
 */
module Json {
  import opened Wrappers

  datatype Json =
    | JNull
    | JBool(b: bool)
    | JNum(n: int)
    | JStr(s: string)
    | JList(items: seq<Json>)
    | JObject(fields: map<string, Json>)

  datatype PyError = AttributeError | TypeError | KeyError | ValueError

  /** Python truthiness. */
  predicate Truthy(j: Json)
  {
    match j
    case JNull => false
    case JBool(b) => b
    case JNum(n) => n != 0
    case JStr(s) => s != ""
    case JList(items) => items != []
    case JObject(fields) => fields != map[]
  }

  /** `j.get(key, default)`. */
  function Get(j: Json, key: string, default: Json): (r: Result<Json, PyError>)
    ensures r.Err? <==> !j.JObject?
    ensures r.Err? ==> r.error == AttributeError
    ensures j.JObject? && key in j.fields ==> r == Ok(j.fields[key])
    ensures j.JObject? && key !in j.fields ==> r == Ok(default)
  {
    if !j.JObject? then Err(AttributeError)
    else if key in j.fields then Ok(j.fields[key])
    else Ok(default)
  }

  /**
   * `j.get(key) == value`: true only when the key is present with that
   * value, since a missing key reads as None (unless `value` is None).
   */
  function GetEquals(j: Json, key: string, value: Json): (r: Result<bool, PyError>)
    requires value != JNull
    ensures r.Err? <==> !j.JObject?
    ensures r.Ok? ==> (r.value <==> key in j.fields && j.fields[key] == value)
  {
    match Get(j, key, JNull)
    case Err(e) => Err(e)
    case Ok(v) => Ok(v == value)
  }

  /** s <= t for Python strings: code points compared left to right, a prefix first. */
  predicate StrLe(s: string, t: string)
  {
    s == [] || (t != [] && (s[0] < t[0] || (s[0] == t[0] && StrLe(s[1..], t[1..]))))
  }

  lemma {:induction false} StrLeTotal(s: string, t: string)
    ensures StrLe(s, t) || StrLe(t, s)
  {
    if s != [] && t != [] && s[0] == t[0] {
      StrLeTotal(s[1..], t[1..]);
    }
  }

  lemma {:induction false} StrLeAntisymmetric(s: string, t: string)
    requires StrLe(s, t) && StrLe(t, s)
    ensures s == t
  {
    if s != [] && t != [] {
      StrLeAntisymmetric(s[1..], t[1..]);
      assert s == [s[0]] + s[1..] && t == [t[0]] + t[1..];
    }
  }

  lemma {:induction false} StrLeTransitive(s: string, t: string, u: string)
    requires StrLe(s, t) && StrLe(t, u)
    ensures StrLe(s, u)
  {
    if s != [] && t != [] && u != [] && s[0] == t[0] && t[0] == u[0] {
      StrLeTransitive(s[1..], t[1..], u[1..]);
    }
  }

  /** Every non-empty finite set of strings has a least element. */
  lemma {:induction false} HasLeast(keys: set<string>)
    requires keys != {}
    ensures exists k :: k in keys && forall j :: j in keys ==> StrLe(k, j)
    decreases |keys|
  {
    var x :| x in keys;
    if keys - {x} == {} {
      assert keys == {x};
      StrLeTotal(x, x);
      assert forall j :: j in keys ==> StrLe(x, j);
    } else {
      HasLeast(keys - {x});
      var m :| m in keys - {x} && forall j :: j in keys - {x} ==> StrLe(m, j);
      LeastWithOneMore(keys, x, m);
    }
  }

  /** The lesser of `x` and the least of the other strings is the least of them all. */
  lemma LeastWithOneMore(keys: set<string>, x: string, m: string)
    requires x in keys && m in keys && forall j :: j in keys - {x} ==> StrLe(m, j)
    ensures exists k :: k in keys && forall j :: j in keys ==> StrLe(k, j)
  {
    StrLeTotal(x, m);
    if StrLe(x, m) {
      forall j | j in keys ensures StrLe(x, j) {
        if j == x { StrLeTotal(x, x); } else { StrLeTransitive(x, m, j); }
      }
    } else {
      forall j | j in keys ensures StrLe(m, j) {
        if j == x { StrLeTotal(m, x); }
      }
    }
  }

  /** The least string of a non-empty set. */
  function Least(keys: set<string>): (k: string)
    requires keys != {}
    ensures k in keys && forall j :: j in keys ==> StrLe(k, j)
  {
    HasLeast(keys);
    assert forall a, b :: a in keys && b in keys && StrLe(a, b) && StrLe(b, a) ==> a == b by {
      forall a, b | a in keys && b in keys && StrLe(a, b) && StrLe(b, a) ensures a == b {
        StrLeAntisymmetric(a, b);
      }
    }
    var k :| k in keys && forall j :: j in keys ==> StrLe(k, j);
    k
  }

  /** The strings of a set, each once, in increasing order. */
  function SortedKeys(keys: set<string>): (r: seq<string>)
    ensures |r| == |keys|
    ensures forall k :: k in keys <==> k in r
    ensures forall i, j :: 0 <= i < j < |r| ==> StrLe(r[i], r[j]) && r[i] != r[j]
    decreases |keys|
  {
    if keys == {} then []
    else
      var k := Least(keys);
      var rest := SortedKeys(keys - {k});
      LeastThenSorted(keys, k, rest);
      [k] + rest
  }

  /** The least key followed by the others in increasing order, each once, is in increasing order, each once. */
  lemma LeastThenSorted(keys: set<string>, k: string, rest: seq<string>)
    requires k in keys && forall j :: j in keys ==> StrLe(k, j)
    requires forall x :: x in keys - {k} <==> x in rest
    requires forall i, j :: 0 <= i < j < |rest| ==> StrLe(rest[i], rest[j]) && rest[i] != rest[j]
    ensures forall i, j :: 0 <= i < j < |[k] + rest| ==> StrLe(([k] + rest)[i], ([k] + rest)[j]) && ([k] + rest)[i] != ([k] + rest)[j]
  {
    var r := [k] + rest;
    forall i, j | 0 <= i < j < |r| ensures StrLe(r[i], r[j]) && r[i] != r[j] {
      assert r[j] == rest[j - 1] && rest[j - 1] in rest;
      if i > 0 { assert r[i] == rest[i - 1]; }
    }
  }

  /**
   * The elements `for x in j` visits.  A string yields its characters and a
   * dict its keys.  Python visits a dict's keys in insertion order, which a
   * map does not keep; here they come in increasing order, each once.
   */
  function Elements(j: Json): (r: Result<seq<Json>, PyError>)
    ensures r.Err? <==> j.JNull? || j.JBool? || j.JNum?
    ensures r.Err? ==> r.error == TypeError
    ensures j.JList? ==> r == Ok(j.items)
    ensures j.JStr? ==> r.Ok? && |r.value| == |j.s| && forall i :: 0 <= i < |j.s| ==> r.value[i] == JStr([j.s[i]])
    ensures j.JObject? ==> r.Ok? && |r.value| == |j.fields|
    ensures j.JObject? ==> forall i :: 0 <= i < |r.value| ==> r.value[i].JStr? && r.value[i].s in j.fields
    ensures j.JObject? ==> forall k :: k in j.fields ==> JStr(k) in r.value
    ensures r.Ok? ==> (|r.value| == 0 <==> !Truthy(j))
  {
    match j
    case JList(items) => Ok(items)
    case JStr(s) => Ok(Characters(s))
    case JObject(fields) => Ok(Keys(fields))
    case _ => Err(TypeError)
  }

  /** The one-character strings iterating `s` yields. */
  function Characters(s: string): (r: seq<Json>)
    ensures |r| == |s| && forall i :: 0 <= i < |s| ==> r[i] == JStr([s[i]])
  {
    seq(|s|, i requires 0 <= i < |s| => JStr([s[i]]))
  }

  /** The keys iterating a dict yields, each once. */
  function Keys(fields: map<string, Json>): (r: seq<Json>)
    ensures |r| == |fields|
    ensures forall i :: 0 <= i < |r| ==> r[i].JStr? && r[i].s in fields
    ensures forall k :: k in fields ==> JStr(k) in r
  {
    var keys := SortedKeys(fields.Keys);
    var r := seq(|keys|, i requires 0 <= i < |keys| => JStr(keys[i]));
    assert forall k :: k in fields ==> JStr(k) in r by {
      forall k | k in fields ensures JStr(k) in r {
        var i :| 0 <= i < |keys| && keys[i] == k;
        assert r[i] == JStr(k);
      }
    }
    r
  }
}
