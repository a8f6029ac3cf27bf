/** Decoded JSON values, as the exporters and the importer see them after
    `json.load`, with the few Python operations they apply to them. */
module JsonData {
  import opened Common

  /** A JSON value. Integers and floats are both numbers. */
  datatype Json = JNull | JBool(b: bool) | JNum(n: real) | JStr(s: string)
                | JList(items: seq<Json>) | JObj(fields: map<string, Json>)

  /** Python truthiness. */
  predicate Truthy(v: Json) {
    match v
    case JNull => false
    case JBool(b) => b
    case JNum(n) => n != 0.0
    case JStr(s) => s != ""
    case JList(items) => items != []
    case JObj(fields) => fields != map[]
  }

  /** `isinstance(v, (int, float))`; a bool is an int in Python. */
  predicate IsNumber(v: Json) {
    v.JNum? || v.JBool?
  }

  /** The numeric value of a number (True is 1, False is 0). */
  function NumberValue(v: Json): (r: real)
    requires IsNumber(v)
    ensures v.JNum? ==> r == v.n
    ensures v.JBool? ==> r == (if v.b then 1.0 else 0.0)
  {
    if v.JNum? then v.n else if v.b then 1.0 else 0.0
  }

  /** `d.get(key, default)`; a JSON null reads the same as a missing key
      wherever the default is None. */
  function Get(m: map<string, Json>, key: string, default: Json): (r: Json)
    ensures key in m ==> r == m[key]
    ensures key !in m ==> r == default
  {
    if key in m then m[key] else default
  }

  /** `sub` occurs in `s`. */
  predicate Substring(sub: string, s: string) {
    exists i :: 0 <= i <= |s| && StartsWith(s[i..], sub)
  }

  /** `key in v`: key membership for an object, substring for a string,
      element membership for a list; None where Python raises. */
  function In(key: string, v: Json): (r: Option<bool>)
    ensures v.JObj? ==> r == Some(key in v.fields)
    ensures v.JStr? ==> r == Some(Substring(key, v.s))
    ensures v.JList? ==> r == Some(JStr(key) in v.items)
    ensures r.None? <==> v.JNull? || v.JBool? || v.JNum?
  {
    match v
    case JObj(fields) => Some(key in fields)
    case JStr(s) => Some(Substring(key, s))
    case JList(items) => Some(JStr(key) in items)
    case _ => None
  }

  /** The dictionaries a `for d in v` loop visits when each `d` is used
      with `.get`: None where the loop raises (a value that is not
      iterable, or an element that is not an object). Iterating an empty
      string or object visits nothing; a non-empty one yields strings. */
  function Objects(v: Json): (r: Option<seq<map<string, Json>>>)
    ensures v.JList? && (forall i :: 0 <= i < |v.items| ==> v.items[i].JObj?) ==>
              r.Some? && |r.value| == |v.items| && forall i :: 0 <= i < |v.items| ==> r.value[i] == v.items[i].fields
    ensures v.JList? && (exists i :: 0 <= i < |v.items| && !v.items[i].JObj?) ==> r.None?
    ensures v == JStr("") || v == JObj(map[]) ==> r == Some([])
    ensures v.JNull? || v.JBool? || v.JNum? ==> r.None?
  {
    match v
    case JList(items) =>
      if forall i :: 0 <= i < |items| ==> items[i].JObj? then
        Some(seq(|items|, i requires 0 <= i < |items| => items[i].fields))
      else None
    case JStr(s) => if s == "" then Some([]) else None
    case JObj(fields) => if fields == map[] then Some([]) else None
    case _ => None
  }

  /** Python's `<` on two `str` values: code point by code point, a proper
      prefix ranking first. */
  predicate StrLess(a: string, b: string) {
    if a == [] then b != []
    else if b == [] then false
    else if a[0] != b[0] then a[0] < b[0]
    else StrLess(a[1..], b[1..])
  }

  lemma {:induction false} StrLessIrreflexive(a: string)
    ensures !StrLess(a, a)
  {
    if a != [] {
      StrLessIrreflexive(a[1..]);
    }
  }

  lemma {:induction false} StrLessTransitive(a: string, b: string, c: string)
    requires StrLess(a, b) && StrLess(b, c)
    ensures StrLess(a, c)
  {
    if a != [] && a[0] == b[0] && b[0] == c[0] {
      StrLessTransitive(a[1..], b[1..], c[1..]);
    }
  }

  /** Two different strings are ordered one way or the other. */
  lemma {:induction false} StrLessTotal(a: string, b: string)
    requires a != b
    ensures StrLess(a, b) || StrLess(b, a)
  {
    if a != [] && b != [] && a[0] == b[0] {
      assert a == [a[0]] + a[1..] && b == [b[0]] + b[1..];
      StrLessTotal(a[1..], b[1..]);
    }
  }
}
