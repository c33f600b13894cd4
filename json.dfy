/** JSON values as `JSON.parse` produces them, with the JavaScript operations
    the application applies to them: property access, truthiness, `||` and
    `Array.isArray`. `JSON.parse` itself is not defined here; the callers take
    it as a partial function from text to values. */
module Json {
  import opened Util

  datatype Json =
    | JNull
    | JBool(b: bool)
    | JNum(n: real)
    | JStr(s: string)
    | JArr(elems: seq<Json>)
    | JObj(fields: map<string, Json>)

  /** What `v.key` evaluates to. */
  datatype Lookup = TypeError | Undefined | Found(value: Json)

  /** Property access `v.key` for one of the application's own keys: it throws
      on `null`, and is `undefined` unless `v` is an object with that key. */
  function Prop(v: Json, key: string): (r: Lookup)
    ensures r == TypeError <==> v == JNull
    ensures r.Found? <==> v.JObj? && key in v.fields
    ensures r.Found? ==> r.value == v.fields[key]
  {
    match v
    case JNull => TypeError
    case JObj(m) => if key in m then Found(m[key]) else Undefined
    case _ => Undefined
  }

  /** ECMAScript ToBoolean on a JSON value (JSON has no NaN). */
  predicate Truthy(v: Json) {
    match v
    case JNull => false
    case JBool(b) => b
    case JNum(n) => n != 0.0
    case JStr(s) => s != []
    case _ => true
  }

  /** `v.key || dflt` after a successful access. */
  function OrElse(l: Lookup, dflt: Json): (r: Json)
    requires l != TypeError
    ensures l.Found? && Truthy(l.value) ==> r == l.value
    ensures !(l.Found? && Truthy(l.value)) ==> r == dflt
  {
    if l.Found? && Truthy(l.value) then l.value else dflt
  }

  /** The string values among `xs`, in order. */
  function StringElems(xs: seq<Json>): (r: seq<string>)
    ensures |r| <= |xs|
    ensures forall x :: x in r <==> JStr(x) in xs
  {
    if xs == [] then []
    else
      assert forall x :: JStr(x) in xs <==> JStr(x) == xs[0] || JStr(x) in xs[1..];
      (if xs[0].JStr? then [xs[0].s] else []) + StringElems(xs[1..])
  }

  /** The identifier list held by a value: the string elements of an array,
      nothing for any other value. */
  function Strings(v: Json): (r: seq<string>)
    ensures !v.JArr? ==> r == []
    ensures forall x :: x in r <==> v.JArr? && JStr(x) in v.elems
  {
    if v.JArr? then StringElems(v.elems) else []
  }

  /** The JSON array of the given strings. */
  function StrArray(xs: seq<string>): Json {
    JArr(seq(|xs|, k requires 0 <= k < |xs| => JStr(xs[k])))
  }

  /** An array of strings is read back unchanged. */
  lemma {:induction false} StringsOfStrArray(xs: seq<string>)
    ensures Strings(StrArray(xs)) == xs
  {
    if xs != [] {
      StringsOfStrArray(xs[1..]);
      assert StrArray(xs).elems[1..] == StrArray(xs[1..]).elems;
    }
  }
}
