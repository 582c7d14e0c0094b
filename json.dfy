/**
 * JavaScript values as they appear in request payloads, response bodies and
 * tool results. A value that may be `undefined` is an `Option` (None is
 * `undefined`); inside an object literal a key may hold `JUndefined`, which
 * reads back as `undefined` and which JSON serialisation leaves out.
 */
module JsonValue {
  import opened Wrappers

  datatype Json =
    | JUndefined
    | JNull
    | JBool(b: bool)
    | JNum(n: real)
    | JStr(s: string)
    | JArr(items: seq<Json>)
    | JObj(fields: map<string, Json>)

  /** JavaScript's ToBoolean: what `if (v)` and `v || d` test. */
  predicate Truthy(v: Option<Json>)
  {
    match v
    case None => false
    case Some(JUndefined) => false
    case Some(JNull) => false
    case Some(JBool(b)) => b
    case Some(JNum(n)) => n != 0.0
    case Some(JStr(s)) => |s| > 0
    case Some(JArr(_)) => true
    case Some(JObj(_)) => true
  }

  /** `v || fallback` */
  function Or(v: Option<Json>, fallback: Json): (r: Json)
    ensures Truthy(v) ==> Some(r) == v
    ensures !Truthy(v) ==> r == fallback
  {
    if Truthy(v) then v.value else fallback
  }

  /** `v?.key` */
  function Field(v: Option<Json>, key: string): Option<Json>
  {
    if v.Some? && v.value.JObj? && key in v.value.fields && !v.value.fields[key].JUndefined?
    then Some(v.value.fields[key]) else None
  }

  /** A possibly undefined value in an object literal entry. */
  function Val(v: Option<Json>): Json
  {
    if v.Some? then v.value else JUndefined
  }

  /** An object literal entry `key: v`, dropped when `v` is undefined. */
  function Entry(key: string, v: Option<Json>): map<string, Json>
  {
    if v.Some? then map[key := v.value] else map[]
  }

  /** A string that may be undefined, as a JavaScript value. */
  function Str(s: Option<string>): Option<Json>
  {
    if s.Some? then Some(JStr(s.value)) else None
  }

  function StrArray(xs: seq<string>): (r: Json)
    ensures r.JArr? && |r.items| == |xs|
  {
    JArr(seq(|xs|, i requires 0 <= i < |xs| => JStr(xs[i])))
  }

  function StrArrayOpt(xs: Option<seq<string>>): Option<Json>
  {
    if xs.Some? then Some(StrArray(xs.value)) else None
  }

  function ObjOpt(m: Option<map<string, Json>>): Option<Json>
  {
    if m.Some? then Some(JObj(m.value)) else None
  }

  /** A string that is present and non-empty, i.e. truthy. */
  predicate Present(s: Option<string>)
  {
    s.Some? && |s.value| > 0
  }

  /** `v?.length || 0` for the arrays and strings a list response carries. */
  function Count(v: Option<Json>): nat
  {
    match v
    case Some(JArr(items)) => |items|
    case Some(JStr(s)) => |s|
    case _ => 0
  }

  function Digit(d: nat): char
    requires d < 10
  {
    "0123456789"[d]
  }

  /** Decimal rendering of an integer, as a template literal prints it. */
  function NatToString(n: nat): string
    decreases n
  {
    if n < 10 then [Digit(n)] else NatToString(n / 10) + [Digit(n % 10)]
  }

  function IntToString(i: int): string
  {
    if i < 0 then "-" + NatToString(-i) else NatToString(i)
  }
}
