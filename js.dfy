/** JavaScript value semantics that the factory code relies on: optional
    values, truthiness and the `||` default, template-literal rendering,
    ASCII case conversion, and a JSON value with property lookup. */
module Js {

  datatype Option<+T> = None | Some(value: T)

  // ---------------------------------------------------------------------
  // Optional string fields of a record (absent, null or a string)
  // ---------------------------------------------------------------------

  /** A field is truthy when it is present and not the empty string. */
  predicate Truthy(s: Option<string>)
  {
    s.Some? && s.value != ""
  }

  /** `a || b` on optional string fields. */
  function Or(a: Option<string>, b: Option<string>): (r: Option<string>)
    ensures Truthy(a) ==> r == a
    ensures !Truthy(a) ==> r == b
  {
    if Truthy(a) then a else b
  }

  /** `a || d` where the default `d` is a string literal. */
  function OrElse(a: Option<string>, d: string): (r: string)
    ensures Truthy(a) ==> r == a.value
    ensures !Truthy(a) ==> r == d
  {
    if Truthy(a) then a.value else d
  }

  // ---------------------------------------------------------------------
  // String fields of a JSON record (missing, null or a string)
  // ---------------------------------------------------------------------

  /** A string-valued field as JavaScript reads it from a parsed JSON
      record: missing (`undefined`), `null` (what JSON carries for an empty
      column), or a string. */
  datatype Field = Undefined | Null | Str(text: string)
  {
    /** Truthy exactly when it is a non-empty string. */
    predicate Truthy()
    {
      Str? && text != ""
    }

    /** `this || b` */
    function Or(b: Field): (r: Field)
      ensures Truthy() ==> r == this
      ensures !Truthy() ==> r == b
    {
      if Truthy() then this else b
    }

    /** `this || d` where the default `d` is a string literal. */
    function OrElse(d: string): (r: string)
      ensures Truthy() ==> r == text
      ensures !Truthy() ==> r == d
    {
      if Truthy() then text else d
    }

    /** `${this}` inside a template literal. */
    function Show(): (r: string)
      ensures Str? ==> r == text
      ensures Null? ==> r == "null"
      ensures Undefined? ==> r == "undefined"
    {
      match this
      case Str(t) => t
      case Null => "null"
      case Undefined => "undefined"
    }
  }

  // ---------------------------------------------------------------------
  // Strings
  // ---------------------------------------------------------------------

  function DigitChar(d: nat): char
    requires d < 10
  {
    "0123456789"[d]
  }

  /** Decimal rendering of a natural number, as `${n}` produces it. */
  function NatToString(n: nat): (r: string)
    ensures |r| > 0
    decreases n
  {
    if n < 10 then [DigitChar(n)] else NatToString(n / 10) + [DigitChar(n % 10)]
  }

  function IntToString(i: int): string
  {
    if i < 0 then "-" + NatToString(-i) else NatToString(i)
  }

  predicate StartsWith(s: string, prefix: string)
  {
    |prefix| <= |s| && s[..|prefix|] == prefix
  }

  /** `s.includes(sub)` */
  predicate Includes(s: string, sub: string)
    decreases |s|
  {
    StartsWith(s, sub) || (s != [] && Includes(s[1..], sub))
  }

  /** True when `c` is an ASCII capital letter. */
  predicate IsUpper(c: char)
  {
    'A' <= c <= 'Z'
  }

  predicate IsLower(c: char)
  {
    'a' <= c <= 'z'
  }

  /** `toUpperCase` of one character, restricted to the ASCII letters. */
  function UpperChar(c: char): (r: char)
    ensures IsLower(c) ==> IsUpper(r)
    ensures !IsLower(c) ==> r == c
  {
    if IsLower(c) then (c as int - 32) as char else c
  }

  function LowerChar(c: char): (r: char)
    ensures IsUpper(c) ==> IsLower(r)
    ensures !IsUpper(c) ==> r == c
  {
    if IsUpper(c) then (c as int + 32) as char else c
  }

  function ToUpper(s: string): (r: string)
    ensures |r| == |s|
    ensures forall i :: 0 <= i < |s| ==> r[i] == UpperChar(s[i])
  {
    if s == [] then [] else [UpperChar(s[0])] + ToUpper(s[1..])
  }

  function ToLower(s: string): (r: string)
    ensures |r| == |s|
    ensures forall i :: 0 <= i < |s| ==> r[i] == LowerChar(s[i])
  {
    if s == [] then [] else [LowerChar(s[0])] + ToLower(s[1..])
  }

  /** The part of `s` before the first `sep`, or all of `s` when there is none
      (`s.split(sep)[0]`). */
  function BeforeFirst(s: string, sep: char): (r: string)
    ensures StartsWith(s, r)
    ensures sep !in r
    ensures |r| < |s| ==> s[|r|] == sep
  {
    if s == [] then []
    else if s[0] == sep then []
    else [s[0]] + BeforeFirst(s[1..], sep)
  }

  // ---------------------------------------------------------------------
  // JSON values, as the UI and the API routes handle them
  // ---------------------------------------------------------------------

  /** A JavaScript value as it travels through JSON; numbers are integers
      here. A property missing from an object reads as JUndefined. */
  datatype Json =
    | JUndefined
    | JNull
    | JBool(b: bool)
    | JNum(n: int)
    | JStr(s: string)
    | JArr(items: seq<Json>)
    | JObj(fields: map<string, Json>)

  predicate JTruthy(j: Json)
  {
    match j
    case JUndefined => false
    case JNull => false
    case JBool(b) => b
    case JNum(n) => n != 0
    case JStr(s) => s != ""
    case JArr(_) => true
    case JObj(_) => true
  }

  /** `a || b` on values. */
  function JOr(a: Json, b: Json): (r: Json)
    ensures JTruthy(a) ==> r == a
    ensures !JTruthy(a) ==> r == b
  {
    if JTruthy(a) then a else b
  }

  /** `null` and `undefined`: reading a property of either throws a TypeError. */
  predicate Nullish(j: Json)
  {
    j == JUndefined || j == JNull
  }

  /** `j?.k`: a missing property, and any property of a value that is not an
      object, reads as undefined. */
  function Get(j: Json, k: string): (r: Json)
    ensures !j.JObj? ==> r == JUndefined
  {
    if j.JObj? && k in j.fields then j.fields[k] else JUndefined
  }

  /** An optional-chaining path `j?.p0?.p1?...`. */
  function GetPath(j: Json, path: seq<string>): Json
    decreases |path|
  {
    if path == [] then j else GetPath(Get(j, path[0]), path[1..])
  }

  /** `{ ...j }`: the own properties of an object; a primitive spreads
      nothing. */
  function Spread(j: Json): (r: map<string, Json>)
    ensures j.JObj? ==> r == j.fields
  {
    if j.JObj? then j.fields else map[]
  }

  /** `String(j)` as a template literal renders it; objects render as
      "[object Object]" and arrays as their elements joined by commas. */
  function Render(j: Json): string
  {
    match j
    case JUndefined => "undefined"
    case JNull => "null"
    case JBool(b) => if b then "true" else "false"
    case JNum(n) => IntToString(n)
    case JStr(s) => s
    case JArr(items) => RenderItems(items)
    case JObj(_) => "[object Object]"
  }

  /** `Array.prototype.join(",")`: null and undefined elements render empty. */
  function RenderItems(items: seq<Json>): string
    decreases items
  {
    if items == [] then ""
    else
      var head := if Nullish(items[0]) then "" else Render(items[0]);
      if |items| == 1 then head else head + "," + RenderItems(items[1..])
  }

  /** Lifts an optional string field to a value. */
  function FromOpt(s: Option<string>): Json
  {
    match s
    case Some(v) => JStr(v)
    case None => JUndefined
  }
}
