/**
  JSON values as the server sees them once the protocol SDK or `response.json()`
  has decoded them, and the handful of JavaScript conversions the handlers apply
  to them: truthiness for `||`, `String(v)` for template literals and
  `Array.prototype.join`, property reads and the `in` operator.
 */
module JsValue {
  import opened Wrappers

  /** A decoded JSON value. Numbers are integers in this model. An object lists
      its own properties in property order; as in any JavaScript object its keys
      are distinct (a duplicate key in JSON text is merged by the decoder before
      a value of this type exists). */
  datatype Value =
    | Null
    | Bool(b: bool)
    | Num(n: int)
    | Str(s: string)
    | Arr(items: seq<Value>)
    | Obj(members: seq<(string, Value)>)

  /** What the engine throws from the handler bodies: an `Error` built by the
      code itself, or a `TypeError` raised by the engine (its message text is
      engine-specific and not modelled). */
  datatype JsError = Error(message: string) | TypeError

  /** ToBoolean: null, false, 0 and the empty string are falsy; arrays and
      objects are truthy. */
  predicate Truthy(v: Value) {
    match v
    case Null => false
    case Bool(b) => b
    case Num(n) => n != 0
    case Str(s) => s != ""
    case Arr(_) => true
    case Obj(_) => true
  }

  /** `x || d` where `x` is a property read that may be undefined (None). */
  function OrElse(x: Option<Value>, d: Value): Value {
    if x.Some? && Truthy(x.value) then x.value else d
  }

  predicate IsDigit(c: char) {
    '0' <= c <= '9'
  }

  predicate AllDigits(s: string) {
    forall i :: 0 <= i < |s| ==> IsDigit(s[i])
  }

  function DigitChar(d: nat): (c: char)
    requires d < 10
    ensures IsDigit(c)
  {
    ('0' as int + d) as char
  }

  /** Number::toString for a non-negative integer: shortest decimal form. */
  function NatToString(n: nat): (s: string)
    ensures |s| >= 1 && AllDigits(s)
    ensures s[0] == '0' ==> s == "0"
    decreases n
  {
    if n < 10 then [DigitChar(n)] else NatToString(n / 10) + [DigitChar(n % 10)]
  }

  /** Number::toString for an integer. */
  function IntToString(n: int): string {
    if n < 0 then "-" + NatToString(-n) else NatToString(n)
  }

  /** The value of a run of decimal digits, read left to right. */
  function DigitsValue(ds: string): nat
    requires AllDigits(ds)
  {
    if ds == [] then 0
    else DigitsValue(ds[..|ds| - 1]) * 10 + (ds[|ds| - 1] as int - '0' as int)
  }

  /** Reading back a printed number gives the number: the decimal form is
      injective, so a status code can be recovered from a message. */
  lemma {:induction false} DigitsValueOfNatToString(n: nat)
    ensures DigitsValue(NatToString(n)) == n
    decreases n
  {
    if n >= 10 {
      var s := NatToString(n);
      assert s[..|s| - 1] == NatToString(n / 10);
      DigitsValueOfNatToString(n / 10);
    }
  }

  /** `a.join(sep)` for parts that are already strings. */
  function Join(parts: seq<string>, sep: string): (r: string)
    ensures parts == [] ==> r == ""
    ensures |parts| == 1 ==> r == parts[0]
  {
    if parts == [] then ""
    else if |parts| == 1 then parts[0]
    else parts[0] + sep + Join(parts[1..], sep)
  }

  /** `join` read the way ECMA-262 computes it, left to right: appending one
      more part appends the separator and that part. */
  lemma {:induction false} JoinAppend(parts: seq<string>, p: string, sep: string)
    requires parts != []
    ensures Join(parts + [p], sep) == Join(parts, sep) + sep + p
    decreases |parts|
  {
    if |parts| == 1 {
      assert (parts + [p])[1..] == [p];
    } else {
      assert (parts + [p])[1..] == parts[1..] + [p];
      JoinAppend(parts[1..], p, sep);
      assert Join(parts + [p], sep) == parts[0] + sep + (Join(parts[1..], sep) + sep + p);
    }
  }

  /** `String(v)` (ToString): arrays are joined with "," and plain objects
      render as "[object Object]". */
  function ToJsString(v: Value): string
    decreases v, 1
  {
    match v
    case Null => "null"
    case Bool(b) => if b then "true" else "false"
    case Num(n) => IntToString(n)
    case Str(s) => s
    case Arr(items) => JoinItems(items)
    case Obj(_) => "[object Object]"
  }

  /** `items.join(",")` on an array of decoded values; a null element
      renders as the empty string. */
  function JoinItems(items: seq<Value>): string
    decreases items, 0
  {
    if items == [] then ""
    else
      var head := if items[0].Null? then "" else ToJsString(items[0]);
      if |items| == 1 then head else head + "," + JoinItems(items[1..])
  }

  /** How `Array.prototype.join` renders one element: null and undefined
      become the empty string, everything else goes through `String`. */
  function JoinPart(x: Option<Value>): string {
    match x
    case None => ""
    case Some(v) => if v.Null? then "" else ToJsString(v)
  }

  /** A template literal substitution `${x}` where `x` may be undefined. */
  function Interpolate(x: Option<Value>): string {
    match x
    case None => "undefined"
    case Some(v) => ToJsString(v)
  }

  /** The own property `key` of an object's members, None when absent. */
  function Lookup(members: seq<(string, Value)>, key: string): (r: Option<Value>)
    ensures r.None? <==> forall i :: 0 <= i < |members| ==> members[i].0 != key
    ensures r.Some? ==> (key, r.value) in members
  {
    if members == [] then None
    else if members[0].0 == key then Some(members[0].1)
    else Lookup(members[1..], key)
  }

  /** The property read `v.key`. Reading any property of null throws; reading
      `documents`, `content` or `error` (the only keys the handlers read, none
      of them a built-in property) of a non-object gives undefined. */
  function Get(v: Value, key: string): (r: Result<Option<Value>, JsError>)
    ensures r.Err? <==> v.Null?
    ensures r.Err? ==> r.error == TypeError
    ensures v.Obj? ==> r == Ok(Lookup(v.members, key))
    ensures !v.Obj? && !v.Null? ==> r == Ok(None)
  {
    match v
    case Null => Err(TypeError)
    case Obj(members) => Ok(Lookup(members, key))
    case _ => Ok(None)
  }

  /** The operator `"error" in v`. A decoded array has no `error` property,
      own or inherited, so the answer is false; for an object it is whether
      the key is among its members; any other value throws a TypeError. */
  function HasError(v: Value): (r: Result<bool, JsError>)
    ensures r.Ok? <==> v.Obj? || v.Arr?
    ensures r == Ok(true) <==> v.Obj? && Lookup(v.members, "error").Some?
    ensures r.Err? ==> r.error == TypeError
  {
    match v
    case Obj(members) => Ok(Lookup(members, "error").Some?)
    case Arr(_) => Ok(false)
    case _ => Err(TypeError)
  }
}
