/**
  JSON text: `JSON.stringify` as ECMA-262 specifies it (SerializeJSONProperty,
  QuoteJSONString, SerializeJSONObject, SerializeJSONArray) for the two forms the
  server uses, `JSON.stringify(v)` and `JSON.stringify(v, null, 2)`, and a parser
  for the grammar of RFC 8259 (integers only) that reads such text back.

  String literals follow section 7 of RFC 8259 in the form `JSON.stringify`
  writes them: `"` and `\` and the control characters are escaped, using the
  two-character escapes where one exists and `\u00xx` (lower-case hex) otherwise.
 */
module JsonText {
  import opened Wrappers
  import opened JsValue

  predicate IsWs(c: char) {
    c == ' ' || c == '\t' || c == '\n' || c == '\r'
  }

  predicate AllSpaces(s: string) {
    forall i :: 0 <= i < |s| ==> s[i] == ' '
  }

  // ---------------------------------------------------------------------------
  // String literals

  function HexDigit(d: nat): char
    requires d < 16
  {
    if d < 10 then DigitChar(d) else ('a' as int + (d - 10)) as char
  }

  function HexValue(c: char): (r: Option<nat>)
    ensures r.Some? ==> r.value < 16
  {
    if '0' <= c <= '9' then Some(c as int - '0' as int)
    else if 'a' <= c <= 'f' then Some(c as int - 'a' as int + 10)
    else if 'A' <= c <= 'F' then Some(c as int - 'A' as int + 10)
    else None
  }

  /** How one character appears inside a string literal. */
  function EscapeChar(c: char): string {
    if c == '"' then ['\\', '"']
    else if c == '\\' then ['\\', '\\']
    else if c as int == 0x08 then ['\\', 'b']
    else if c == '\t' then ['\\', 't']
    else if c == '\n' then ['\\', 'n']
    else if c as int == 0x0C then ['\\', 'f']
    else if c == '\r' then ['\\', 'r']
    else if c as int < 0x20 then ['\\', 'u', '0', '0', HexDigit(c as int / 16), HexDigit(c as int % 16)]
    else [c]
  }

  /** The escaped form of `s` followed by `rest`. */
  function EscapeTo(s: string, rest: string): string {
    if s == [] then rest else EscapeChar(s[0]) + EscapeTo(s[1..], rest)
  }

  /** The string literal of `s` followed by `rest`. */
  function QuoteTo(s: string, rest: string): string {
    "\"" + EscapeTo(s, "\"" + rest)
  }

  /** QuoteJSONString: the JSON string literal of `s`. */
  function Quote(s: string): string {
    QuoteTo(s, "")
  }

  /** Decodes one character of a string literal's body: an escape sequence or
      a plain character other than `"` and the control characters. Yields the
      character and the number of input characters it took. Escapes of
      surrogate code units are not accepted. */
  function DecodeChar(s: string): (r: Option<(char, nat)>)
    requires s != []
    ensures r.Some? ==> 1 <= r.value.1 <= |s|
  {
    if s[0] == '\\' then
      if |s| < 2 then None
      else if s[1] == '"' then Some(('"', 2))
      else if s[1] == '\\' then Some(('\\', 2))
      else if s[1] == '/' then Some(('/', 2))
      else if s[1] == 'b' then Some((0x08 as char, 2))
      else if s[1] == 'f' then Some((0x0C as char, 2))
      else if s[1] == 'n' then Some(('\n', 2))
      else if s[1] == 'r' then Some(('\r', 2))
      else if s[1] == 't' then Some(('\t', 2))
      else if s[1] == 'u' && |s| >= 6 then
        var h0, h1, h2, h3 := HexValue(s[2]), HexValue(s[3]), HexValue(s[4]), HexValue(s[5]);
        if h0.None? || h1.None? || h2.None? || h3.None? then None
        else
          var code := ((h0.value * 16 + h1.value) * 16 + h2.value) * 16 + h3.value;
          if 0xD800 <= code < 0xE000 then None else Some((code as char, 6))
      else None
    else if s[0] == '"' || s[0] as int < 0x20 then None
    else Some((s[0], 1))
  }

  /** Reads a string literal's body up to its closing quote; yields the
      decoded string and the text after the closing quote. */
  function ParseChars(s: string): (r: Option<(string, string)>)
    ensures r.Some? ==> |r.value.1| < |s|
    decreases |s|
  {
    if s == [] then None
    else if s[0] == '"' then Some(([], s[1..]))
    else
      match DecodeChar(s)
      case None => None
      case Some((c, n)) =>
        match ParseChars(s[n..])
        case None => None
        case Some((t, rest)) => Some(([c] + t, rest))
  }

  lemma HexDigitValue(d: nat)
    requires d < 16
    ensures HexValue(HexDigit(d)) == Some(d)
  {
  }

  /** The decoder takes back exactly what the encoder wrote for one character. */
  lemma DecodeEscapeChar(c: char, t: string)
    ensures DecodeChar(EscapeChar(c) + t) == Some((c, |EscapeChar(c)|))
  {
    var e := EscapeChar(c);
    var s := e + t;
    assert s[0] == e[0];
    if 2 <= |e| {
      assert s[1] == e[1];
    }
    if c as int < 0x20 && c as int !in {0x08, 0x09, 0x0A, 0x0C, 0x0D} {
      var hi, lo := c as int / 16, c as int % 16;
      assert s[2] == '0' && s[3] == '0' && s[4] == HexDigit(hi) && s[5] == HexDigit(lo);
      HexDigitValue(hi);
      HexDigitValue(lo);
      assert ((0 * 16 + 0) * 16 + hi) * 16 + lo == c as int;
    }
  }

  /** Round trip of a literal's body: decoding the escaped text of `s`,
      followed by the closing quote, gives back `s` and the text after. */
  lemma {:induction false} ParseEscape(s: string, rest: string)
    ensures ParseChars(EscapeTo(s, "\"" + rest)) == Some((s, rest))
    decreases |s|
  {
    if s == [] {
      assert ("\"" + rest)[1..] == rest;
    } else {
      var e := EscapeChar(s[0]);
      var tail := EscapeTo(s[1..], "\"" + rest);
      DecodeEscapeChar(s[0], tail);
      assert (e + tail)[|e|..] == tail;
      ParseEscape(s[1..], rest);
      assert [s[0]] + s[1..] == s;
    }
  }

  /** No character below U+0020 appears unescaped in a literal, as section 7
      of RFC 8259 demands. */
  lemma {:induction false} EscapeHasNoControl(s: string, rest: string)
    requires forall i :: 0 <= i < |rest| ==> rest[i] as int >= 0x20
    ensures forall i :: 0 <= i < |EscapeTo(s, rest)| ==> EscapeTo(s, rest)[i] as int >= 0x20
    decreases |s|
  {
    if s != [] {
      EscapeHasNoControl(s[1..], rest);
      var e, t := EscapeChar(s[0]), EscapeTo(s[1..], rest);
      forall i | 0 <= i < |e + t| ensures (e + t)[i] as int >= 0x20 {
        if i >= |e| {
          assert (e + t)[i] == t[i - |e|];
        }
      }
    }
  }

  /** A literal is delimited by quotation marks and holds no raw control
      character. */
  lemma QuoteIsLiteral(s: string)
    ensures var q := Quote(s);
      && |q| >= 2 && q[0] == '"' && q[|q| - 1] == '"'
      && forall i :: 0 <= i < |q| ==> q[i] as int >= 0x20
  {
    var close := "\"" + "";
    EscapeHasNoControl(s, close);
    EscapeEndsWith(s, close);
    var e := EscapeTo(s, close);
    var q := Quote(s);
    assert q == "\"" + e;
    forall i | 0 <= i < |q| ensures q[i] as int >= 0x20 {
      if i > 0 {
        assert q[i] == e[i - 1];
      }
    }
  }

  lemma {:induction false} EscapeEndsWith(s: string, rest: string)
    requires rest != []
    ensures |EscapeTo(s, rest)| >= |rest|
    ensures EscapeTo(s, rest)[|EscapeTo(s, rest)| - 1] == rest[|rest| - 1]
    decreases |s|
  {
    if s != [] {
      EscapeEndsWith(s[1..], rest);
      var e, t := EscapeChar(s[0]), EscapeTo(s[1..], rest);
      assert EscapeTo(s, rest) == e + t;
      assert (e + t)[|e + t| - 1] == t[|t| - 1];
    }
  }

  // ---------------------------------------------------------------------------
  // Serialization
  //
  // Written in accumulator form: `SerializeTo(v, gap, indent, rest)` is the text
  // of `v` followed by `rest`, so that the text of an array or object reads
  // left to right the way the parser consumes it.

  /** The line break and indentation written before a member or element, and
      before the closing bracket; nothing in the compact form. */
  function Break(gap: string, indent: string): string {
    if gap == "" then "" else "\n" + indent
  }

  /** The characters a serialized value can start with. */
  predicate OpensValue(c: char) {
    c == 'n' || c == 't' || c == 'f' || c == '-' || IsDigit(c) || c == '"' || c == '[' || c == '{'
  }

  /** SerializeJSONProperty of `v` with the given gap (the `space` argument)
      and current indentation, followed by `rest`. */
  function SerializeTo(v: Value, gap: string, indent: string, rest: string): (r: string)
    ensures r != [] && OpensValue(r[0])
    decreases v, 1
  {
    match v
    case Null => "null" + rest
    case Bool(b) => (if b then "true" else "false") + rest
    case Num(n) => IntToString(n) + rest
    case Str(s) => QuoteTo(s, rest)
    case Arr(items) =>
      if items == [] then "[]" + rest
      else "[" + ItemsTo(items, gap, indent + gap, Break(gap, indent) + ("]" + rest))
    case Obj(members) =>
      if members == [] then "{}" + rest
      else "{" + MembersTo(members, gap, indent + gap, Break(gap, indent) + ("}" + rest))
  }

  /** The elements of a non-empty array, each after a break, separated by ",". */
  function ItemsTo(items: seq<Value>, gap: string, indent: string, rest: string): string
    requires items != []
    decreases items, 0
  {
    var next := if |items| == 1 then rest else "," + ItemsTo(items[1..], gap, indent, rest);
    Break(gap, indent) + SerializeTo(items[0], gap, indent, next)
  }

  /** The members of a non-empty object, each `"key":value` (with a space
      after the colon when there is a gap), separated by ",". */
  function MembersTo(members: seq<(string, Value)>, gap: string, indent: string, rest: string): string
    requires members != []
    decreases members, 0
  {
    var (key, value) := members[0];
    assert value < members[0];
    var next := if |members| == 1 then rest else "," + MembersTo(members[1..], gap, indent, rest);
    Break(gap, indent) + QuoteTo(key, ":" + (Colon(gap) + SerializeTo(value, gap, indent, next)))
  }

  /** What follows the colon of a member: a space when there is a gap. */
  function Colon(gap: string): string {
    if gap == "" then "" else " "
  }

  /** `JSON.stringify(v)`. */
  function Stringify(v: Value): string {
    SerializeTo(v, "", "", "")
  }

  /** `JSON.stringify(v, null, 2)`. */
  function StringifyIndented(v: Value): string {
    SerializeTo(v, "  ", "", "")
  }

  // ---------------------------------------------------------------------------
  // Parsing

  function SkipWs(s: string): (r: string)
    ensures |r| <= |s|
    ensures r == [] || !IsWs(r[0])
  {
    if s != [] && IsWs(s[0]) then SkipWs(s[1..]) else s
  }

  /** The length of the run of decimal digits that starts `s`. */
  function DigitRun(s: string): (k: nat)
    ensures k <= |s| && AllDigits(s[..k])
  {
    if s != [] && IsDigit(s[0]) then
      var k := 1 + DigitRun(s[1..]);
      assert s[..k] == [s[0]] + s[1..][..k - 1];
      k
    else 0
  }

  /** An integer: an optional minus sign and digits without a leading zero. */
  function ParseNumber(t: string): (r: Option<(Value, string)>)
    requires t != []
    ensures r.Some? ==> |r.value.1| < |t|
  {
    var neg := t[0] == '-';
    var d := if neg then t[1..] else t;
    var k := DigitRun(d);
    if k == 0 || (k > 1 && d[0] == '0') then None
    else
      var m: int := DigitsValue(d[..k]);
      Some((Num(if neg then -m else m), d[k..]))
  }

  /** A value, after any leading whitespace. */
  function ParseValue(s: string): (r: Option<(Value, string)>)
    ensures r.Some? ==> |r.value.1| < |s|
    decreases |s|, 1
  {
    ParseToken(SkipWs(s))
  }

  /** A value that starts right at the first character of `t`. */
  function ParseToken(t: string): (r: Option<(Value, string)>)
    ensures r.Some? ==> |r.value.1| < |t|
    decreases |t|, 0
  {
    if t == [] then None
    else if t[0] == 'n' then
      if |t| >= 4 && t[..4] == "null" then Some((Null, t[4..])) else None
    else if t[0] == 't' then
      if |t| >= 4 && t[..4] == "true" then Some((Bool(true), t[4..])) else None
    else if t[0] == 'f' then
      if |t| >= 5 && t[..5] == "false" then Some((Bool(false), t[5..])) else None
    else if t[0] == '"' then
      match ParseChars(t[1..])
      case None => None
      case Some((str, rest)) => Some((Str(str), rest))
    else if t[0] == '-' || IsDigit(t[0]) then
      ParseNumber(t)
    else if t[0] == '[' then
      var u := SkipWs(t[1..]);
      if u != [] && u[0] == ']' then Some((Arr([]), u[1..]))
      else
        match ParseItems(t[1..])
        case None => None
        case Some((items, rest)) => Some((Arr(items), rest))
    else if t[0] == '{' then
      var u := SkipWs(t[1..]);
      if u != [] && u[0] == '}' then Some((Obj([]), u[1..]))
      else
        match ParseMembers(t[1..])
        case None => None
        case Some((members, rest)) => Some((Obj(members), rest))
    else None
  }

  /** Elements of a non-empty array, up to and including its `]`. */
  function ParseItems(s: string): (r: Option<(seq<Value>, string)>)
    ensures r.Some? ==> |r.value.1| < |s|
    decreases |s|, 2
  {
    match ParseValue(s)
    case None => None
    case Some((v, rest)) => MoreItems(v, rest)
  }

  /** After element `v`: either the closing `]` or a comma and more elements. */
  function MoreItems(v: Value, s: string): (r: Option<(seq<Value>, string)>)
    ensures r.Some? ==> |r.value.1| < |s|
    decreases |s|, 3
  {
    var t := SkipWs(s);
    if t == [] then None
    else if t[0] == ']' then Some(([v], t[1..]))
    else if t[0] == ',' then
      match ParseItems(t[1..])
      case None => None
      case Some((vs, rest)) => Some(([v] + vs, rest))
    else None
  }

  /** Members of a non-empty object, up to and including its `}`. */
  function ParseMembers(s: string): (r: Option<(seq<(string, Value)>, string)>)
    ensures r.Some? ==> |r.value.1| < |s|
    decreases |s|, 2
  {
    var t := SkipWs(s);
    if t == [] || t[0] != '"' then None
    else
      match ParseChars(t[1..])
      case None => None
      case Some((key, rest)) => MemberValue(key, rest)
  }

  /** After a member's key: the colon and the member's value. */
  function MemberValue(key: string, s: string): (r: Option<(seq<(string, Value)>, string)>)
    ensures r.Some? ==> |r.value.1| < |s|
    decreases |s|, 3
  {
    var t := SkipWs(s);
    if t == [] || t[0] != ':' then None
    else
      match ParseValue(t[1..])
      case None => None
      case Some((v, rest)) => MoreMembers((key, v), rest)
  }

  /** After member `m`: either the closing `}` or a comma and more members. */
  function MoreMembers(m: (string, Value), s: string): (r: Option<(seq<(string, Value)>, string)>)
    ensures r.Some? ==> |r.value.1| < |s|
    decreases |s|, 3
  {
    var t := SkipWs(s);
    if t == [] then None
    else if t[0] == '}' then Some(([m], t[1..]))
    else if t[0] == ',' then
      match ParseMembers(t[1..])
      case None => None
      case Some((ms, rest)) => Some(([m] + ms, rest))
    else None
  }

  /** `JSON.parse` of a whole text: one value, then only whitespace. */
  function Parse(text: string): Option<Value> {
    match ParseValue(text)
    case None => None
    case Some((v, rest)) => if SkipWs(rest) == [] then Some(v) else None
  }

  // ---------------------------------------------------------------------------
  // Round trip

  lemma {:induction false} SkipWsOver(ws: string, x: string)
    requires forall i :: 0 <= i < |ws| ==> IsWs(ws[i])
    requires x == [] || !IsWs(x[0])
    ensures SkipWs(ws + x) == x
    decreases |ws|
  {
    if ws == [] {
      assert ws + x == x;
    } else {
      assert (ws + x)[1..] == ws[1..] + x;
      SkipWsOver(ws[1..], x);
    }
  }

  lemma SkipBreak(gap: string, indent: string, x: string)
    requires AllSpaces(indent)
    requires x == [] || !IsWs(x[0])
    ensures SkipWs(Break(gap, indent) + x) == x
  {
    SkipWsOver(Break(gap, indent), x);
  }

  lemma {:induction false} DigitRunOver(ds: string, rest: string)
    requires AllDigits(ds)
    requires rest == [] || !IsDigit(rest[0])
    ensures DigitRun(ds + rest) == |ds|
    decreases |ds|
  {
    if ds == [] {
      assert ds + rest == rest;
    } else {
      assert (ds + rest)[1..] == ds[1..] + rest;
      DigitRunOver(ds[1..], rest);
    }
  }

  lemma ParseNumberPrinted(n: int, rest: string)
    requires rest == [] || !IsDigit(rest[0])
    ensures ParseNumber(IntToString(n) + rest) == Some((Num(n), rest))
  {
    var m: nat := if n < 0 then -n else n;
    var ds := NatToString(m);
    var t := IntToString(n) + rest;
    var d := if n < 0 then t[1..] else t;
    assert d == ds + rest by {
      if n < 0 {
        assert t == "-" + (ds + rest);
      }
    }
    DigitRunOver(ds, rest);
    assert d[..|ds|] == ds;
    assert d[|ds|..] == rest;
    DigitsValueOfNatToString(m);
  }

  /** Parsing what `SerializeTo` wrote yields the value and leaves the text
      that followed it, provided that text does not continue a number. */
  lemma {:induction false} ParseSerialized(v: Value, gap: string, indent: string, rest: string)
    requires AllSpaces(gap) && AllSpaces(indent)
    requires rest == [] || !IsDigit(rest[0])
    ensures ParseValue(SerializeTo(v, gap, indent, rest)) == Some((v, rest))
    decreases v, 2
  {
    var s := SerializeTo(v, gap, indent, rest);
    SkipWsOver([], s);
    match v
    case Null =>
      assert s[..4] == "null" && s[4..] == rest;
    case Bool(b) =>
      if b {
        assert s[..4] == "true" && s[4..] == rest;
      } else {
        assert s[..5] == "false" && s[5..] == rest;
      }
    case Num(n) =>
      assert s[0] == IntToString(n)[0];
      ParseNumberPrinted(n, rest);
    case Str(str) =>
      ParseEscape(str, rest);
    case Arr(items) =>
      ParseArray(items, gap, indent, rest);
    case Obj(members) =>
      ParseObject(members, gap, indent, rest);
  }

  lemma {:induction false} ParseArray(items: seq<Value>, gap: string, indent: string, rest: string)
    requires AllSpaces(gap) && AllSpaces(indent)
    ensures ParseValue(SerializeTo(Arr(items), gap, indent, rest)) == Some((Arr(items), rest))
    decreases items, 1
  {
    var s := SerializeTo(Arr(items), gap, indent, rest);
    SkipWsOver([], s);
    if items == [] {
      assert s[1..] == "]" + rest;
      SkipWsOver([], s[1..]);
      assert s[2..] == rest;
    } else {
      var inner := indent + gap;
      var tail := Break(gap, indent) + ("]" + rest);
      assert AllSpaces(inner);
      ParseSerializedItems(items, gap, inner, indent, rest);
      ItemsStart(items, gap, inner, tail);
    }
  }

  lemma {:induction false} ParseObject(members: seq<(string, Value)>, gap: string, indent: string, rest: string)
    requires AllSpaces(gap) && AllSpaces(indent)
    ensures ParseValue(SerializeTo(Obj(members), gap, indent, rest)) == Some((Obj(members), rest))
    decreases members, 1
  {
    var s := SerializeTo(Obj(members), gap, indent, rest);
    SkipWsOver([], s);
    if members == [] {
      assert s[1..] == "}" + rest;
      SkipWsOver([], s[1..]);
      assert s[2..] == rest;
    } else {
      var inner := indent + gap;
      var tail := Break(gap, indent) + ("}" + rest);
      assert AllSpaces(inner);
      ParseSerializedMembers(members, gap, inner, indent, rest);
      MembersStart(members, gap, inner, tail);
    }
  }

  /** After the opening bracket, the first element is not mistaken for the
      end of an empty array. */
  lemma ItemsStart(items: seq<Value>, gap: string, indent: string, rest: string)
    requires items != [] && AllSpaces(indent)
    ensures var u := SkipWs(ItemsTo(items, gap, indent, rest)); u != [] && u[0] != ']'
  {
    var next := if |items| == 1 then rest else "," + ItemsTo(items[1..], gap, indent, rest);
    SkipBreak(gap, indent, SerializeTo(items[0], gap, indent, next));
  }

  lemma MembersStart(members: seq<(string, Value)>, gap: string, indent: string, rest: string)
    requires members != [] && AllSpaces(indent)
    ensures var u := SkipWs(MembersTo(members, gap, indent, rest)); u != [] && u[0] == '"'
  {
    var (key, value) := members[0];
    var next := if |members| == 1 then rest else "," + MembersTo(members[1..], gap, indent, rest);
    SkipBreak(gap, indent, QuoteTo(key, ":" + (Colon(gap) + SerializeTo(value, gap, indent, next))));
  }

  lemma {:induction false} ParseSerializedItems(items: seq<Value>, gap: string, indent: string, outer: string, rest: string)
    requires items != []
    requires AllSpaces(gap) && AllSpaces(indent) && AllSpaces(outer)
    ensures ParseItems(ItemsTo(items, gap, indent, Break(gap, outer) + ("]" + rest))) == Some((items, rest))
    decreases items, 0
  {
    var tail := Break(gap, outer) + ("]" + rest);
    var next := if |items| == 1 then tail else "," + ItemsTo(items[1..], gap, indent, tail);
    var first := SerializeTo(items[0], gap, indent, next);
    SkipBreak(gap, indent, first);
    SkipWsOver([], first);
    assert next[0] == ',' || next[0] == '\n' || next[0] == ']';
    ParseSerialized(items[0], gap, indent, next);
    assert ParseItems(ItemsTo(items, gap, indent, tail)) == MoreItems(items[0], next);
    if |items| == 1 {
      assert items == [items[0]];
      SkipBreak(gap, outer, "]" + rest);
      assert ("]" + rest)[1..] == rest;
    } else {
      SkipWsOver([], next);
      assert next[1..] == ItemsTo(items[1..], gap, indent, tail);
      ParseSerializedItems(items[1..], gap, indent, outer, rest);
      assert [items[0]] + items[1..] == items;
    }
  }

  /** The key of a serialized member is read back, leaving the colon. */
  lemma ParseMemberKey(key: string, gap: string, indent: string, afterKey: string)
    requires AllSpaces(indent)
    ensures ParseMembers(Break(gap, indent) + QuoteTo(key, afterKey)) == MemberValue(key, afterKey)
  {
    var q := QuoteTo(key, afterKey);
    SkipBreak(gap, indent, q);
    assert q[1..] == EscapeTo(key, "\"" + afterKey);
    ParseEscape(key, afterKey);
  }

  /** The colon and the value of a serialized member are read back. */
  lemma ParseMemberValue(key: string, value: Value, gap: string, indent: string, next: string)
    requires AllSpaces(gap) && AllSpaces(indent)
    requires next == [] || !IsDigit(next[0])
    ensures MemberValue(key, ":" + (Colon(gap) + SerializeTo(value, gap, indent, next)))
         == MoreMembers((key, value), next)
    decreases value, 3
  {
    var first := SerializeTo(value, gap, indent, next);
    var afterKey := ":" + (Colon(gap) + first);
    SkipWsOver([], afterKey);
    assert afterKey[1..] == Colon(gap) + first;
    SkipWsOver(Colon(gap), first);
    SkipWsOver([], first);
    ParseSerialized(value, gap, indent, next);
  }

  lemma {:induction false} ParseSerializedMembers(members: seq<(string, Value)>, gap: string, indent: string, outer: string, rest: string)
    requires members != []
    requires AllSpaces(gap) && AllSpaces(indent) && AllSpaces(outer)
    ensures ParseMembers(MembersTo(members, gap, indent, Break(gap, outer) + ("}" + rest))) == Some((members, rest))
    decreases members, 0
  {
    var (key, value) := members[0];
    assert value < members[0];
    var tail := Break(gap, outer) + ("}" + rest);
    var next := if |members| == 1 then tail else "," + MembersTo(members[1..], gap, indent, tail);
    assert next[0] == ',' || next[0] == '\n' || next[0] == '}';
    ParseMemberKey(key, gap, indent, ":" + (Colon(gap) + SerializeTo(value, gap, indent, next)));
    ParseMemberValue(key, value, gap, indent, next);
    if |members| == 1 {
      assert members == [(key, value)];
      SkipBreak(gap, outer, "}" + rest);
      assert ("}" + rest)[1..] == rest;
    } else {
      SkipWsOver([], next);
      assert next[1..] == MembersTo(members[1..], gap, indent, tail);
      ParseSerializedMembers(members[1..], gap, indent, outer, rest);
      assert [(key, value)] + members[1..] == members;
    }
  }

  /** Decoding the text `JSON.stringify` writes, compact or indented by any
      run of spaces, gives back the value it encoded. */
  lemma ParseSerializedText(v: Value, gap: string)
    requires AllSpaces(gap)
    ensures Parse(SerializeTo(v, gap, "", "")) == Some(v)
  {
    ParseSerialized(v, gap, "", "");
  }

  /** `JSON.parse(JSON.stringify(v))` is `v`. */
  lemma StringifyRoundTrip(v: Value)
    ensures Parse(Stringify(v)) == Some(v)
  {
    ParseSerializedText(v, "");
  }

  /** `JSON.parse(JSON.stringify(v, null, 2))` is `v`. */
  lemma StringifyIndentedRoundTrip(v: Value)
    ensures Parse(StringifyIndented(v)) == Some(v)
  {
    ParseSerializedText(v, "  ");
  }

  /** A string is written as its literal alone, with or without a gap, and the
      literal decodes back to the string. */
  lemma QuoteRoundTrip(s: string)
    ensures StringifyIndented(Str(s)) == Quote(s)
    ensures Parse(Quote(s)) == Some(Str(s))
  {
    StringifyIndentedRoundTrip(Str(s));
  }
}
