/** The part of `serde_json::Value` the request records read: indexing by key,
    `as_array`, `as_str`, `as_i64`, and the compact serialisation of a string. */
module JsonValue {
  import opened Wrappers

  /** A decoded JSON document. Numbers are the integers the catalogues send. */
  datatype Value =
    | Null
    | Bool(b: bool)
    | Number(n: int)
    | Str(s: string)
    | Array(items: seq<Value>)
    | Object(fields: map<string, Value>)

  /** `value[key]`: the field, or `Null` when `value` is not an object or has no such key. */
  function Index(value: Value, key: string): Value {
    if value.Object? && key in value.fields then value.fields[key] else Null
  }

  function AsArray(value: Value): Option<seq<Value>> {
    if value.Array? then Some(value.items) else None
  }

  function AsObject(value: Value): Option<map<string, Value>> {
    if value.Object? then Some(value.fields) else None
  }

  function AsStr(value: Value): Option<string> {
    if value.Str? then Some(value.s) else None
  }

  const I64_MIN: int := -0x8000_0000_0000_0000
  const I64_MAX: int := 0x7fff_ffff_ffff_ffff

  /** `as_number().as_i64()`: a number that fits in an `i64`. */
  function AsI64(value: Value): Option<int> {
    if value.Number? && I64_MIN <= value.n <= I64_MAX then Some(value.n) else None
  }

  // ---------------------------------------------------------------------
  // Serialisation of strings (`Display` of `Value::String`)
  // ---------------------------------------------------------------------

  function HexDigit(d: nat): char
    requires d < 16
  {
    if d < 10 then ('0' as int + d) as char else ('a' as int + d - 10) as char
  }

  function HexValue(c: char): Option<nat> {
    if '0' <= c <= '9' then Some(c as int - '0' as int)
    else if 'a' <= c <= 'f' then Some(c as int - 'a' as int + 10)
    else if 'A' <= c <= 'F' then Some(c as int - 'A' as int + 10)
    else None
  }

  /** The escape serde_json writes for one character: quote and backslash get a
      backslash, five control characters their short escape, the other control
      characters `\u00XX` with lower-case hex, everything else stays. */
  function EscapeChar(c: char): string {
    var code := c as int;
    if c == '"' then ['\\', '"']
    else if c == '\\' then ['\\', '\\']
    else if code == 0x08 then ['\\', 'b']
    else if code == 0x09 then ['\\', 't']
    else if code == 0x0a then ['\\', 'n']
    else if code == 0x0c then ['\\', 'f']
    else if code == 0x0d then ['\\', 'r']
    else if code < 0x20 then ['\\', 'u', '0', '0', HexDigit(code / 16), HexDigit(code % 16)]
    else [c]
  }

  function Escape(s: string): string {
    if s == [] then [] else EscapeChar(s[0]) + Escape(s[1..])
  }

  /** A string value as it appears in serialised JSON, quotes included. */
  function Quote(s: string): string {
    ['"'] + Escape(s) + ['"']
  }

  /** The character a one-letter escape stands for. */
  function ShortEscape(e: char): Option<char> {
    if e == '"' then Some('"')
    else if e == '\\' then Some('\\')
    else if e == '/' then Some('/')
    else if e == 'b' then Some(0x08 as char)
    else if e == 't' then Some(0x09 as char)
    else if e == 'n' then Some(0x0a as char)
    else if e == 'f' then Some(0x0c as char)
    else if e == 'r' then Some(0x0d as char)
    else None
  }

  /** The value of four hex digits. */
  function Hex4(h: string): Option<nat>
    requires |h| == 4
  {
    match (HexValue(h[0]), HexValue(h[1]), HexValue(h[2]), HexValue(h[3]))
    case (Some(a), Some(b), Some(c), Some(d)) => Some(((a * 16 + b) * 16 + c) * 16 + d)
    case _ => None
  }

  /** Reads the body of a JSON string (what lies between the quotes) back into
      the text it stands for; `None` when it is not a well-formed body. Code
      points at or above U+D800 in a `\u` escape are not read. */
  function Unescape(t: string): Option<string>
    decreases |t|
  {
    if t == [] then Some([])
    else if t[0] != '\\' then
      if t[0] == '"' || (t[0] as int) < 0x20 then None
      else match Unescape(t[1..])
        case Some(rest) => Some([t[0]] + rest)
        case None => None
    else if |t| < 2 then None
    else if t[1] == 'u' then
      if |t| < 6 then None
      else match Hex4(t[2..6])
        case Some(code) =>
          if code < 0xD800 then
            (match Unescape(t[6..])
             case Some(rest) => Some([code as char] + rest)
             case None => None)
          else None
        case None => None
    else match ShortEscape(t[1])
      case Some(c) =>
        (match Unescape(t[2..])
         case Some(rest) => Some([c] + rest)
         case None => None)
      case None => None
  }

  lemma HexRoundTrip(d: nat)
    requires d < 16
    ensures HexValue(HexDigit(d)) == Some(d)
  {
  }

  lemma {:induction false} UnescapeEscapedChar(c: char, t: string)
    ensures Unescape(EscapeChar(c) + t) ==
      match Unescape(t)
      case Some(rest) => Some([c] + rest)
      case None => None
  {
    var code := c as int;
    var u := EscapeChar(c) + t;
    if c == '"' || c == '\\' || code == 0x08 || code == 0x09 || code == 0x0a || code == 0x0c || code == 0x0d {
      assert u[2..] == t;
    } else if code < 0x20 {
      HexRoundTrip(code / 16);
      HexRoundTrip(code % 16);
      assert u[2..6] == ['0', '0', HexDigit(code / 16), HexDigit(code % 16)];
      assert u[6..] == t;
      assert (code as char) == c;
    } else {
      assert u[1..] == t;
    }
  }

  /** The escaping is lossless: reading back the escaped text gives the text. */
  lemma {:induction false} EscapeRoundTrip(s: string)
    ensures Unescape(Escape(s)) == Some(s)
  {
    if s != [] {
      UnescapeEscapedChar(s[0], Escape(s[1..]));
      EscapeRoundTrip(s[1..]);
      assert [s[0]] + s[1..] == s;
    }
  }

  /** Every quote in an escaped string directly follows a backslash. */
  lemma {:induction false} EscapeHasNoBareQuote(s: string)
    ensures forall i :: 0 <= i < |Escape(s)| && Escape(s)[i] == '"' ==> i > 0 && Escape(s)[i - 1] == '\\'
  {
    if s != [] {
      EscapeHasNoBareQuote(s[1..]);
      var e := EscapeChar(s[0]);
      var rest := Escape(s[1..]);
      forall i | 0 <= i < |e + rest| && (e + rest)[i] == '"'
        ensures i > 0 && (e + rest)[i - 1] == '\\'
      {
        if i >= |e| {
          assert rest[i - |e|] == '"';
        }
      }
    }
  }

  /** Where a JSON reader ends the string whose body starts `t`: the index of
      the first quote that is not the character after a backslash. */
  function ClosingQuote(t: string): (end: Option<nat>)
    ensures end.Some? ==> end.value < |t| && t[end.value] == '"'
    decreases |t|
  {
    if t == [] then None
    else if t[0] == '"' then Some(0)
    else if t[0] == '\\' then
      if |t| < 2 then None
      else match ClosingQuote(t[2..])
        case Some(k) => Some(k + 2)
        case None => None
    else match ClosingQuote(t[1..])
      case Some(k) => Some(k + 1)
      case None => None
  }

  lemma ClosingQuoteAfterPlain(c: char, u: string)
    requires c != '"' && c != '\\'
    requires ClosingQuote(u).Some?
    ensures ClosingQuote([c] + u) == Some(1 + ClosingQuote(u).value)
  {
    assert ([c] + u)[1..] == u;
  }

  lemma ClosingQuoteAfterPair(e: char, u: string)
    requires ClosingQuote(u).Some?
    ensures ClosingQuote(['\\', e] + u) == Some(2 + ClosingQuote(u).value)
  {
    assert (['\\', e] + u)[2..] == u;
  }

  lemma ClosingQuoteAfterControl(code: nat, u: string)
    requires code < 0x20
    requires ClosingQuote(u).Some?
    ensures ClosingQuote(['\\', 'u', '0', '0', HexDigit(code / 16), HexDigit(code % 16)] + u)
      == Some(6 + ClosingQuote(u).value)
  {
    var h1, h2 := HexDigit(code / 16), HexDigit(code % 16);
    ClosingQuoteAfterPlain(h2, u);
    ClosingQuoteAfterPlain(h1, [h2] + u);
    ClosingQuoteAfterPlain('0', [h1] + ([h2] + u));
    ClosingQuoteAfterPlain('0', ['0'] + ([h1] + ([h2] + u)));
    assert (['\\', 'u', '0', '0', h1, h2] + u)[2..] == ['0'] + (['0'] + ([h1] + ([h2] + u)));
  }

  lemma ClosingQuoteAfterEscapedChar(c: char, u: string)
    requires ClosingQuote(u).Some?
    ensures ClosingQuote(EscapeChar(c) + u) == Some(|EscapeChar(c)| + ClosingQuote(u).value)
  {
    var code := c as int;
    if c == '"' || c == '\\' {
      ClosingQuoteAfterPair(c, u);
    } else if code == 0x08 {
      ClosingQuoteAfterPair('b', u);
    } else if code == 0x09 {
      ClosingQuoteAfterPair('t', u);
    } else if code == 0x0a {
      ClosingQuoteAfterPair('n', u);
    } else if code == 0x0c {
      ClosingQuoteAfterPair('f', u);
    } else if code == 0x0d {
      ClosingQuoteAfterPair('r', u);
    } else if code < 0x20 {
      ClosingQuoteAfterControl(code, u);
    } else {
      ClosingQuoteAfterPlain(c, u);
    }
  }

  lemma {:induction false} ClosingQuoteOfEscaped(s: string, rest: string)
    ensures ClosingQuote(Escape(s) + ['"'] + rest) == Some(|Escape(s)|)
  {
    if s == [] {
      assert Escape(s) + ['"'] + rest == ['"'] + rest;
    } else {
      ClosingQuoteOfEscaped(s[1..], rest);
      ClosingQuoteAfterEscapedChar(s[0], Escape(s[1..]) + ['"'] + rest);
      assert Escape(s) + ['"'] + rest == EscapeChar(s[0]) + (Escape(s[1..]) + ['"'] + rest);
    }
  }

  /** A serialised string cannot close early: whatever follows it, the string
      its opening quote starts ends exactly at its own closing quote. */
  lemma QuotedStringClosesAtItsEnd(s: string, rest: string)
    ensures |Quote(s)| >= 2
    ensures ClosingQuote((Quote(s) + rest)[1..]) == Some(|Quote(s)| - 2)
  {
    ClosingQuoteOfEscaped(s, rest);
    assert (Quote(s) + rest)[1..] == Escape(s) + ['"'] + rest;
  }
}
