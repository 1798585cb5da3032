/**
 * The part of JSON that the widget writes to and reads back from browser
 * storage.  `Stringify` writes what `JSON.stringify` writes for these values
 * (no white space, the standard escapes, lower-case hex digits in `\u00XX`);
 * `Parse` accepts the JSON grammar for null, booleans, non-negative integers,
 * strings whose `\u` escapes name a Unicode scalar value, arrays and objects,
 * white space included, and fails (None) on everything else: where
 * `JSON.parse` would throw, and also on an escaped surrogate (`\ud83d`),
 * which a `char` cannot hold.
 */
module Json {
  import opened Wrappers
  import Text

  datatype Value =
    | Null
    | Bool(b: bool)
    | Number(n: nat)
    | Str(s: string)
    | Array(items: seq<Value>)
    | Object(members: seq<Member>)

  datatype Member = Member(key: string, value: Value)

  // ================================================================ stringify

  function HexDigit(d: nat): char
    requires d < 16
  {
    if d < 10 then ('0' as int + d) as char else ('a' as int + d - 10) as char
  }

  /** How `JSON.stringify` writes one character inside a string literal. */
  function EscapeChar(c: char): string {
    if c == '"' then "\\\""
    else if c == '\\' then "\\\\"
    else if c == '\U{0008}' then "\\b"
    else if c == '\t' then "\\t"
    else if c == '\n' then "\\n"
    else if c == '\U{000C}' then "\\f"
    else if c == '\r' then "\\r"
    else if (c as int) < 0x20 then "\\u00" + [HexDigit(c as int / 16), HexDigit(c as int % 16)]
    else [c]
  }

  function Escape(s: string): string {
    if s == [] then "" else EscapeChar(s[0]) + Escape(s[1..])
  }

  function Quote(s: string): string {
    "\"" + Escape(s) + "\""
  }

  predicate IsWhiteSpace(c: char) {
    c == ' ' || c == '\t' || c == '\n' || c == '\r'
  }

  /** `JSON.stringify(v)`: never empty and never starting with white space. */
  function Stringify(v: Value): (r: string)
    ensures r != [] && !IsWhiteSpace(r[0])
  {
    match v
    case Null => "null"
    case Bool(b) => if b then "true" else "false"
    case Number(n) => Text.NatToString(n)
    case Str(s) => Quote(s)
    case Array(items) => "[" + StringifyItems(items) + "]"
    case Object(ms) => "{" + StringifyMembers(ms) + "}"
  }

  function StringifyItems(items: seq<Value>): string {
    if items == [] then ""
    else if |items| == 1 then Stringify(items[0])
    else Stringify(items[0]) + "," + StringifyItems(items[1..])
  }

  function StringifyMembers(ms: seq<Member>): string {
    if ms == [] then ""
    else
      var head := Quote(ms[0].key) + ":" + Stringify(ms[0].value);
      if |ms| == 1 then head else head + "," + StringifyMembers(ms[1..])
  }

  // ================================================================ parse

  function SkipWhiteSpace(s: string): (r: string)
    ensures |r| <= |s|
  {
    if s != [] && IsWhiteSpace(s[0]) then SkipWhiteSpace(s[1..]) else s
  }

  function HexValue(c: char): Option<nat> {
    if '0' <= c <= '9' then Some(c as int - '0' as int)
    else if 'a' <= c <= 'f' then Some(c as int - 'a' as int + 10)
    else if 'A' <= c <= 'F' then Some(c as int - 'A' as int + 10)
    else None
  }

  /** The character written by a `\uXXXX` escape; a UTF-16 surrogate is not a character here. */
  function UnicodeEscape(h: string): Option<char>
    requires |h| == 4
  {
    match (HexValue(h[0]), HexValue(h[1]), HexValue(h[2]), HexValue(h[3]))
    case (Some(a), Some(b), Some(c), Some(d)) =>
      var code := ((a * 16 + b) * 16 + c) * 16 + d;
      if 0xD800 <= code < 0xE000 then None else Some(code as char)
    case _ => None
  }

  /** The escape sequence at the start of `s` (the part after a backslash). */
  function ParseEscape(s: string): (r: Option<(char, string)>)
    ensures r.Some? ==> |r.value.1| < |s|
  {
    if s == [] then None
    else if s[0] == '"' then Some(('"', s[1..]))
    else if s[0] == '\\' then Some(('\\', s[1..]))
    else if s[0] == '/' then Some(('/', s[1..]))
    else if s[0] == 'b' then Some(('\U{0008}', s[1..]))
    else if s[0] == 'f' then Some(('\U{000C}', s[1..]))
    else if s[0] == 'n' then Some(('\n', s[1..]))
    else if s[0] == 'r' then Some(('\r', s[1..]))
    else if s[0] == 't' then Some(('\t', s[1..]))
    else if s[0] == 'u' && |s| >= 5 then
      match UnicodeEscape(s[1..5])
      case Some(c) => Some((c, s[5..]))
      case None => None
    else None
  }

  /** The rest of a string literal whose opening quote has been read: its
      characters and what follows the closing quote. */
  function ParseStringBody(s: string): (r: Option<(string, string)>)
    ensures r.Some? ==> |r.value.1| < |s|
  {
    if s == [] then None
    else if s[0] == '"' then Some(("", s[1..]))
    else if s[0] == '\\' then
      match ParseEscape(s[1..])
      case None => None
      case Some((c, rest)) =>
        match ParseStringBody(rest)
        case None => None
        case Some((body, after)) => Some(([c] + body, after))
    else if (s[0] as int) < 0x20 then None
    else
      match ParseStringBody(s[1..])
      case None => None
      case Some((body, after)) => Some(([s[0]] + body, after))
  }

  /** The number of decimal digits at the start of `s`. */
  function DigitRun(s: string): (k: nat)
    ensures k <= |s| && Text.AllDigits(s[..k])
    ensures k < |s| ==> !Text.IsDigit(s[k])
  {
    if s != [] && Text.IsDigit(s[0]) then
      var k := DigitRun(s[1..]);
      assert s[..k + 1] == [s[0]] + s[1..][..k];
      k + 1
    else 0
  }

  function ParseNumber(s: string): (r: Option<(Value, string)>)
    requires s != [] && Text.IsDigit(s[0])
    ensures r.Some? ==> |r.value.1| < |s|
  {
    var k := DigitRun(s);
    if s[0] == '0' && k > 1 then None  // JSON has no leading zeros
    else Some((Number(Text.DigitsValue(s[..k])), s[k..]))
  }

  function ParseLiteral(s: string, word: string, v: Value): (r: Option<(Value, string)>)
    requires word != []
    ensures r.Some? ==> |r.value.1| < |s|
  {
    if word <= s then Some((v, s[|word|..])) else None
  }

  /** A string value whose opening quote has been read. */
  function ParseString(s: string): (r: Option<(Value, string)>)
    ensures r.Some? ==> |r.value.1| < |s|
  {
    match ParseStringBody(s)
    case None => None
    case Some((body, rest)) => Some((Str(body), rest))
  }

  /** One JSON value at the start of `s` (after white space), and what follows it. */
  function ParseValue(s: string): (r: Option<(Value, string)>)
    ensures r.Some? ==> |r.value.1| < |s|
    decreases |s|, 0
  {
    var t := SkipWhiteSpace(s);
    if t == [] then None
    else if t[0] == 'n' then ParseLiteral(t, "null", Null)
    else if t[0] == 't' then ParseLiteral(t, "true", Bool(true))
    else if t[0] == 'f' then ParseLiteral(t, "false", Bool(false))
    else if Text.IsDigit(t[0]) then ParseNumber(t)
    else if t[0] == '"' then ParseString(t[1..])
    else if t[0] == '[' then ParseArray(t[1..])
    else if t[0] == '{' then ParseObject(t[1..])
    else None
  }

  /** An array whose `[` has been read. */
  function ParseArray(s: string): (r: Option<(Value, string)>)
    ensures r.Some? ==> |r.value.1| < |s|
    decreases |s|, 2
  {
    var t := SkipWhiteSpace(s);
    if t != [] && t[0] == ']' then Some((Array([]), t[1..]))
    else
      match ParseItems(t)
      case None => None
      case Some((items, rest)) => Some((Array(items), rest))
  }

  /** One or more comma-separated values and the closing `]`. */
  function ParseItems(s: string): (r: Option<(seq<Value>, string)>)
    ensures r.Some? ==> |r.value.1| < |s|
    decreases |s|, 1
  {
    match ParseValue(s)
    case None => None
    case Some((v, rest)) => ContinueItems(v, SkipWhiteSpace(rest))
  }

  /** After the value `v` of an array: the closing `]`, or a comma and more values. */
  function ContinueItems(v: Value, t: string): (r: Option<(seq<Value>, string)>)
    ensures r.Some? ==> |r.value.1| < |t|
    decreases |t|, 2
  {
    if t == [] then None
    else if t[0] == ']' then Some(([v], t[1..]))
    else if t[0] == ',' then
      match ParseItems(t[1..])
      case None => None
      case Some((vs, after)) => Some(([v] + vs, after))
    else None
  }

  /** An object whose `{` has been read. */
  function ParseObject(s: string): (r: Option<(Value, string)>)
    ensures r.Some? ==> |r.value.1| < |s|
    decreases |s|, 2
  {
    var t := SkipWhiteSpace(s);
    if t != [] && t[0] == '}' then Some((Object([]), t[1..]))
    else
      match ParseMembers(t)
      case None => None
      case Some((ms, rest)) => Some((Object(ms), rest))
  }

  /** One or more comma-separated `"key":value` members and the closing `}`. */
  function ParseMembers(s: string): (r: Option<(seq<Member>, string)>)
    ensures r.Some? ==> |r.value.1| < |s|
    decreases |s|, 1
  {
    var t := SkipWhiteSpace(s);
    if t == [] || t[0] != '"' then None
    else
      match ParseStringBody(t[1..])
      case None => None
      case Some((key, afterKey)) =>
        var u := SkipWhiteSpace(afterKey);
        if u == [] || u[0] != ':' then None
        else
          match ParseValue(u[1..])
          case None => None
          case Some((v, rest)) => ContinueMembers(Member(key, v), SkipWhiteSpace(rest))
  }

  /** After the member `m` of an object: the closing `}`, or a comma and more members. */
  function ContinueMembers(m: Member, w: string): (r: Option<(seq<Member>, string)>)
    ensures r.Some? ==> |r.value.1| < |w|
    decreases |w|, 2
  {
    if w == [] then None
    else if w[0] == '}' then Some(([m], w[1..]))
    else if w[0] == ',' then
      match ParseMembers(w[1..])
      case None => None
      case Some((more, after)) => Some(([m] + more, after))
    else None
  }

  /** `JSON.parse(s)`, None where it would throw. */
  function Parse(s: string): Option<Value> {
    match ParseValue(s)
    case None => None
    case Some((v, rest)) => if SkipWhiteSpace(rest) == [] then Some(v) else None
  }

  // ================================================================ round trip

  /** What may follow a value inside the text `Stringify` writes. */
  predicate EndsValue(rest: string) {
    rest == [] || rest[0] == ',' || rest[0] == ']' || rest[0] == '}'
  }

  lemma HexRoundTrip(d: nat)
    requires d < 16
    ensures HexValue(HexDigit(d)) == Some(d)
  {
  }

  lemma {:induction false} ParseEscapedChar(c: char, tail: string)
    ensures ParseStringBody(EscapeChar(c) + tail) ==
      match ParseStringBody(tail)
      case None => None
      case Some((body, after)) => Some(([c] + body, after))
  {
    var e := EscapeChar(c) + tail;
    if c == '"' || c == '\\' || c == '\U{0008}' || c == '\t' || c == '\n' || c == '\U{000C}' || c == '\r' {
      assert e[1..][1..] == tail;
    } else if (c as int) < 0x20 {
      var hi, lo := c as int / 16, c as int % 16;
      HexRoundTrip(hi);
      HexRoundTrip(lo);
      assert e[1..][1..5] == ['0', '0', HexDigit(hi), HexDigit(lo)];
      assert e[1..][5..] == tail;
    } else {
      assert e[1..] == tail;
    }
  }

  lemma {:induction false} ParseEscaped(s: string, rest: string)
    ensures ParseStringBody(Escape(s) + "\"" + rest) == Some((s, rest))
  {
    if s == [] {
      assert Escape(s) + "\"" + rest == "\"" + rest;
    } else {
      ParseEscaped(s[1..], rest);
      ParseEscapedChar(s[0], Escape(s[1..]) + "\"" + rest);
      assert Escape(s) + "\"" + rest == EscapeChar(s[0]) + (Escape(s[1..]) + "\"" + rest);
      assert [s[0]] + s[1..] == s;
    }
  }

  lemma SkipNoWhiteSpace(s: string)
    requires s == [] || !IsWhiteSpace(s[0])
    ensures SkipWhiteSpace(s) == s
  {
  }

  lemma ParseNatToString(n: nat, rest: string)
    requires EndsValue(rest)
    ensures ParseNumber(Text.NatToString(n) + rest) == Some((Number(n), rest))
  {
    var d := Text.NatToString(n);
    var s := d + rest;
    assert s[..|d|] == d && s[|d|..] == rest;
    assert forall i :: 0 <= i < |d| ==> s[i] == d[i];
    DigitRunOfDigits(d, rest);
    Text.DigitsValueOfNatToString(n);
  }

  lemma {:induction false} DigitRunOfDigits(d: string, rest: string)
    requires Text.AllDigits(d) && EndsValue(rest)
    ensures DigitRun(d + rest) == |d|
  {
    if d != [] {
      assert (d + rest)[1..] == d[1..] + rest;
      DigitRunOfDigits(d[1..], rest);
    }
  }

  /** `ParseValue` dispatches on the first character of text that starts without white space. */
  lemma ParseValueHead(s: string)
    requires s != [] && !IsWhiteSpace(s[0])
    ensures s[0] == '[' ==> ParseValue(s) == ParseArray(s[1..])
    ensures s[0] == '{' ==> ParseValue(s) == ParseObject(s[1..])
    ensures s[0] == '"' ==> ParseValue(s) == ParseString(s[1..])
    ensures Text.IsDigit(s[0]) ==> ParseValue(s) == ParseNumber(s)
    ensures s[0] == 'n' ==> ParseValue(s) == ParseLiteral(s, "null", Null)
    ensures s[0] == 't' ==> ParseValue(s) == ParseLiteral(s, "true", Bool(true))
    ensures s[0] == 'f' ==> ParseValue(s) == ParseLiteral(s, "false", Bool(false))
  {
    SkipNoWhiteSpace(s);
  }

  lemma Associate(a: string, b: string, c: string)
    ensures a + b + c == a + (b + c)
  {
  }

  /** `null`, `true` and `false` read back. */
  lemma ParseKeywordStringified(v: Value, rest: string)
    requires v.Null? || v.Bool?
    requires EndsValue(rest)
    ensures ParseValue(Stringify(v) + rest) == Some((v, rest))
  {
    var w := Stringify(v);
    var s := w + rest;
    assert w <= s && s[|w|..] == rest;
    ParseValueHead(s);
  }

  lemma ParseNumberStringified(n: nat, rest: string)
    requires EndsValue(rest)
    ensures ParseValue(Stringify(Number(n)) + rest) == Some((Number(n), rest))
  {
    var s := Text.NatToString(n) + rest;
    assert s[0] == Text.NatToString(n)[0];
    ParseValueHead(s);
    ParseNatToString(n, rest);
  }

  lemma ParseStrStringified(str: string, rest: string)
    ensures ParseValue(Stringify(Str(str)) + rest) == Some((Str(str), rest))
  {
    var s := Stringify(Str(str)) + rest;
    assert s == "\"" + (Escape(str) + "\"" + rest);
    ParseValueHead(s);
    ParseEscaped(str, rest);
  }

  lemma {:induction false} ParseStringified(v: Value, rest: string)
    requires EndsValue(rest)
    ensures ParseValue(Stringify(v) + rest) == Some((v, rest))
    decreases v, 2
  {
    match v
    case Array(items) => ParseArrayStringified(items, rest);
    case Object(ms) => ParseObjectStringified(ms, rest);
    case Number(n) => ParseNumberStringified(n, rest);
    case Str(str) => ParseStrStringified(str, rest);
    case _ => ParseKeywordStringified(v, rest);
  }

  lemma {:induction false} ParseArrayStringified(items: seq<Value>, rest: string)
    ensures ParseValue(Stringify(Array(items)) + rest) == Some((Array(items), rest))
    decreases items, 2
  {
    var s := Stringify(Array(items)) + rest;
    var body := StringifyItems(items) + "]" + rest;
    assert s[0] == '[' && s[1..] == body;
    ParseValueHead(s);
    if items == [] {
      assert body == "]" + rest;
      assert body[1..] == rest;
    } else {
      assert SkipWhiteSpace(body) == body by {
        assert body[0] == Stringify(items[0])[0];
        SkipNoWhiteSpace(body);
      }
      ParseItemsStringified(items, rest);
    }
  }

  lemma {:induction false} ParseObjectStringified(ms: seq<Member>, rest: string)
    ensures ParseValue(Stringify(Object(ms)) + rest) == Some((Object(ms), rest))
    decreases ms, 2
  {
    var s := Stringify(Object(ms)) + rest;
    var body := StringifyMembers(ms) + "}" + rest;
    assert s[0] == '{' && s[1..] == body;
    ParseValueHead(s);
    if ms == [] {
      assert body == "}" + rest;
      assert body[1..] == rest;
    } else {
      assert SkipWhiteSpace(body) == body by {
        assert body[0] == '"';
        SkipNoWhiteSpace(body);
      }
      ParseMembersStringified(ms, rest);
    }
  }

  /** What follows the first element in the text `StringifyItems` writes before `]` and `rest`. */
  function ItemsTail(items: seq<Value>, rest: string): string
    requires items != []
  {
    if |items| == 1 then "]" + rest else "," + (StringifyItems(items[1..]) + "]" + rest)
  }

  lemma ItemsText(items: seq<Value>, rest: string)
    requires items != []
    ensures StringifyItems(items) + "]" + rest == Stringify(items[0]) + ItemsTail(items, rest)
  {
    var first := Stringify(items[0]);
    if |items| == 1 {
      Associate(first, "]", rest);
    } else {
      var more := StringifyItems(items[1..]);
      assert StringifyItems(items) == first + "," + more;
      calc {
        first + "," + more + "]" + rest;
        { Associate(first + "," + more, "]", rest); }
        first + "," + more + ("]" + rest);
        { Associate(first + ",", more, "]" + rest); }
        first + "," + (more + ("]" + rest));
        { Associate(first, ",", more + ("]" + rest)); }
        first + ("," + (more + ("]" + rest)));
        { Associate(more, "]", rest); }
        first + ("," + (more + "]" + rest));
      }
    }
  }

  lemma ParseFirstItemStringified(items: seq<Value>, rest: string)
    requires items != []
    ensures ParseItems(StringifyItems(items) + "]" + rest) == ContinueItems(items[0], ItemsTail(items, rest))
    decreases items, 0
  {
    var t := ItemsTail(items, rest);
    ItemsText(items, rest);
    ParseStringified(items[0], t);
    SkipNoWhiteSpace(t);
  }

  lemma ContinueLastItem(v: Value, t: string, rest: string)
    requires t == "]" + rest
    ensures ContinueItems(v, t) == Some(([v], rest))
  {
    assert t[1..] == rest;
  }

  lemma ContinueMoreItems(v: Value, t: string, more: seq<Value>, rest: string)
    requires t != [] && t[0] == ',' && ParseItems(t[1..]) == Some((more, rest))
    ensures ContinueItems(v, t) == Some(([v] + more, rest))
  {
  }

  lemma {:induction false} ParseItemsStringified(items: seq<Value>, rest: string)
    requires items != []
    ensures ParseItems(StringifyItems(items) + "]" + rest) == Some((items, rest))
    decreases items, 1
  {
    ParseFirstItemStringified(items, rest);
    var t := ItemsTail(items, rest);
    if |items| == 1 {
      ContinueLastItem(items[0], t, rest);
      assert [items[0]] == items;
    } else {
      var more := StringifyItems(items[1..]) + "]" + rest;
      ParseItemsStringified(items[1..], rest);
      assert t == "," + more && t[1..] == more;
      ContinueMoreItems(items[0], t, items[1..], rest);
      assert [items[0]] + items[1..] == items;
    }
  }

  /** Reading the key and the colon of a member written without white space. */
  lemma ParseMemberHead(s: string, key: string, tail: string)
    requires s == Quote(key) + ":" + tail
    ensures SkipWhiteSpace(s) == s && s != [] && s[0] == '"'
    ensures ParseStringBody(s[1..]) == Some((key, ":" + tail))
  {
    assert s == "\"" + (Escape(key) + "\"" + (":" + tail));
    SkipNoWhiteSpace(s);
    assert s[1..] == Escape(key) + "\"" + (":" + tail);
    ParseEscaped(key, ":" + tail);
  }

  /** Reading one member written without white space, up to what follows its value. */
  lemma ParseMemberStringified(s: string, m: Member, t: string)
    requires s == Quote(m.key) + ":" + (Stringify(m.value) + t)
    requires ParseValue(Stringify(m.value) + t) == Some((m.value, t))
    requires SkipWhiteSpace(t) == t
    ensures ParseMembers(s) == ContinueMembers(m, t)
  {
    ParseMemberHead(s, m.key, Stringify(m.value) + t);
    var u := ":" + (Stringify(m.value) + t);
    SkipNoWhiteSpace(u);
    assert u[1..] == Stringify(m.value) + t;
  }

  /** What follows the first member's value in the text `StringifyMembers` writes before `}` and `rest`. */
  function MembersTail(ms: seq<Member>, rest: string): string
    requires ms != []
  {
    if |ms| == 1 then "}" + rest else "," + (StringifyMembers(ms[1..]) + "}" + rest)
  }

  lemma MembersText(ms: seq<Member>, rest: string)
    requires ms != []
    ensures StringifyMembers(ms) + "}" + rest ==
      Quote(ms[0].key) + ":" + (Stringify(ms[0].value) + MembersTail(ms, rest))
  {
    var key := Quote(ms[0].key) + ":";
    var first := Stringify(ms[0].value);
    var tail := MembersTail(ms, rest);
    if |ms| == 1 {
      assert StringifyMembers(ms) == key + first;
      calc {
        key + first + "}" + rest;
        { Associate(key + first, "}", rest); }
        key + first + ("}" + rest);
        { Associate(key, first, "}" + rest); }
        key + (first + ("}" + rest));
      }
    } else {
      var more := StringifyMembers(ms[1..]);
      assert StringifyMembers(ms) == key + first + "," + more;
      calc {
        key + first + "," + more + "}" + rest;
        { Associate(key + first + "," + more, "}", rest); }
        key + first + "," + more + ("}" + rest);
        { Associate(key + first + ",", more, "}" + rest); }
        key + first + "," + (more + ("}" + rest));
        { Associate(key + first, ",", more + ("}" + rest)); }
        key + first + ("," + (more + ("}" + rest)));
        { Associate(key, first, "," + (more + ("}" + rest))); }
        key + (first + ("," + (more + ("}" + rest))));
        { Associate(more, "}", rest); }
        key + (first + tail);
      }
    }
  }

  lemma ParseFirstMemberStringified(ms: seq<Member>, rest: string)
    requires ms != []
    ensures ParseMembers(StringifyMembers(ms) + "}" + rest) == ContinueMembers(ms[0], MembersTail(ms, rest))
    decreases ms, 0
  {
    var t := MembersTail(ms, rest);
    MembersText(ms, rest);
    ParseStringified(ms[0].value, t);
    SkipNoWhiteSpace(t);
    ParseMemberStringified(StringifyMembers(ms) + "}" + rest, ms[0], t);
  }

  lemma ContinueLastMember(m: Member, t: string, rest: string)
    requires t == "}" + rest
    ensures ContinueMembers(m, t) == Some(([m], rest))
  {
    assert t[1..] == rest;
  }

  lemma ContinueMoreMembers(m: Member, t: string, more: seq<Member>, rest: string)
    requires t != [] && t[0] == ',' && ParseMembers(t[1..]) == Some((more, rest))
    ensures ContinueMembers(m, t) == Some(([m] + more, rest))
  {
  }

  lemma {:induction false} ParseMembersStringified(ms: seq<Member>, rest: string)
    requires ms != []
    ensures ParseMembers(StringifyMembers(ms) + "}" + rest) == Some((ms, rest))
    decreases ms, 1
  {
    ParseFirstMemberStringified(ms, rest);
    var t := MembersTail(ms, rest);
    if |ms| == 1 {
      ContinueLastMember(ms[0], t, rest);
      assert [ms[0]] == ms;
    } else {
      var more := StringifyMembers(ms[1..]) + "}" + rest;
      ParseMembersStringified(ms[1..], rest);
      assert t == "," + more && t[1..] == more;
      ContinueMoreMembers(ms[0], t, ms[1..], rest);
      assert [ms[0]] + ms[1..] == ms;
    }
  }

  /** `JSON.parse(JSON.stringify(v))` gives `v` back. */
  lemma ParseStringify(v: Value)
    ensures Parse(Stringify(v)) == Some(v)
  {
    ParseStringified(v, []);
    assert Stringify(v) + [] == Stringify(v);
  }

  // ================================================================ reading records

  /** A property of a parsed object; like `JSON.parse`, a later duplicate key wins. */
  function Lookup(ms: seq<Member>, key: string): (r: Option<Value>)
    ensures r.Some? <==> exists i :: 0 <= i < |ms| && ms[i].key == key
  {
    if ms == [] then None
    else if ms[|ms| - 1].key == key then Some(ms[|ms| - 1].value)
    else
      var r := Lookup(ms[..|ms| - 1], key);
      assert forall i :: 0 <= i < |ms| - 1 ==> ms[..|ms| - 1][i] == ms[i];
      r
  }

  /** The member at `i` is the one found when no later member has its key. */
  lemma {:induction false} LookupAt(ms: seq<Member>, i: nat)
    requires i < |ms|
    requires forall j :: i < j < |ms| ==> ms[j].key != ms[i].key
    ensures Lookup(ms, ms[i].key) == Some(ms[i].value)
  {
    if i < |ms| - 1 {
      var init := ms[..|ms| - 1];
      assert init[i] == ms[i];
      assert forall j :: i < j < |init| ==> init[j] == ms[j];
      LookupAt(init, i);
    }
  }

  function Field(v: Value, key: string): Option<Value> {
    if v.Object? then Lookup(v.members, key) else None
  }

  function AsString(v: Option<Value>): Option<string> {
    if v.Some? && v.value.Str? then Some(v.value.s) else None
  }

  function AsNumber(v: Option<Value>): Option<nat> {
    if v.Some? && v.value.Number? then Some(v.value.n) else None
  }

  function StrValue(s: string): Value {
    Str(s)
  }

  function StringOf(v: Value): Option<string> {
    if v.Str? then Some(v.s) else None
  }

  /** The JSON array of the encodings of `xs`. */
  function ArrayOf<T>(xs: seq<T>, encode: T -> Value): (v: Value)
    ensures v.Array? && |v.items| == |xs|
  {
    Array(seq(|xs|, i requires 0 <= i < |xs| => encode(xs[i])))
  }

  function DecodeAll<T>(vs: seq<Value>, decode: Value -> Option<T>): (r: Option<seq<T>>)
    ensures r.Some? ==> |r.value| == |vs|
  {
    if vs == [] then Some([])
    else
      match (decode(vs[0]), DecodeAll(vs[1..], decode))
      case (Some(x), Some(xs)) => Some([x] + xs)
      case _ => None
  }

  /** A JSON array all of whose elements decode; as many results as elements. */
  function FromArray<T>(v: Value, decode: Value -> Option<T>): (r: Option<seq<T>>)
    ensures r.Some? ==> v.Array? && |r.value| == |v.items|
  {
    if v.Array? then DecodeAll(v.items, decode) else None
  }

  lemma {:induction false} DecodeAllEncoded<T>(xs: seq<T>, encode: T -> Value, decode: Value -> Option<T>)
    requires forall x :: decode(encode(x)) == Some(x)
    ensures DecodeAll(seq(|xs|, i requires 0 <= i < |xs| => encode(xs[i])), decode) == Some(xs)
  {
    var vs := seq(|xs|, i requires 0 <= i < |xs| => encode(xs[i]));
    if xs != [] {
      DecodeAllEncoded(xs[1..], encode, decode);
      assert vs[1..] == seq(|xs[1..]|, i requires 0 <= i < |xs[1..]| => encode(xs[1..][i]));
      assert [xs[0]] + xs[1..] == xs;
    }
  }

  /** Decoding an encoded array gives the elements back when each element round-trips. */
  lemma ArrayRoundTrip<T>(xs: seq<T>, encode: T -> Value, decode: Value -> Option<T>)
    requires forall x :: decode(encode(x)) == Some(x)
    ensures FromArray(ArrayOf(xs, encode), decode) == Some(xs)
  {
    DecodeAllEncoded(xs, encode, decode);
  }

  lemma StringRoundTrip()
    ensures forall s :: StringOf(StrValue(s)) == Some(s)
  {
  }

  // ================================================================ `.length`

  /** What reading a property of a parsed value gives in JavaScript. */
  datatype Property = Undefined | Defined(value: Value) | TypeError

  /** `JSON.parse(text).length`: the element count of an array, the UTF-16 length of a
      string, an object's own `length` member; reading it from `null` throws. */
  function LengthOf(v: Value): Property {
    match v
    case Null => TypeError
    case Bool(_) => Undefined
    case Number(_) => Undefined
    case Str(s) => Defined(Number(Text.Utf16Length(s)))
    case Array(items) => Defined(Number(|items|))
    case Object(ms) =>
      match Lookup(ms, "length")
      case Some(x) => Defined(x)
      case None => Undefined
  }
}
