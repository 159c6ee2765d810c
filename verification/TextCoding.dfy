/**
 The text encodings under thread keys: UTF-8, percent-encoding (sections 2.1 and 2.3 of RFC 3986) and JSON strings.
 */
module TextCoding {
  import opened Basics

  type Byte = b: int | 0 <= b < 256

  // ----- UTF-8 -----

  function Utf8Char(c: char): seq<Byte> {
    var n := c as int;
    if n < 0x80 then [n]
    else if n < 0x800 then [0xC0 + n / 64, 0x80 + n % 64]
    else if n < 0x10000 then [0xE0 + n / 4096, 0x80 + n / 64 % 64, 0x80 + n % 64]
    else [0xF0 + n / 262144, 0x80 + n / 4096 % 64, 0x80 + n / 64 % 64, 0x80 + n % 64]
  }

  function Utf8(s: string): seq<Byte> {
    if s == "" then [] else Utf8Char(s[0]) + Utf8(s[1..])
  }

  predicate Scalar(n: int) {
    0 <= n < 0xD800 || 0xE000 <= n < 0x11_0000
  }

  /** The first character of encoded text and how many bytes it took. */
  function FirstChar(b: seq<Byte>): Option<(char, nat)> {
    if |b| >= 1 && b[0] < 0x80 then OneChar(b[0], 1)
    else if |b| >= 2 && 0xC0 <= b[0] < 0xE0 then OneChar(b[0] as int * 64 + b[1] as int - 12416, 2)
    else if |b| >= 3 && 0xE0 <= b[0] < 0xF0
      then OneChar(b[0] as int * 4096 + b[1] as int * 64 + b[2] as int - 925824, 3)
    else if |b| >= 4 && 0xF0 <= b[0] then
      OneChar(b[0] as int * 262144 + b[1] as int * 4096 + b[2] as int * 64 + b[3] as int - 63447168, 4)
    else None
  }

  function OneChar(n: int, length: nat): Option<(char, nat)> {
    if Scalar(n) then Some((n as char, length)) else None
  }

  function FromUtf8(b: seq<Byte>): Option<string>
    decreases |b|
  {
    if b == [] then Some("")
    else match FirstChar(b)
      case None => None
      case Some((c, k)) =>
        if k == 0 || k > |b| then None
        else match FromUtf8(b[k..]) case None => None case Some(rest) => Some([c] + rest)
  }

  lemma FirstCharOfEncoded(c: char, rest: seq<Byte>)
    ensures FirstChar(Utf8Char(c) + rest) == Some((c, |Utf8Char(c)|))
  {
    var n := c as int;
    assert n < 0xD800 || 0xE000 <= n < 0x11_0000;
    var e := Utf8Char(c);
    var b := e + rest;
    assert forall i :: 0 <= i < |e| ==> b[i] == e[i];
    if n < 0x80 {
    } else if n < 0x800 {
      assert (n / 64) * 64 + n % 64 == n;
    } else if n < 0x10000 {
      assert n / 64 == (n / 4096) * 64 + n / 64 % 64;
      assert (n / 64) * 64 + n % 64 == n;
    } else {
      assert n / 4096 == (n / 262144) * 64 + n / 4096 % 64;
      assert n / 64 == (n / 4096) * 64 + n / 64 % 64;
      assert (n / 64) * 64 + n % 64 == n;
    }
  }

  lemma {:induction false} Utf8RoundTrip(s: string)
    ensures FromUtf8(Utf8(s)) == Some(s)
  {
    if s != "" {
      FirstCharOfEncoded(s[0], Utf8(s[1..]));
      assert Utf8(s)[|Utf8Char(s[0])|..] == Utf8(s[1..]);
      Utf8RoundTrip(s[1..]);
      assert [s[0]] + s[1..] == s;
    }
  }

  lemma Utf8Injective(s: string, t: string)
    requires Utf8(s) == Utf8(t)
    ensures s == t
  {
    Utf8RoundTrip(s);
    Utf8RoundTrip(t);
  }

  // ----- Percent-encoding -----

  /** Letters, digits and "-._~@" stand for themselves. */
  predicate Unreserved(b: Byte) {
    ('a' as int <= b <= 'z' as int) || ('A' as int <= b <= 'Z' as int) || ('0' as int <= b <= '9' as int)
    || b == '-' as int || b == '.' as int || b == '_' as int || b == '~' as int || b == '@' as int
  }

  function HexDigit(n: int): char
    requires 0 <= n < 16
  {
    if n < 10 then (48 + n) as char else (55 + n) as char
  }

  function HexValue(c: char): Option<int> {
    if '0' <= c <= '9' then Some(c as int - 48) else if 'A' <= c <= 'F' then Some(c as int - 55) else None
  }

  function QuoteByte(b: Byte): string {
    if Unreserved(b) then [b as char] else ['%', HexDigit(b / 16), HexDigit(b % 16)]
  }

  function Quote(bytes: seq<Byte>): string {
    if bytes == [] then "" else QuoteByte(bytes[0]) + Quote(bytes[1..])
  }

  function Unquote(s: string): Option<seq<Byte>>
    decreases |s|
  {
    if s == "" then Some([])
    else if s[0] == '%' then
      if |s| < 3 then None
      else match (HexValue(s[1]), HexValue(s[2]))
        case (Some(h), Some(l)) => (match Unquote(s[3..]) case Some(rest) => Some([h * 16 + l] + rest)
          case None => None)
        case _ => None
    else if s[0] as int >= 256 then None
    else match Unquote(s[1..]) case Some(rest) => Some([s[0] as int] + rest) case None => None
  }

  /** Text of unreserved characters and percent escapes; in particular it holds no colon. */
  predicate Plain(s: string) {
    forall i :: 0 <= i < |s| ==> s[i] != ':'
  }

  lemma {:induction false} QuoteRoundTrip(bytes: seq<Byte>)
    ensures Unquote(Quote(bytes)) == Some(bytes) && Plain(Quote(bytes))
  {
    if bytes != [] {
      var q, rest := QuoteByte(bytes[0]), Quote(bytes[1..]);
      QuoteRoundTrip(bytes[1..]);
      assert Quote(bytes)[|q|..] == rest;
      assert forall i :: 0 <= i < |q| ==> Quote(bytes)[i] == q[i] && q[i] != ':';
      assert forall i :: |q| <= i < |Quote(bytes)| ==> Quote(bytes)[i] == rest[i - |q|];
      assert [bytes[0]] + bytes[1..] == bytes;
    }
  }

  function EncodeSegment(s: string): string {
    Quote(Utf8(s))
  }

  function DecodeSegment(s: string): Option<string> {
    match Unquote(s) case None => None case Some(b) => FromUtf8(b)
  }

  /** A readable segment decodes back to the text it came from and never contains the separator. */
  lemma SegmentRoundTrip(s: string)
    ensures DecodeSegment(EncodeSegment(s)) == Some(s) && Plain(EncodeSegment(s))
  {
    Utf8RoundTrip(s);
    QuoteRoundTrip(Utf8(s));
  }

  predicate Safe(c: char) {
    'a' <= c <= 'z' || 'A' <= c <= 'Z' || '0' <= c <= '9' || c in {'-', '.', '_', '~', '@'}
  }

  lemma {:induction false} QuoteAppend(a: seq<Byte>, b: seq<Byte>)
    ensures Quote(a + b) == Quote(a) + Quote(b)
  {
    if a == [] {
      assert a + b == b;
    } else {
      assert (a + b)[1..] == a[1..] + b;
      QuoteAppend(a[1..], b);
    }
  }

  lemma CharCode(c: char)
    ensures Safe(c) ==> Quote(Utf8Char(c)) == [c]
    ensures !Safe(c) ==> |Quote(Utf8Char(c))| >= 3
  {
    var b := Utf8Char(c);
    assert Quote(b) == QuoteByte(b[0]) + Quote(b[1..]);
    if |b| == 1 { assert Quote(b[1..]) == ""; }
  }

  /** A text is its own encoding exactly when it is made of letters, digits and "-._~@"; no encoding is shorter. */
  lemma {:induction false} OwnEncodingIff(s: string)
    ensures EncodeSegment(s) == s <==> forall i :: 0 <= i < |s| ==> Safe(s[i])
    ensures |s| <= |EncodeSegment(s)| && (EncodeSegment(s) != s ==> |s| < |EncodeSegment(s)|)
  {
    if s != "" {
      var head, rest := Quote(Utf8Char(s[0])), EncodeSegment(s[1..]);
      QuoteAppend(Utf8Char(s[0]), Utf8(s[1..]));
      CharCode(s[0]);
      OwnEncodingIff(s[1..]);
      assert EncodeSegment(s) == head + rest && s == [s[0]] + s[1..];
      if Safe(s[0]) { assert EncodeSegment(s)[1..] == rest; }
    }
  }

  // ----- Joining with colons -----

  function Join(segments: seq<string>): string
    requires segments != []
  {
    if |segments| == 1 then segments[0] else segments[0] + ":" + Join(segments[1..])
  }

  function FirstColon(s: string): (n: nat)
    ensures n <= |s| && (forall i :: 0 <= i < n ==> s[i] != ':') && (n < |s| ==> s[n] == ':')
  {
    if s == "" || s[0] == ':' then 0 else 1 + FirstColon(s[1..])
  }

  function Split(s: string): (r: seq<string>)
    ensures r != []
    decreases |s|
  {
    var n := FirstColon(s);
    if n == |s| then [s] else [s[..n]] + Split(s[n + 1..])
  }

  lemma FirstSegment(head: string, rest: string)
    requires Plain(head)
    ensures var s := head + ":" + rest;
      FirstColon(s) == |head| && |head| < |s| && s[..|head|] == head && s[|head| + 1..] == rest
  {
    var s := head + ":" + rest;
    assert s[|head|] == ':';
    assert forall i :: 0 <= i < |head| ==> s[i] == head[i];
  }

  lemma {:induction false} SplitRoundTrip(segments: seq<string>)
    requires segments != [] && forall i :: 0 <= i < |segments| ==> Plain(segments[i])
    ensures Split(Join(segments)) == segments
    decreases |segments|
  {
    var s := Join(segments);
    if |segments| > 1 {
      SplitRoundTrip(segments[1..]);
      FirstSegment(segments[0], Join(segments[1..]));
      assert [segments[0]] + segments[1..] == segments;
    } else {
      assert s == segments[0] && FirstColon(s) == |s| && segments == [s];
    }
  }

  // ----- JSON strings -----

  function LowerHex(n: int): char
    requires 0 <= n < 16
  {
    if n < 10 then (48 + n) as char else (87 + n) as char
  }

  function LowerHexValue(c: char): int {
    if '0' <= c <= '9' then c as int - 48 else c as int - 87
  }

  /** json.dumps with ensure_ascii=False: quotes, backslashes and control characters are escaped. */
  function EscapeChar(c: char): string {
    if c == '"' then ['\\', '"']
    else if c == '\\' then ['\\', '\\']
    else if c as int == 8 then ['\\', 'b']
    else if c as int == 12 then ['\\', 'f']
    else if c as int == 10 then ['\\', 'n']
    else if c as int == 13 then ['\\', 'r']
    else if c as int == 9 then ['\\', 't']
    else if c as int < 32 then ['\\', 'u', '0', '0', LowerHex(c as int / 16), LowerHex(c as int % 16)]
    else [c]
  }

  function Escape(s: string): string {
    if s == "" then "" else EscapeChar(s[0]) + Escape(s[1..])
  }

  /** The first character of escaped text and how many characters it took; None at the closing quote. */
  function FirstEscaped(t: string): Option<(char, nat)> {
    if t == "" || t[0] == '"' then None
    else if t[0] != '\\' then Some((t[0], 1))
    else if |t| < 2 then None
    else if t[1] == 'b' then Some((8 as char, 2))
    else if t[1] == 'f' then Some((12 as char, 2))
    else if t[1] == 'n' then Some((10 as char, 2))
    else if t[1] == 'r' then Some((13 as char, 2))
    else if t[1] == 't' then Some((9 as char, 2))
    else if t[1] == 'u' then
      if |t| < 6 then None
      else
        var n := LowerHexValue(t[4]) * 16 + LowerHexValue(t[5]);
        if Scalar(n) then Some((n as char, 6)) else None
    else Some((t[1], 2))
  }

  lemma FirstOfEscape(c: char, rest: string)
    ensures FirstEscaped(EscapeChar(c) + rest) == Some((c, |EscapeChar(c)|))
  {
    var e := EscapeChar(c);
    var t := e + rest;
    assert forall i :: 0 <= i < |e| ==> t[i] == e[i];
    if |e| == 6 {
      assert (c as int / 16) * 16 + c as int % 16 == c as int;
    }
  }

  /** Reads a JSON string up to its closing quote: the text and what follows it. */
  function ReadString(t: string): Option<(string, string)>
    decreases |t|
  {
    if t == "" then None
    else if t[0] == '"' then Some(("", t[1..]))
    else match FirstEscaped(t)
      case None => None
      case Some((c, k)) =>
        if k == 0 || k > |t| then None
        else match ReadString(t[k..]) case None => None case Some((s, rest)) => Some(([c] + s, rest))
  }

  lemma EscapeStep(c: char, more: string)
    ensures var t := EscapeChar(c) + more;
      t != "" && t[0] != '"' && FirstEscaped(t) == Some((c, |EscapeChar(c)|)) && t[|EscapeChar(c)|..] == more
  {
    FirstOfEscape(c, more);
  }

  /** A JSON string ends at its own closing quote: what follows cannot be confused with its content. */
  lemma {:induction false} StringRoundTrip(s: string, rest: string)
    ensures ReadString(Escape(s) + (['"'] + rest)) == Some((s, rest))
    decreases |s|
  {
    if s == "" {
      assert Escape(s) + (['"'] + rest) == ['"'] + rest;
      assert (['"'] + rest)[1..] == rest;
    } else {
      var more := Escape(s[1..]) + (['"'] + rest);
      assert Escape(s) + (['"'] + rest) == EscapeChar(s[0]) + more;
      EscapeStep(s[0], more);
      StringRoundTrip(s[1..], rest);
      assert [s[0]] + s[1..] == s;
    }
  }

  /** A field of the canonical document: a string or null. */
  type Value = Option<string>

  function Json(v: Value): string {
    match v case None => "null" case Some(s) => ['"'] + Escape(s) + ['"']
  }

  /** Reads a value that something follows. */
  function ReadValue(t: string): Option<(Value, string)> {
    if t == "" then None
    else if t[0] == '"' then match ReadString(t[1..]) case None => None case Some((s, rest)) => Some((Some(s), rest))
    else if |t| < 4 then None
    else Some((None, t[4..]))
  }

  lemma ValueRoundTrip(v: Value, rest: string)
    ensures ReadValue(Json(v) + rest) == Some((v, rest))
  {
    match v
    case None => NullRoundTrip(rest);
    case Some(s) =>
      StringRoundTrip(s, rest);
      QuotedTail(Escape(s), rest);
  }

  lemma NullRoundTrip(rest: string)
    ensures ReadValue("null" + rest) == Some((None, rest))
  {
    var t := "null" + rest;
    assert t[0] == 'n' && t[4..] == rest;
  }

  lemma QuotedTail(body: string, rest: string)
    ensures var t := (['"'] + body + ['"']) + rest; t[0] == '"' && t[1..] == body + (['"'] + rest)
  {
  }

  lemma Peel(head: string, x: string, y: string)
    requires head + x == head + y
    ensures x == y
  {
    assert (head + x)[|head|..] == x && (head + y)[|head|..] == y;
  }

  function Name(name: string): string {
    ['"'] + name + ['"', ':']
  }

  /** The members of an object in key order, each followed by a comma. */
  function JsonFields(names: seq<string>, values: seq<Value>): string
    requires |names| == |values|
  {
    if names == [] then ""
    else Name(names[0]) + (Json(values[0]) + ([','] + JsonFields(names[1..], values[1..])))
  }

  /** Documents over the same keys are equal only when all their values are. */
  lemma {:induction false} FieldsInjective(names: seq<string>, v: seq<Value>, w: seq<Value>)
    requires |names| == |v| == |w| && JsonFields(names, v) == JsonFields(names, w)
    ensures v == w
    decreases |names|
  {
    if names != [] {
      var restV, restW := JsonFields(names[1..], v[1..]), JsonFields(names[1..], w[1..]);
      Peel(Name(names[0]), Json(v[0]) + ([','] + restV), Json(w[0]) + ([','] + restW));
      ValueRoundTrip(v[0], [','] + restV);
      ValueRoundTrip(w[0], [','] + restW);
      Peel([','], restV, restW);
      FieldsInjective(names[1..], v[1..], w[1..]);
      assert v == [v[0]] + v[1..] && w == [w[0]] + w[1..];
    }
  }
}
