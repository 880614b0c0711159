/** The payload of an operator token: the printer of claims (app/services/ops_tokens.py)
    and a reader for the JSON they are printed in (strings, integers, lists of strings
    and one object of these, without white space; sections 4 to 7 of RFC 8259), which
    undoes the printer for all claims. */
module TokenText {
  import opened Schema
  import opened Json
  import opened Text

  // ------------------------------------------------------------------- the printer

  /** `sorted(ALLOWED_SCOPES)`. */
  const ALLOWED: seq<string> := [
    "accounts:read", "accounts:write", "metrics:read", "payments:read",
    "payments:risk:write", "payments:write", "reconciliation:read", "reconciliation:write"]

  /** `sorted(scopes)` of allowed scopes. */
  function Sorted(scopes: set<string>, allowed: seq<string>): (listed: seq<string>)
    ensures forall s :: s in listed <==> s in allowed && s in scopes
    ensures |listed| <= |allowed|
  {
    if |allowed| == 0 then []
    else (if allowed[0] in scopes then [allowed[0]] else []) + Sorted(scopes, allowed[1..])
  }

  predicate Ascii(text: string) { forall i | 0 <= i < |text| :: text[i] as int < 128 }

  function HexDigit(v: int): char
    requires 0 <= v < 16
  {
    if v < 10 then (v + 48) as char else (v + 87) as char
  }

  function Unicode(v: int): string
    requires 0 <= v < 0x10000
  {
    ['\\', 'u', HexDigit(v / 4096), HexDigit(v / 256 % 16), HexDigit(v / 16 % 16), HexDigit(v % 16)]
  }

  /** One character of a JSON string, with `ensure_ascii`. */
  function Escaped(c: char): (text: string)
    ensures |text| <= 12 && Ascii(text)
  {
    var v := c as int;
    if c == '"' then "\\\""
    else if c == '\\' then "\\\\"
    else if c == '\n' then "\\n"
    else if c == '\r' then "\\r"
    else if c == '\t' then "\\t"
    else if v == 8 then "\\b"
    else if v == 12 then "\\f"
    else if 32 <= v <= 126 then [c]
    else if v < 0x10000 then Unicode(v)
    else Unicode(0xd800 + (v - 0x10000) / 0x400) + Unicode(0xdc00 + (v - 0x10000) % 0x400)
  }

  function EscapedText(s: string): (text: string)
    ensures |text| <= 12 * |s| && Ascii(text)
  {
    if |s| == 0 then "" else EscapedText(s[..|s| - 1]) + Escaped(s[|s| - 1])
  }

  function Quoted(s: string): (text: string)
    ensures |text| <= 12 * |s| + 2 && Ascii(text)
  {
    ['"'] + EscapedText(s) + ['"']
  }

  function Digits(n: nat): (text: string)
    ensures |text| > 0 && Ascii(text)
  {
    if n < 10 then [(n + 48) as char] else Digits(n / 10) + [(n % 10 + 48) as char]
  }

  function Decimal(n: int): (text: string)
    ensures Ascii(text)
  {
    if n < 0 then "-" + Digits(-n) else Digits(n)
  }

  function QuotedAll(items: seq<string>): seq<string> { seq(|items|, i requires 0 <= i < |items| => Quoted(items[i])) }

  /** `json.dumps` of a list and of an object, from the texts of their parts. */
  function ListText(items: seq<string>): string { "[" + Join(items, ',') + "]" }

  function ObjectText(fields: seq<string>): string { "{" + Join(fields, ',') + "}" }

  datatype Claims = Claims(subject: string, scopes: set<string>, issuedAt: int, expiresAt: int, tokenId: string)

  const AUDIENCE := "kunlun-gateway-ops"
  const AUDIENCE_FIELD := "\"aud\":\"kunlun-gateway-ops\""

  function Fields(c: Claims): seq<string> {
    [AUDIENCE_FIELD, "\"exp\":" + Decimal(c.expiresAt), "\"iat\":" + Decimal(c.issuedAt), "\"jti\":" + Quoted(c.tokenId),
     "\"scp\":" + ListText(QuotedAll(Sorted(c.scopes, ALLOWED))), "\"sub\":" + Quoted(c.subject)]
  }

  /** The payload: keys sorted, compact separators, ASCII only. */
  function Payload(c: Claims): (text: string)
    ensures Ascii(text)
  {
    FieldsAscii(c);
    JoinAscii(Fields(c));
    ObjectText(Fields(c))
  }

  lemma FieldsAscii(c: Claims)
    ensures forall i | 0 <= i < |Fields(c)| :: Ascii(Fields(c)[i])
  {
    ScopesAscii(c.scopes);
    LabelsAscii();
  }

  lemma ScopesAscii(scopes: set<string>)
    ensures Ascii("\"scp\":" + ListText(QuotedAll(Sorted(scopes, ALLOWED))))
  {
    JoinAscii(QuotedAll(Sorted(scopes, ALLOWED)));
  }

  lemma LabelsAscii()
    ensures Ascii(AUDIENCE_FIELD) && Ascii("\"exp\":") && Ascii("\"iat\":") && Ascii("\"jti\":") && Ascii("\"scp\":") && Ascii("\"sub\":")
  {
  }

  lemma {:induction false} JoinAscii(parts: seq<string>)
    requires forall i | 0 <= i < |parts| :: Ascii(parts[i])
    ensures Ascii(Join(parts, ','))
  {
    if |parts| > 1 { JoinAscii(parts[1..]); }
  }

  function Strings(items: seq<string>): seq<Json> { seq(|items|, i requires 0 <= i < |items| => JString(items[i])) }

  function ClaimsObject(c: Claims): Object {
    map["aud" := JString(AUDIENCE), "exp" := JInt(c.expiresAt), "iat" := JInt(c.issuedAt),
        "jti" := JString(c.tokenId), "scp" := JList(Strings(Sorted(c.scopes, ALLOWED))), "sub" := JString(c.subject)]
  }

  function AsciiBytes(text: string): Bytes
    requires Ascii(text)
  {
    seq(|text|, i requires 0 <= i < |text| => (text[i] as int) as byte)
  }

  // -------------------------------------------------------------------- the reader

  /** What was read, and what follows it. */
  datatype Read<+T> = Read(value: T, rest: string)

  function HexOf(c: char): (v: Option<int>)
    ensures v.Some? ==> 0 <= v.value < 16
  {
    if '0' <= c <= '9' then Some(c as int - 48)
    else if 'a' <= c <= 'f' then Some(c as int - 87)
    else if 'A' <= c <= 'F' then Some(c as int - 55)
    else None
  }

  /** Four hexadecimal digits behind a backslash and a u. */
  function CodeAt(t: string): (code: Option<int>)
    ensures code.Some? ==> |t| >= 6 && 0 <= code.value < 0x10000
  {
    if |t| >= 6 && t[0] == '\\' && t[1] == 'u' && HexOf(t[2]).Some? && HexOf(t[3]).Some? && HexOf(t[4]).Some? && HexOf(t[5]).Some? then
      Some(0x1000 * HexOf(t[2]).value + 0x100 * HexOf(t[3]).value + 0x10 * HexOf(t[4]).value + HexOf(t[5]).value)
    else None
  }

  /** The characters a short escape stands for. */
  function ShortOf(c: char): Option<char> {
    if c == '"' || c == '\\' || c == '/' then Some(c)
    else if c == 'n' then Some('\n')
    else if c == 'r' then Some('\r')
    else if c == 't' then Some('\t')
    else if c == 'b' then Some(8 as char)
    else if c == 'f' then Some(12 as char)
    else None
  }

  /** One character of a string: itself, a short escape, a code, or two codes that
      stand for one character beyond the basic plane. */
  function ReadChar(t: string): (r: Option<Read<char>>)
    ensures r.Some? ==> |r.value.rest| < |t|
  {
    if |t| == 0 || t[0] as int < 32 || t[0] == '"' then None
    else if t[0] != '\\' then Some(Read(t[0], t[1..]))
    else if |t| > 1 && ShortOf(t[1]).Some? then Some(Read(ShortOf(t[1]).value, t[2..]))
    else
      match CodeAt(t)
      case None => None
      case Some(code) =>
        if !(0xd800 <= code < 0xe000) then Some(Read(code as char, t[6..]))
        else
          match CodeAt(t[6..])
          case None => None
          case Some(low) =>
            if code < 0xdc00 <= low < 0xe000 then Some(Read((0x10000 + (code - 0xd800) * 0x400 + (low - 0xdc00)) as char, t[12..]))
            else None
  }

  /** The rest of a string, up to its closing quote. */
  function ReadChars(t: string): (r: Option<Read<string>>)
    ensures r.Some? ==> |r.value.rest| < |t|
    decreases |t|
  {
    if |t| > 0 && t[0] == '"' then Some(Read("", t[1..]))
    else
      match ReadChar(t)
      case None => None
      case Some(first) =>
        match ReadChars(first.rest)
        case None => None
        case Some(more) => Some(Read([first.value] + more.value, more.rest))
  }

  function ReadString(t: string): (r: Option<Read<string>>)
    ensures r.Some? ==> |r.value.rest| < |t|
  {
    if |t| > 0 && t[0] == '"' then ReadChars(t[1..]) else None
  }

  lemma HexBack(v: int)
    requires 0 <= v < 16
    ensures HexOf(HexDigit(v)) == Some(v)
  {
  }

  lemma Hexadecimal(v: int)
    requires 0 <= v < 0x10000
    ensures 0 <= v / 4096 < 16 && 0 <= v / 256 % 16 < 16 && 0 <= v / 16 % 16 < 16 && 0 <= v % 16 < 16
    ensures v == 0x1000 * (v / 4096) + 0x100 * (v / 256 % 16) + 0x10 * (v / 16 % 16) + v % 16
  {
    assert v / 256 == v / 4096 * 16 + v / 256 % 16 && v / 16 == v / 256 * 16 + v / 16 % 16;
  }

  lemma CodeBack(v: int, rest: string)
    requires 0 <= v < 0x10000
    ensures CodeAt(Unicode(v) + rest) == Some(v) && (Unicode(v) + rest)[6..] == rest
    ensures (Unicode(v) + rest)[0] == '\\' && (Unicode(v) + rest)[1] == 'u'
  {
    Hexadecimal(v);
    HexBack(v / 4096);
    HexBack(v / 256 % 16);
    HexBack(v / 16 % 16);
    HexBack(v % 16);
  }

  /** The two codes of a character beyond the basic plane. */
  lemma PairOf(c: char) returns (high: int, low: int)
    requires c as int >= 0x10000
    ensures 0xd800 <= high < 0xdc00 <= low < 0xe000 && 0x10000 + (high - 0xd800) * 0x400 + (low - 0xdc00) == c as int
    ensures Escaped(c) == Unicode(high) + Unicode(low)
  {
    var v := c as int - 0x10000;
    high, low := 0xd800 + v / 0x400, 0xdc00 + v % 0x400;
  }

  lemma CodesBack(high: int, low: int, rest: string)
    requires 0xd800 <= high < 0xdc00 <= low < 0xe000
    ensures ReadChar(Unicode(high) + (Unicode(low) + rest))
            == Some(Read((0x10000 + (high - 0xd800) * 0x400 + (low - 0xdc00)) as char, rest))
  {
    var t := Unicode(high) + (Unicode(low) + rest);
    CodeBack(high, Unicode(low) + rest);
    CodeBack(low, rest);
    TwiceSix(t);
    assert ShortOf(t[1]).None?;
  }

  lemma PairBack(c: char, rest: string)
    requires c as int >= 0x10000
    ensures ReadChar(Escaped(c) + rest) == Some(Read(c, rest))
  {
    var high, low := PairOf(c);
    CodesBack(high, low, rest);
    Regroup(Unicode(high), Unicode(low), rest);
  }

  lemma TwiceSix(t: string)
    requires |t| >= 12
    ensures t[6..][6..] == t[12..]
  {
  }

  lemma CharBack(c: char, rest: string)
    ensures ReadChar(Escaped(c) + rest) == Some(Read(c, rest))
    ensures |Escaped(c)| > 0 && Escaped(c)[0] != '"'
  {
    var v := c as int;
    if v >= 0x10000 {
      PairBack(c, rest);
    } else if c != '"' && c != '\\' && c != '\n' && c != '\r' && c != '\t' && v != 8 && v != 12 && !(32 <= v <= 126) {
      CodeBack(v, rest);
      assert Escaped(c) == Unicode(v);
    }
  }

  lemma {:induction false} EscapedFront(c: char, s: string)
    ensures EscapedText([c] + s) == Escaped(c) + EscapedText(s)
  {
    if |s| == 0 {
      assert [c] + s == [c] && [c][..0] == "";
    } else {
      var all := [c] + s;
      assert all[..|all| - 1] == [c] + s[..|s| - 1] && all[|all| - 1] == s[|s| - 1];
      EscapedFront(c, s[..|s| - 1]);
      Regroup(Escaped(c), EscapedText(s[..|s| - 1]), Escaped(s[|s| - 1]));
    }
  }

  lemma Regroup(a: string, b: string, c: string)
    ensures a + b + c == a + (b + c)
  {
  }

  /** A printed string reads back, whatever characters it holds. */
  lemma {:induction false} CharsBack(s: string, rest: string)
    ensures ReadChars(EscapedText(s) + "\"" + rest) == Some(Read(s, rest))
  {
    if |s| == 0 {
      assert "" + "\"" + rest == "\"" + rest;
      assert ("\"" + rest)[1..] == rest;
    } else {
      var tail := EscapedText(s[1..]) + "\"" + rest;
      EscapedFront(s[0], s[1..]);
      assert [s[0]] + s[1..] == s;
      FourParts(Escaped(s[0]), EscapedText(s[1..]), "\"", rest);
      CharBack(s[0], tail);
      CharsBack(s[1..], rest);
    }
  }

  lemma FourParts(a: string, b: string, c: string, d: string)
    ensures a + b + c + d == a + (b + c + d)
  {
  }

  lemma StringBack(s: string, rest: string)
    ensures ReadString(Quoted(s) + rest) == Some(Read(s, rest))
  {
    var t := Quoted(s) + rest;
    assert t[1..] == EscapedText(s) + "\"" + rest;
    CharsBack(s, rest);
  }

  // ----------------------------------------------------------------------- integers

  predicate IsDigit(c: char) { '0' <= c <= '9' }

  /** Digits after a number read so far. */
  function ReadDigits(soFar: int, t: string): Read<int>
    decreases |t|
  {
    if |t| > 0 && IsDigit(t[0]) then ReadDigits(10 * soFar + (t[0] as int - 48), t[1..]) else Read(soFar, t)
  }

  /** No digit follows a leading zero. */
  function ReadNumber(t: string): Read<int>
    requires |t| > 0 && IsDigit(t[0])
  {
    if t[0] == '0' then Read(0, t[1..]) else ReadDigits(0, t)
  }

  function ReadInt(t: string): Option<Read<int>> {
    if |t| > 1 && t[0] == '-' && IsDigit(t[1]) then
      var n := ReadNumber(t[1..]);
      Some(Read(-n.value, n.rest))
    else if |t| > 0 && IsDigit(t[0]) then Some(ReadNumber(t))
    else None
  }

  /** The rest does not go on with a digit. */
  predicate Stops(rest: string) { |rest| == 0 || !IsDigit(rest[0]) }

  /** Ten to the number of digits. */
  function Shift(n: nat): nat { if n < 10 then 10 else 10 * Shift(n / 10) }

  lemma {:induction false} DigitsBack(soFar: int, n: nat, rest: string)
    ensures ReadDigits(soFar, Digits(n) + rest) == ReadDigits(soFar * Shift(n) + n, rest)
    ensures IsDigit(Digits(n)[0]) && (Digits(n)[0] == '0' <==> n == 0)
    decreases n
  {
    if n < 10 {
      assert (Digits(n) + rest)[1..] == rest;
    } else {
      var last := [(n % 10 + 48) as char];
      Regroup(Digits(n / 10), last, rest);
      DigitsBack(soFar, n / 10, last + rest);
      assert (last + rest)[1..] == rest;
      Shifted(soFar, Shift(n / 10), n);
    }
  }

  lemma Shifted(soFar: int, shift: nat, n: nat)
    ensures 10 * (soFar * shift + n / 10) + n % 10 == soFar * (10 * shift) + n
  {
    var high := soFar * shift;
    assert soFar * (10 * shift) == 10 * high;
    assert n == 10 * (n / 10) + n % 10;
  }

  lemma NumberBack(n: nat, rest: string)
    requires Stops(rest)
    ensures IsDigit(Digits(n)[0]) && ReadNumber(Digits(n) + rest) == Read(n, rest)
  {
    DigitsBack(0, n, rest);
    assert ReadDigits(n, rest) == Read(n, rest);
    if n == 0 { assert Digits(0) == "0" && ("0" + rest)[1..] == rest; }
  }

  lemma IntBack(n: int, rest: string)
    requires Stops(rest)
    ensures ReadInt(Decimal(n) + rest) == Some(Read(n, rest))
    ensures |Decimal(n)| > 0 && Decimal(n)[0] != '"' && Decimal(n)[0] != '['
  {
    var m: nat := if n < 0 then -n else n;
    NumberBack(m, rest);
    if n < 0 { assert ("-" + Digits(m) + rest)[1..] == Digits(m) + rest; }
  }

  // -------------------------------------------------------------------------- lists

  /** Strings with commas between them, up to the closing bracket. */
  function ReadItems(t: string): (r: Option<Read<seq<string>>>)
    ensures r.Some? ==> |r.value.rest| < |t|
    decreases |t|
  {
    match ReadString(t)
    case None => None
    case Some(first) =>
      if |first.rest| == 0 then None
      else if first.rest[0] == ']' then Some(Read([first.value], first.rest[1..]))
      else if first.rest[0] != ',' then None
      else
        match ReadItems(first.rest[1..])
        case None => None
        case Some(more) => Some(Read([first.value] + more.value, more.rest))
  }

  function ReadList(t: string): Option<Read<seq<string>>> {
    if |t| == 0 || t[0] != '[' then None
    else if |t| > 1 && t[1] == ']' then Some(Read([], t[2..]))
    else ReadItems(t[1..])
  }

  lemma LastItemBack(item: string, rest: string)
    ensures ReadItems(Quoted(item) + "]" + rest) == Some(Read([item], rest))
  {
    Regroup(Quoted(item), "]", rest);
    StringBack(item, "]" + rest);
    assert ("]" + rest)[1..] == rest;
  }

  lemma {:induction false} ItemsBack(items: seq<string>, rest: string)
    requires |items| > 0
    ensures ReadItems(Join(QuotedAll(items), ',') + "]" + rest) == Some(Read(items, rest))
    ensures |Join(QuotedAll(items), ',')| > 0 && Join(QuotedAll(items), ',')[0] == '"'
  {
    assert QuotedAll(items)[0] == Quoted(items[0]) && Quoted(items[0])[0] == '"';
    if |items| == 1 {
      LastItemBack(items[0], rest);
      assert [items[0]] == items;
    } else {
      var more := Join(QuotedAll(items[1..]), ',') + "]" + rest;
      ItemsBack(items[1..], rest);
      JoinedQuotes(items);
      CommaBetween(Quoted(items[0]), Join(QuotedAll(items[1..]), ','), rest);
      StringBack(items[0], "," + more);
      assert ("," + more)[1..] == more;
      assert [items[0]] + items[1..] == items;
    }
  }

  lemma JoinedQuotes(items: seq<string>)
    requires |items| > 1
    ensures Join(QuotedAll(items), ',') == Quoted(items[0]) + "," + Join(QuotedAll(items[1..]), ',')
  {
    assert QuotedAll(items)[1..] == QuotedAll(items[1..]);
  }

  lemma CommaBetween(a: string, b: string, rest: string)
    ensures a + "," + b + "]" + rest == a + ("," + (b + "]" + rest))
  {
  }

  lemma Bracketed(joined: string, rest: string)
    requires |joined| > 0
    ensures ("[" + joined + "]" + rest)[1..] == joined + "]" + rest && ("[" + joined + "]" + rest)[1] == joined[0]
  {
  }

  lemma ListBack(items: seq<string>, rest: string)
    ensures ReadList(ListText(QuotedAll(items)) + rest) == Some(Read(items, rest))
    ensures ListText(QuotedAll(items))[0] == '['
  {
    var t := ListText(QuotedAll(items)) + rest;
    if |items| == 0 {
      assert t == "[]" + rest;
      assert t[2..] == rest;
    } else {
      var joined := Join(QuotedAll(items), ',');
      ItemsBack(items, rest);
      Bracketed(joined, rest);
    }
  }

  // ------------------------------------------------------------------------- objects

  function ReadValue(t: string): Option<Read<Json>> {
    if |t| > 0 && t[0] == '"' then
      match ReadString(t)
      case None => None
      case Some(r) => Some(Read(JString(r.value), r.rest))
    else if |t| > 0 && t[0] == '[' then
      match ReadList(t)
      case None => None
      case Some(r) => Some(Read(JList(Strings(r.value)), r.rest))
    else
      match ReadInt(t)
      case None => None
      case Some(r) => Some(Read(JInt(r.value), r.rest))
  }

  /** A name, a colon and a value. */
  function ReadMember(t: string): Option<Read<(string, Json)>> {
    match ReadString(t)
    case None => None
    case Some(name) =>
      if |name.rest| == 0 || name.rest[0] != ':' then None
      else
        match ReadValue(name.rest[1..])
        case None => None
        case Some(value) => Some(Read((name.value, value.value), value.rest))
  }

  /** Members with commas between them up to the closing brace, into an object. */
  function ReadMembers(soFar: Object, t: string): Option<Read<Object>>
    decreases |t|
  {
    match ReadMember(t)
    case None => None
    case Some(m) =>
      var o := soFar[m.value.0 := m.value.1];
      if |m.rest| == 0 then None
      else if m.rest[0] == '}' then Some(Read(o, m.rest[1..]))
      else if m.rest[0] == ',' && |m.rest| < |t| then ReadMembers(o, m.rest[1..])
      else None
  }

  /** A whole text: one object and nothing after it. */
  function ReadText(t: string): Option<Json> {
    if |t| == 0 || t[0] != '{' then None
    else
      match ReadMembers(map[], t[1..])
      case None => None
      case Some(r) => if r.rest == "" then Some(JObject(r.value)) else None
  }

  /** A value and its text. */
  predicate Prints(v: Json, text: string) {
    match v
    case JString(s) => text == Quoted(s)
    case JInt(n) => text == Decimal(n)
    case JList(items) => AllStrings(items) && text == ListText(QuotedAll(TextsOf(items)))
    case _ => false
  }

  predicate AllStrings(items: seq<Json>) { forall i | 0 <= i < |items| :: items[i].JString? }

  function TextsOf(items: seq<Json>): seq<string>
    requires AllStrings(items)
  {
    seq(|items|, i requires 0 <= i < |items| => items[i].s)
  }

  lemma ValueBack(v: Json, text: string, rest: string)
    requires Prints(v, text) && Stops(rest)
    ensures ReadValue(text + rest) == Some(Read(v, rest))
  {
    match v
    case JString(s) => StringBack(s, rest);
    case JInt(n) => IntBack(n, rest);
    case JList(items) =>
      ListBack(TextsOf(items), rest);
      assert Strings(TextsOf(items)) == items;
  }

  lemma MemberBack(name: string, v: Json, text: string, rest: string)
    requires Prints(v, text) && Stops(rest)
    ensures ReadMember(Quoted(name) + ":" + text + rest) == Some(Read((name, v), rest))
  {
    FourParts(Quoted(name), ":", text, rest);
    Regroup(":", text, rest);
    StringBack(name, ":" + (text + rest));
    assert (":" + (text + rest))[1..] == text + rest;
    ValueBack(v, text, rest);
  }

  /** A member in front of others. */
  lemma MembersBack(soFar: Object, name: string, v: Json, text: string, more: string)
    requires Prints(v, text)
    ensures ReadMembers(soFar, Quoted(name) + ":" + text + ("," + more)) == ReadMembers(soFar[name := v], more)
  {
    MemberBack(name, v, text, "," + more);
    assert ("," + more)[1..] == more;
  }

  lemma LastMemberBack(soFar: Object, name: string, v: Json, text: string)
    requires Prints(v, text)
    ensures ReadMembers(soFar, Quoted(name) + ":" + text + "}") == Some(Read(soFar[name := v], ""))
  {
    MemberBack(name, v, text, "}");
    assert "}"[1..] == "";
  }

  // ------------------------------------------------------------------------- payloads

  /** Members joined by commas, closed by a brace. */
  function Closed(fields: seq<string>): string
    requires |fields| > 0
  {
    if |fields| == 1 then fields[0] + "}" else fields[0] + ("," + Closed(fields[1..]))
  }

  lemma {:induction false} JoinedIsClosed(fields: seq<string>)
    requires |fields| > 0
    ensures Join(fields, ',') + "}" == Closed(fields)
  {
    if |fields| > 1 {
      JoinedIsClosed(fields[1..]);
      CommaBrace(fields[0], Join(fields[1..], ','));
    }
  }

  lemma CommaBrace(a: string, b: string)
    ensures a + "," + b + "}" == a + ("," + (b + "}"))
  {
  }

  /** The field prints this member. */
  ghost predicate PrintsMember(name: string, v: Json, field: string) {
    exists text :: Prints(v, text) && field == Quoted(name) + ":" + text
  }

  function Put(soFar: Object, members: seq<(string, Json)>): Object
    decreases |members|
  {
    if |members| == 0 then soFar else Put(soFar[members[0].0 := members[0].1], members[1..])
  }

  lemma {:induction false} ObjectBack(soFar: Object, members: seq<(string, Json)>, fields: seq<string>)
    requires |fields| == |members| > 0
    requires forall i | 0 <= i < |fields| :: PrintsMember(members[i].0, members[i].1, fields[i])
    ensures ReadMembers(soFar, Closed(fields)) == Some(Read(Put(soFar, members), ""))
    decreases |fields|
  {
    var text :| Prints(members[0].1, text) && fields[0] == Quoted(members[0].0) + ":" + text;
    if |fields| == 1 {
      LastMemberBack(soFar, members[0].0, members[0].1, text);
      assert Put(soFar, members) == soFar[members[0].0 := members[0].1];
    } else {
      MembersBack(soFar, members[0].0, members[0].1, text, Closed(fields[1..]));
      ObjectBack(soFar[members[0].0 := members[0].1], members[1..], fields[1..]);
    }
  }

  predicate Plain(s: string) { forall i | 0 <= i < |s| :: 32 <= s[i] as int <= 126 && s[i] != '"' && s[i] != '\\' }

  lemma PlainCharacter(c: char)
    requires 32 <= c as int <= 126 && c != '"' && c != '\\'
    ensures Escaped(c) == [c]
  {
  }

  lemma {:induction false} PlainText(s: string)
    requires Plain(s)
    ensures EscapedText(s) == s
  {
    if |s| > 0 {
      PlainText(s[..|s| - 1]);
      PlainCharacter(s[|s| - 1]);
      assert s == s[..|s| - 1] + [s[|s| - 1]];
    }
  }

  /** The claims by name, in the order they are printed in. */
  function MembersOf(names: seq<string>, audience: string, c: Claims): seq<(string, Json)>
    requires |names| == 6
  {
    [(names[0], JString(audience)), (names[1], JInt(c.expiresAt)), (names[2], JInt(c.issuedAt)), (names[3], JString(c.tokenId)),
     (names[4], JList(Strings(Sorted(c.scopes, ALLOWED)))), (names[5], JString(c.subject))]
  }

  /** What a field of this name begins with. */
  predicate Fronts(name: string, front: string) { Plain(name) && front == "\"" + name + "\":" }

  /** The names and the audience are those of the printed fields. */
  predicate Spell(names: seq<string>, audience: string) {
    && |names| == 6
    && Fronts(names[0], "\"aud\":") && Fronts(names[1], "\"exp\":") && Fronts(names[2], "\"iat\":")
    && Fronts(names[3], "\"jti\":") && Fronts(names[4], "\"scp\":") && Fronts(names[5], "\"sub\":")
    && Plain(audience) && AUDIENCE_FIELD == "\"aud\":" + ("\"" + audience + "\"")
  }

  lemma FrontIs(name: string, front: string)
    requires Fronts(name, front)
    ensures front == Quoted(name) + ":"
  {
    PlainText(name);
  }

  lemma NumberPrints(name: string, n: int, front: string)
    requires Fronts(name, front)
    ensures PrintsMember(name, JInt(n), front + Decimal(n))
  {
    FrontIs(name, front);
    assert Prints(JInt(n), Decimal(n));
  }

  lemma StringPrints(name: string, s: string, front: string)
    requires Fronts(name, front)
    ensures PrintsMember(name, JString(s), front + Quoted(s))
  {
    FrontIs(name, front);
    assert Prints(JString(s), Quoted(s));
  }

  lemma ListPrints(name: string, items: seq<string>, front: string)
    requires Fronts(name, front)
    ensures PrintsMember(name, JList(Strings(items)), front + ListText(QuotedAll(items)))
  {
    FrontIs(name, front);
    assert TextsOf(Strings(items)) == items;
    assert Prints(JList(Strings(items)), ListText(QuotedAll(items)));
  }

  lemma PlainPrints(name: string, s: string, front: string, field: string)
    requires Fronts(name, front) && Plain(s) && field == front + ("\"" + s + "\"")
    ensures PrintsMember(name, JString(s), field)
  {
    StringPrints(name, s, front);
    PlainText(s);
  }

  lemma FirstFieldsPrint(names: seq<string>, audience: string, c: Claims)
    requires Spell(names, audience)
    ensures forall i | 0 <= i < 3 :: PrintsMember(MembersOf(names, audience, c)[i].0, MembersOf(names, audience, c)[i].1, Fields(c)[i])
  {
    PlainPrints(names[0], audience, "\"aud\":", AUDIENCE_FIELD);
    NumberPrints(names[1], c.expiresAt, "\"exp\":");
    NumberPrints(names[2], c.issuedAt, "\"iat\":");
  }

  lemma LastFieldsPrint(names: seq<string>, audience: string, c: Claims)
    requires Spell(names, audience)
    ensures forall i | 3 <= i < 6 :: PrintsMember(MembersOf(names, audience, c)[i].0, MembersOf(names, audience, c)[i].1, Fields(c)[i])
  {
    StringPrints(names[3], c.tokenId, "\"jti\":");
    ListPrints(names[4], Sorted(c.scopes, ALLOWED), "\"scp\":");
    StringPrints(names[5], c.subject, "\"sub\":");
  }

  lemma AudienceIsPlain()
    ensures Plain(AUDIENCE) && AUDIENCE_FIELD == "\"aud\":" + ("\"" + AUDIENCE + "\"")
  {
  }

  lemma NamesSpell()
    ensures Spell(NAMES, AUDIENCE)
  {
    AudienceIsPlain();
  }

  const NAMES: seq<string> := ["aud", "exp", "iat", "jti", "scp", "sub"]

  lemma ThreePut(o: Object, members: seq<(string, Json)>)
    requires |members| >= 3
    ensures Put(o, members) == Put(o[members[0].0 := members[0].1][members[1].0 := members[1].1][members[2].0 := members[2].1], members[3..])
  {
    var one := o[members[0].0 := members[0].1];
    var two := one[members[1].0 := members[1].1];
    var three := two[members[2].0 := members[2].1];
    assert Put(o, members) == Put(one, members[1..]);
    assert members[1..][1..] == members[2..] && members[1..][0] == members[1];
    assert Put(one, members[1..]) == Put(two, members[2..]);
    assert members[2..][1..] == members[3..] && members[2..][0] == members[2];
    assert Put(two, members[2..]) == Put(three, members[3..]);
  }

  lemma ObjectIs(o: Object, members: seq<(string, Json)>)
    requires |members| == 6
    ensures Put(o, members) == o[members[0].0 := members[0].1][members[1].0 := members[1].1][members[2].0 := members[2].1]
        [members[3].0 := members[3].1][members[4].0 := members[4].1][members[5].0 := members[5].1]
  {
    ThreePut(o, members);
    ThreePut(o[members[0].0 := members[0].1][members[1].0 := members[1].1][members[2].0 := members[2].1], members[3..]);
    assert members[3..][0] == members[3] && members[3..][1] == members[4] && members[3..][2] == members[5];
    assert members[3..][3..] == [];
  }

  lemma MembersAreClaims(c: Claims)
    ensures Put(map[], MembersOf(NAMES, AUDIENCE, c)) == ClaimsObject(c)
  {
    ObjectIs(map[], MembersOf(NAMES, AUDIENCE, c));
  }

  lemma Braced(joined: string)
    ensures ("{" + joined + "}")[0] == '{' && ("{" + joined + "}")[1..] == joined + "}"
  {
  }

  /** An object reads back from its members' texts. */
  lemma ObjectReadsBack(members: seq<(string, Json)>, fields: seq<string>)
    requires |fields| == |members| > 0
    requires forall i | 0 <= i < |fields| :: PrintsMember(members[i].0, members[i].1, fields[i])
    ensures ReadText(ObjectText(fields)) == Some(JObject(Put(map[], members)))
  {
    JoinedIsClosed(fields);
    ObjectBack(map[], members, fields);
    Braced(Join(fields, ','));
  }

  /** The payload that is minted, read as JSON, is the object of its claims, for every
      subject, id, time and set of scopes. */
  lemma PayloadReadsBack(c: Claims)
    ensures ReadText(Payload(c)) == Some(JObject(ClaimsObject(c)))
  {
    NamesSpell();
    FirstFieldsPrint(NAMES, AUDIENCE, c);
    LastFieldsPrint(NAMES, AUDIENCE, c);
    ObjectReadsBack(MembersOf(NAMES, AUDIENCE, c), Fields(c));
    MembersAreClaims(c);
  }
}
