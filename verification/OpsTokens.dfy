/** Operator tokens: unpadded base64url (section 5 of RFC 4648), minting and the
    verifier (app/services/ops_tokens.py). The keyed digest and the JSON parser are
    given. */
module OpsTokens {
  import opened Schema
  import opened Json
  import opened Text
  import opened TokenText

  // -------------------------------------------------------------------- base64url

  type Sextet = v: int | 0 <= v < 64

  function Digit(v: Sextet): (c: char)
    ensures c != '=' && c != '.' && c as int < 128
  {
    if v < 26 then (v + 65) as char
    else if v < 52 then (v + 71) as char
    else if v < 62 then (v - 4) as char
    else if v == 62 then '-' else '_'
  }

  /** The decoder maps '-' and '_' to '+' and '/', so it takes those as well. */
  function Value(c: char): Option<Sextet> {
    if 'A' <= c <= 'Z' then Some(c as int - 65)
    else if 'a' <= c <= 'z' then Some(c as int - 71)
    else if '0' <= c <= '9' then Some(c as int + 4)
    else if c == '-' || c == '+' then Some(62)
    else if c == '_' || c == '/' then Some(63)
    else None
  }

  /** `_b64encode`. */
  function Encode(s: Bytes): string {
    if |s| == 0 then ""
    else if |s| == 1 then [Digit(s[0] / 4), Digit(s[0] % 4 * 16)]
    else if |s| == 2 then [Digit(s[0] / 4), Digit(s[0] % 4 * 16 + s[1] / 16), Digit(s[1] % 16 * 4)]
    else
      [Digit(s[0] / 4), Digit(s[0] % 4 * 16 + s[1] / 16), Digit(s[1] % 16 * 4 + s[2] / 64), Digit(s[2] % 64)]
      + Encode(s[3..])
  }

  /** Sextets of a text without padding; spare bits at the end are dropped. */
  function DecodeCore(t: string): Option<Bytes> {
    if |t| == 0 then Some([])
    else if |t| == 1 || Value(t[0]).None? || Value(t[1]).None? then None
    else
      var a, b := Value(t[0]).value, Value(t[1]).value;
      var first: byte := a * 4 + b / 16;
      if |t| == 2 then Some([first])
      else if Value(t[2]).None? then None
      else
        var c := Value(t[2]).value;
        var second: byte := b % 16 * 16 + c / 4;
        if |t| == 3 then Some([first, second])
        else if Value(t[3]).None? then None
        else
          var third: byte := c % 4 * 64 + Value(t[3]).value;
          match DecodeCore(t[4..])
          case None => None
          case Some(rest) => Some([first, second, third] + rest)
  }

  function WithoutPadding(t: string): string {
    if |t| > 0 && t[|t| - 1] == '=' then WithoutPadding(t[..|t| - 1]) else t
  }

  /** `_b64decode`: the text is padded to whole quartets, and strict decoding takes
      exactly the padding its length asks for. */
  function Decode(t: string): Option<Bytes> {
    var core := WithoutPadding(t);
    var padding := (|t| - |core|) + (4 - |t| % 4) % 4;
    if padding == (4 - |core| % 4) % 4 then DecodeCore(core) else None
  }

  lemma DigitValue(v: Sextet)
    ensures Value(Digit(v)) == Some(v)
  {
  }

  lemma ThreeBytes(x: byte, y: byte, z: byte)
    ensures x / 4 * 4 + (x % 4 * 16 + y / 16) / 16 == x
    ensures (x % 4 * 16 + y / 16) % 16 * 16 + (y % 16 * 4 + z / 64) / 4 == y
    ensures (y % 16 * 4 + z / 64) % 4 * 64 + z % 64 == z
  {
    assert (x % 4 * 16 + y / 16) / 16 == x % 4 && (x % 4 * 16 + y / 16) % 16 == y / 16;
    assert (y % 16 * 4 + z / 64) / 4 == y % 16 && (y % 16 * 4 + z / 64) % 4 == z / 64;
  }

  lemma OneByteCore(x: byte)
    ensures DecodeCore([Digit(x / 4), Digit(x % 4 * 16)]) == Some([x])
  {
    ThreeBytes(x, 0, 0);
    DigitValue(x / 4);
    DigitValue(x % 4 * 16);
  }

  lemma TwoByteCore(x: byte, y: byte)
    ensures DecodeCore([Digit(x / 4), Digit(x % 4 * 16 + y / 16), Digit(y % 16 * 4)]) == Some([x, y])
  {
    ThreeBytes(x, y, 0);
    assert (y % 16 * 4) / 4 == y % 16;
    DigitValue(x / 4);
    DigitValue(x % 4 * 16 + y / 16);
    DigitValue(y % 16 * 4);
  }

  /** One quartet of characters in front of the rest. */
  lemma QuartetCore(a: byte, b: byte, c: byte, rest: string, s: Bytes)
    requires DecodeCore(rest) == Some(s)
    ensures DecodeCore([Digit(a / 4), Digit(a % 4 * 16 + b / 16), Digit(b % 16 * 4 + c / 64), Digit(c % 64)] + rest)
            == Some([a, b, c] + s)
  {
    ThreeBytes(a, b, c);
    DigitValue(a / 4);
    DigitValue(a % 4 * 16 + b / 16);
    DigitValue(b % 16 * 4 + c / 64);
    DigitValue(c % 64);
    var t := [Digit(a / 4), Digit(a % 4 * 16 + b / 16), Digit(b % 16 * 4 + c / 64), Digit(c % 64)] + rest;
    assert t[4..] == rest;
  }

  lemma {:induction false} CoreUndoesEncode(s: Bytes)
    ensures DecodeCore(Encode(s)) == Some(s)
  {
    if |s| == 1 {
      OneByteCore(s[0]);
      assert s == [s[0]];
    } else if |s| == 2 {
      TwoByteCore(s[0], s[1]);
      assert s == [s[0], s[1]];
    } else if |s| > 2 {
      CoreUndoesEncode(s[3..]);
      QuartetCore(s[0], s[1], s[2], Encode(s[3..]), s[3..]);
      assert s == [s[0], s[1], s[2]] + s[3..];
    }
  }

  /** Four characters for three bytes, none of them a dot or padding. */
  lemma {:induction false} EncodedText(s: Bytes)
    ensures |Encode(s)| == (4 * |s| + 2) / 3
    ensures forall c :: c in Encode(s) ==> c != '=' && c != '.' && c as int < 128
  {
    if |s| > 2 { EncodedText(s[3..]); }
  }

  /** Decoding undoes encoding, for every byte string. */
  lemma DecodeUndoesEncode(s: Bytes)
    ensures Decode(Encode(s)) == Some(s)
  {
    CoreUndoesEncode(s);
    EncodedText(s);
    var t := Encode(s);
    if |t| > 0 { assert t[|t| - 1] in t; }
    assert WithoutPadding(t) == t;
  }

  // ------------------------------------------------------------- minting, verifying

  /** HMAC-SHA-256 and `json.loads`. */
  datatype Crypto = Crypto(mac: (Bytes, string) -> Bytes, parse: Bytes -> Option<Json>)

  /** A SHA-256 digest has 32 bytes, and the parser takes the texts that `ReadText`
      reads for the objects they are. */
  ghost predicate Lawful(k: Crypto) {
    && (forall secret: Bytes, input: string :: |k.mac(secret, input)| == 32)
    && (forall text: string | Ascii(text) && ReadText(text).Some? :: k.parse(AsciiBytes(text)) == ReadText(text))
  }

  datatype TokenError =
    | WeakSecret | BadSubject | BadScopes | BadLifetime
    | Malformed | UnknownScope | NotAscii | BadEncoding | BadSignature | BadPayload | BadAudience
    | BadClaims | Forbidden | BadTimes | Expired

  datatype Minting = Minted(token: string) | Refused(error: TokenError)

  /** `mint_operator_token`, with the clock reading and the random id given. */
  function Mint(k: Crypto, secret: Bytes, subject: string, scopes: set<string>, ttl: int, now: int, tokenId: string): Minting {
    if |secret| < 32 then Refused(WeakSecret)
    else if subject == "" || |subject| > 200 then Refused(BadSubject)
    else if scopes == {} || exists s :: s in scopes && s !in ALLOWED then Refused(BadScopes)
    else if ttl < 30 || ttl > 900 then Refused(BadLifetime)
    else
      Minted(Seal(k, secret, AsciiBytes(Payload(Claims(subject, scopes, now, now + ttl, tokenId)))))
  }

  datatype Verification = Verified(claims: Claims) | Rejected(reason: TokenError)

  function IntOf(v: Json): Option<int> {
    if v.JInt? then Some(v.n) else if v.JBool? then Some(if v.b then 1 else 0) else None
  }

  function StringSet(items: seq<Json>): set<string>
    requires AllStrings(items)
  {
    set i | 0 <= i < |items| :: items[i].s
  }

  /** The claims of a parsed payload, checked against the scope and the clock. */
  function CheckClaims(data: Json, requiredScope: string, now: int): Verification {
    if !data.JObject? || Get(data.fields, "aud") != JString(AUDIENCE) then Rejected(BadAudience)
    else
      var subject, scopes, tokenId := Get(data.fields, "sub"), Get(data.fields, "scp"), Get(data.fields, "jti");
      var issuedAt, expiresAt := IntOf(Get(data.fields, "iat")), IntOf(Get(data.fields, "exp"));
      if !subject.JString? || subject.s == "" || !scopes.JList? || !AllStrings(scopes.items)
         || issuedAt.None? || expiresAt.None? || !tokenId.JString? || tokenId.s == "" then Rejected(BadClaims)
      else
        var granted := StringSet(scopes.items);
        if (exists s :: s in granted && s !in ALLOWED) || requiredScope !in granted then Rejected(Forbidden)
        else if issuedAt.value > now + 30 || expiresAt.value <= issuedAt.value || expiresAt.value - issuedAt.value > 900 then
          Rejected(BadTimes)
        else if now >= expiresAt.value then Rejected(Expired)
        else Verified(Claims(subject.s, granted, issuedAt.value, expiresAt.value, tokenId.s))
  }

  const TOKEN_LIMIT: nat := 4096

  /** `verify_operator_token`. */
  function Verify(k: Crypto, token: string, secret: Bytes, requiredScope: string, now: int): Verification {
    if |secret| < 32 then Rejected(WeakSecret)
    else if !(1 <= |token| <= TOKEN_LIMIT) then Rejected(Malformed)
    else if requiredScope !in ALLOWED then Rejected(UnknownScope)
    else
      var parts := Split(token, '.');
      if |parts| != 3 || parts[0] != "ops1" then Rejected(Malformed)
      else VerifyParts(k, parts[1], parts[2], secret, requiredScope, now)
  }

  /** The signature over the encoded payload, then the payload. */
  function VerifyParts(k: Crypto, encoded: string, signature: string, secret: Bytes, requiredScope: string, now: int): Verification {
    if exists c :: c in encoded && c as int >= 128 then Rejected(NotAscii)
    else if Decode(signature).None? then Rejected(BadEncoding)
    else if k.mac(secret, "ops1." + encoded) != Decode(signature).value then Rejected(BadSignature)
    else if Decode(encoded).None? then Rejected(BadEncoding)
    else
      match k.parse(Decode(encoded).value)
      case None => Rejected(BadPayload)
      case Some(data) => CheckClaims(data, requiredScope, now)
  }

  // ----------------------------------------------------------------------- lengths

  function TotalLength(parts: seq<string>): nat {
    if |parts| == 0 then 0 else |parts[0]| + TotalLength(parts[1..])
  }

  lemma {:induction false} JoinLength(parts: seq<string>, separator: char)
    ensures |Join(parts, separator)| == TotalLength(parts) + if |parts| == 0 then 0 else |parts| - 1
  {
    if |parts| > 0 { JoinLength(parts[1..], separator); }
  }

  lemma TotalCons(first: string, rest: seq<string>)
    ensures TotalLength([first] + rest) == |first| + TotalLength(rest)
  {
    assert ([first] + rest)[1..] == rest;
  }

  lemma {:induction false} PlainLength(s: string)
    requires Plain(s)
    ensures |EscapedText(s)| == |s|
  {
    if |s| > 0 {
      PlainLength(s[..|s| - 1]);
      PlainCharacter(s[|s| - 1]);
    }
  }

  lemma PlainIsKept(s: string)
    requires Plain(s)
    ensures |Quoted(s)| == |s| + 2
  {
    PlainLength(s);
  }

  lemma {:induction false} QuotedLength(items: seq<string>)
    requires forall i | 0 <= i < |items| :: Plain(items[i])
    ensures TotalLength(QuotedAll(items)) == TotalLength(items) + 2 * |items|
  {
    if |items| > 0 {
      PlainIsKept(items[0]);
      QuotedLength(items[1..]);
      assert QuotedAll(items)[1..] == QuotedAll(items[1..]);
    }
  }

  lemma {:induction false} SortedLength(scopes: set<string>, allowed: seq<string>)
    requires forall i | 0 <= i < |allowed| :: Plain(allowed[i])
    ensures TotalLength(Sorted(scopes, allowed)) <= TotalLength(allowed)
    ensures forall i | 0 <= i < |Sorted(scopes, allowed)| :: Plain(Sorted(scopes, allowed)[i])
  {
    if |allowed| > 0 {
      var rest := Sorted(scopes, allowed[1..]);
      SortedLength(scopes, allowed[1..]);
      TotalCons(allowed[0], rest);
      assert [] + rest == rest;
    }
  }

  lemma PairLength(s: seq<string>, k: nat)
    requires k + 2 <= |s|
    ensures TotalLength(s[k..]) == |s[k]| + |s[k + 1]| + TotalLength(s[k + 2..])
  {
    assert s[k..][1..] == s[k + 1..];
    assert s[k + 1..][1..] == s[k + 2..];
  }

  lemma AllowedLength()
    ensures TotalLength(ALLOWED) == 124
  {
    ScopeLengths();
    AllLength(ALLOWED);
  }

  lemma AllLength(s: seq<string>)
    requires |s| == 8
    ensures TotalLength(s) == |s[0]| + |s[1]| + |s[2]| + |s[3]| + |s[4]| + |s[5]| + |s[6]| + |s[7]|
  {
    assert s[0..] == s && s[8..] == [];
    PairLength(s, 0);
    PairLength(s, 2);
    PairLength(s, 4);
    PairLength(s, 6);
  }

  lemma ScopeLengths()
    ensures |ALLOWED[0]| + |ALLOWED[1]| == 27 && |ALLOWED[2]| + |ALLOWED[3]| == 25
    ensures |ALLOWED[4]| + |ALLOWED[5]| == 33 && |ALLOWED[6]| + |ALLOWED[7]| == 39
  {
  }

  lemma AllowedPlain()
    ensures forall i | 0 <= i < |ALLOWED| :: Plain(ALLOWED[i])
  {
    ReadingPlain();
    OperatingPlain();
  }

  lemma ReadingPlain()
    ensures Plain(ALLOWED[0]) && Plain(ALLOWED[1]) && Plain(ALLOWED[2]) && Plain(ALLOWED[3])
  {
  }

  lemma OperatingPlain()
    ensures Plain(ALLOWED[4]) && Plain(ALLOWED[5]) && Plain(ALLOWED[6]) && Plain(ALLOWED[7])
  {
  }

  /** The eight scopes listed, quoted and separated, take 149 characters. */
  lemma ScopesLength(scopes: set<string>)
    ensures |ScopeText(scopes)| <= 149
  {
    var listed := Sorted(scopes, ALLOWED);
    AllowedLength();
    AllowedPlain();
    SortedLength(scopes, ALLOWED);
    QuotedLength(listed);
    JoinLength(QuotedAll(listed), ',');
  }

  /** `secrets.token_urlsafe(18)`: 24 base64url characters. */
  predicate TokenId(id: string) { |id| == 24 && Plain(id) }

  /** The longest payload that fits, and what the variable parts of one may take. */
  const PAYLOAD_LIMIT: nat := 3035
  const SIZE_LIMIT: nat := 2946

  function ScopeText(scopes: set<string>): string { ListText(QuotedAll(Sorted(scopes, ALLOWED))) }

  /** The printed length of everything in a token that is not fixed. */
  function PrintedSize(subject: string, scopes: set<string>, ttl: int, now: int): nat {
    |Decimal(now)| + |Decimal(now + ttl)| + |ScopeText(scopes)| + |Quoted(subject)|
  }

  lemma FieldsLength(a: string, b: string, c: string, d: string, e: string, f: string)
    ensures |ObjectText([a, b, c, d, e, f])| == |a| + |b| + |c| + |d| + |e| + |f| + 7
  {
    var fields := [a] + ([b] + ([c] + ([d] + ([e] + ([f] + [])))));
    TotalCons(f, []);
    TotalCons(e, [f] + []);
    TotalCons(d, [e] + ([f] + []));
    TotalCons(c, [d] + ([e] + ([f] + [])));
    TotalCons(b, [c] + ([d] + ([e] + ([f] + []))));
    TotalCons(a, [b] + ([c] + ([d] + ([e] + ([f] + [])))));
    assert [a, b, c, d, e, f] == fields;
    JoinLength(fields, ',');
  }

  lemma PayloadLength(c: Claims)
    requires TokenId(c.tokenId)
    ensures |Payload(c)|
            == PAYLOAD_LIMIT - SIZE_LIMIT + PrintedSize(c.subject, c.scopes, c.expiresAt - c.issuedAt, c.issuedAt)
  {
    PlainIsKept(c.tokenId);
    var f := Fields(c);
    FieldsLength(f[0], f[1], f[2], f[3], f[4], f[5]);
  }

  /** The token around a payload. */
  function Seal(k: Crypto, secret: Bytes, payload: Bytes): string {
    var encoded := Encode(payload);
    Join(["ops1", encoded, Encode(k.mac(secret, "ops1." + encoded))], '.')
  }

  lemma SealLength(k: Crypto, secret: Bytes, payload: Bytes)
    requires Lawful(k)
    ensures 1 <= |Seal(k, secret, payload)| && (|Seal(k, secret, payload)| <= TOKEN_LIMIT <==> |payload| <= PAYLOAD_LIMIT)
  {
    var encoded := Encode(payload);
    var digest := Encode(k.mac(secret, "ops1." + encoded));
    EncodedText(payload);
    EncodedText(k.mac(secret, "ops1." + encoded));
    TotalCons(digest, []);
    TotalCons(encoded, [digest] + []);
    TotalCons("ops1", [encoded] + ([digest] + []));
    assert ["ops1", encoded, digest] == ["ops1"] + ([encoded] + ([digest] + []));
    JoinLength(["ops1", encoded, digest], '.');
  }

  // -------------------------------------------------------------------- round trip

  /** The scopes of a claims object are read back as the same set. */
  lemma ScopesReadBack(scopes: set<string>)
    requires forall s :: s in scopes ==> s in ALLOWED
    ensures var listed := Strings(Sorted(scopes, ALLOWED)); AllStrings(listed) && StringSet(listed) == scopes
  {
    var listed := Sorted(scopes, ALLOWED);
    forall s | s in scopes ensures s in StringSet(Strings(listed)) {
      assert s in listed;
      var i :| 0 <= i < |listed| && listed[i] == s;
      assert Strings(listed)[i].s == s;
    }
    forall s | s in StringSet(Strings(listed)) ensures s in scopes {
      var i :| 0 <= i < |Strings(listed)| && Strings(listed)[i].s == s;
      assert listed[i] in listed;
    }
  }

  /** The object holds these claims, each under its name. */
  ghost predicate HoldsClaims(o: Object, c: Claims, listed: seq<Json>) {
    && Get(o, "aud") == JString(AUDIENCE) && Get(o, "sub") == JString(c.subject) && Get(o, "jti") == JString(c.tokenId)
    && Get(o, "scp") == JList(listed) && AllStrings(listed) && StringSet(listed) == c.scopes
    && Get(o, "iat") == JInt(c.issuedAt) && Get(o, "exp") == JInt(c.expiresAt)
  }

  lemma ClaimsAreHeld(c: Claims)
    requires forall s :: s in c.scopes ==> s in ALLOWED
    ensures HoldsClaims(ClaimsObject(c), c, Strings(Sorted(c.scopes, ALLOWED)))
  {
    var o := ClaimsObject(c);
    ScopesReadBack(c.scopes);
    assert "aud" in o && "exp" in o && "iat" in o && "jti" in o && "scp" in o && "sub" in o;
  }

  lemma HeldClaimsCheck(o: Object, c: Claims, listed: seq<Json>, requiredScope: string, now: int)
    requires HoldsClaims(o, c, listed) && c.subject != "" && c.tokenId != "" && 30 <= c.expiresAt - c.issuedAt <= 900
    requires forall s :: s in c.scopes ==> s in ALLOWED
    ensures var v := CheckClaims(JObject(o), requiredScope, now);
            if requiredScope in c.scopes && c.issuedAt - 30 <= now < c.expiresAt then v == Verified(c) else v.Rejected?
  {
  }

  /** Checking the claims that were minted. */
  lemma MintedClaimsCheck(c: Claims, requiredScope: string, now: int)
    requires c.subject != "" && c.tokenId != "" && c.scopes != {} && forall s :: s in c.scopes ==> s in ALLOWED
    requires 30 <= c.expiresAt - c.issuedAt <= 900
    ensures var v := CheckClaims(JObject(ClaimsObject(c)), requiredScope, now);
            if requiredScope in c.scopes && c.issuedAt - 30 <= now < c.expiresAt then v == Verified(c) else v.Rejected?
  {
    ClaimsAreHeld(c);
    HeldClaimsCheck(ClaimsObject(c), c, Strings(Sorted(c.scopes, ALLOWED)), requiredScope, now);
  }

  /** A sealed payload comes back out of its token. */
  lemma SealOpens(k: Crypto, secret: Bytes, payload: Bytes, requiredScope: string, at: int)
    requires Lawful(k) && |secret| >= 32 && |payload| <= PAYLOAD_LIMIT && requiredScope in ALLOWED
    ensures Verify(k, Seal(k, secret, payload), secret, requiredScope, at)
            == match k.parse(payload)
               case None => Rejected(BadPayload)
               case Some(data) => CheckClaims(data, requiredScope, at)
  {
    var encoded := Encode(payload);
    var digest := k.mac(secret, "ops1." + encoded);
    SealLength(k, secret, payload);
    EncodedText(payload);
    EncodedText(digest);
    DecodeUndoesEncode(payload);
    DecodeUndoesEncode(digest);
    SplitJoin(["ops1", encoded, Encode(digest)], '.');
  }

  /** Sealed claims verify exactly for a granted scope within their times. */
  lemma SealedClaimsVerifyIff(k: Crypto, secret: Bytes, payload: Bytes, c: Claims, requiredScope: string, at: int)
    requires Lawful(k) && |secret| >= 32 && |payload| <= PAYLOAD_LIMIT && k.parse(payload) == Some(JObject(ClaimsObject(c)))
    requires c.subject != "" && c.tokenId != "" && c.scopes != {} && forall s :: s in c.scopes ==> s in ALLOWED
    requires 30 <= c.expiresAt - c.issuedAt <= 900
    ensures var v := Verify(k, Seal(k, secret, payload), secret, requiredScope, at);
            if requiredScope in c.scopes && c.issuedAt - 30 <= at < c.expiresAt then v == Verified(c) else v.Rejected?
  {
    if requiredScope in ALLOWED {
      SealOpens(k, secret, payload, requiredScope, at);
      MintedClaimsCheck(c, requiredScope, at);
    }
  }

  /** What minting succeeds for, and what it seals. */
  lemma MintSeals(k: Crypto, secret: Bytes, subject: string, scopes: set<string>, ttl: int, now: int, tokenId: string)
    returns (payload: Bytes)
    requires Lawful(k) && TokenId(tokenId) && Mint(k, secret, subject, scopes, ttl, now, tokenId).Minted?
    ensures Mint(k, secret, subject, scopes, ttl, now, tokenId).token == Seal(k, secret, payload)
    ensures |secret| >= 32 && 1 <= |subject| <= 200 && scopes != {} && 30 <= ttl <= 900
    ensures forall s :: s in scopes ==> s in ALLOWED
    ensures |payload| == PAYLOAD_LIMIT - SIZE_LIMIT + PrintedSize(subject, scopes, ttl, now)
    ensures k.parse(payload) == Some(JObject(ClaimsObject(Claims(subject, scopes, now, now + ttl, tokenId))))
  {
    var c := Claims(subject, scopes, now, now + ttl, tokenId);
    PayloadLength(c);
    PayloadReadsBack(c);
    payload := AsciiBytes(Payload(c));
  }

  /** A minted token is within the verifier's limit exactly when its variable parts
      print in 2946 characters; two times of at most 190 characters each are always
      enough, whatever the subject and the scopes. */
  lemma MintedTokenFits(k: Crypto, secret: Bytes, subject: string, scopes: set<string>, ttl: int, now: int, tokenId: string)
    requires Lawful(k) && TokenId(tokenId) && Mint(k, secret, subject, scopes, ttl, now, tokenId).Minted?
    ensures 1 <= |Mint(k, secret, subject, scopes, ttl, now, tokenId).token|
    ensures |Mint(k, secret, subject, scopes, ttl, now, tokenId).token| <= TOKEN_LIMIT
            <==> PrintedSize(subject, scopes, ttl, now) <= SIZE_LIMIT
    ensures |Decimal(now)| <= 190 && |Decimal(now + ttl)| <= 190 ==> PrintedSize(subject, scopes, ttl, now) <= SIZE_LIMIT
  {
    var payload := MintSeals(k, secret, subject, scopes, ttl, now, tokenId);
    SealLength(k, secret, payload);
    ScopesLength(scopes);
  }

  function PowerOfTen(n: nat): (p: nat)
    ensures p > 0
  {
    if n == 0 then 1 else 10 * PowerOfTen(n - 1)
  }

  lemma {:induction false} PowerDigits(n: nat)
    ensures |Digits(PowerOfTen(n))| == n + 1
  {
    if n > 0 {
      PowerDigits(n - 1);
      assert PowerOfTen(n) / 10 == PowerOfTen(n - 1);
    }
  }

  /** The limit can be missed: minting never looks at the size of the clock reading,
      and with one of 2,947 digits or more it mints tokens that no verifier accepts. */
  lemma HugeClockDoesNotFit(k: Crypto, secret: Bytes, subject: string, scopes: set<string>, ttl: int, n: nat, tokenId: string)
    requires Lawful(k) && TokenId(tokenId) && n >= SIZE_LIMIT
    requires Mint(k, secret, subject, scopes, ttl, 0, tokenId).Minted?
    ensures var m := Mint(k, secret, subject, scopes, ttl, PowerOfTen(n), tokenId);
            m.Minted? && |m.token| > TOKEN_LIMIT
  {
    PowerDigits(n);
    MintedTokenFits(k, secret, subject, scopes, ttl, PowerOfTen(n), tokenId);
  }

  /** A minted token verifies, with the subject, scopes, times and id it was minted
      with, exactly when the required scope was minted, the clock is between thirty
      seconds before the issue and the expiry, and the token is within the limit. */
  lemma MintedTokenVerifiesIff(
      k: Crypto, secret: Bytes, subject: string, scopes: set<string>, ttl: int, now: int, tokenId: string,
      requiredScope: string, at: int)
    requires Lawful(k) && TokenId(tokenId) && Mint(k, secret, subject, scopes, ttl, now, tokenId).Minted?
    ensures var v := Verify(k, Mint(k, secret, subject, scopes, ttl, now, tokenId).token, secret, requiredScope, at);
            && (v.Verified? <==> requiredScope in scopes && now - 30 <= at < now + ttl
                                 && PrintedSize(subject, scopes, ttl, now) <= SIZE_LIMIT)
            && (v.Verified? ==> v.claims == Claims(subject, scopes, now, now + ttl, tokenId))
  {
    var payload := MintSeals(k, secret, subject, scopes, ttl, now, tokenId);
    SealLength(k, secret, payload);
    if |payload| <= PAYLOAD_LIMIT {
      SealedClaimsVerifyIff(k, secret, payload, Claims(subject, scopes, now, now + ttl, tokenId), requiredScope, at);
    }
  }
}
