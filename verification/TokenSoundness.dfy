/** Which tokens verify, for every text whatsoever: exactly the signed ones whose
    payload holds the claims. And which texts decode: exactly the encodings, up to
    the bits that carry nothing. */
module TokenSoundness {
  import opened Schema
  import opened Json
  import opened Text
  import opened TokenText
  import opened OpsTokens

  // ------------------------------------------------------------------- splitting

  lemma {:induction false} JoinSplit(s: string, separator: char)
    ensures Join(Split(s, separator), separator) == s
    decreases |s|
  {
    match First(s, separator)
    case None =>
    case Some(k) =>
      JoinSplit(s[k + 1..], separator);
      JoinFront(s[..k], Split(s[k + 1..], separator), separator);
      CutAt(s, k, separator);
  }

  lemma JoinFront(first: string, rest: seq<string>, separator: char)
    requires |rest| >= 1
    ensures Join([first] + rest, separator) == first + [separator] + Join(rest, separator)
  {
    assert ([first] + rest)[1..] == rest;
  }

  lemma CutAt(s: string, k: nat, separator: char)
    requires k < |s| && s[k] == separator
    ensures s[..k] + [separator] + s[k + 1..] == s
  {
  }

  /** The token is made of the prefix, a payload text and a signature text. */
  predicate MadeOf(token: string, e: string, s: string) {
    token == "ops1" + "." + e + "." + s && '.' !in e && '.' !in s
  }

  lemma ThreeParts(e: string, s: string)
    ensures Join(["ops1", e, s], '.') == "ops1" + "." + e + "." + s
  {
    assert ["ops1", e, s] == ["ops1"] + ([e] + [s]);
    JoinFront("ops1", [e] + [s], '.');
    JoinFront(e, [s], '.');
    Reassociate("ops1" + ".", e, ".", s);
  }

  lemma Reassociate(a: string, b: string, c: string, d: string)
    ensures a + (b + c + d) == a + b + c + d
  {
  }

  lemma MadeOfIff(token: string, e: string, s: string)
    ensures MadeOf(token, e, s) <==> Split(token, '.') == ["ops1", e, s]
  {
    ThreeParts(e, s);
    if MadeOf(token, e, s) {
      SplitJoin(["ops1", e, s], '.');
    }
    if Split(token, '.') == ["ops1", e, s] {
      JoinSplit(token, '.');
      assert e in Split(token, '.') && s in Split(token, '.');
    }
  }

  // ----------------------------------------------------------------- verification

  /** The signature text decodes to the digest of everything before it. */
  predicate Signed(k: Crypto, secret: Bytes, e: string, s: string) {
    Decode(s) == Some(k.mac(secret, "ops1." + e))
  }

  /** An integer, or a Boolean in its place. */
  predicate Counts(v: Json, n: int) { v == JInt(n) || (v == JBool(true) && n == 1) || (v == JBool(false) && n == 0) }

  /** The parsed payload names the audience and these claims. */
  ghost predicate Holds(data: Json, c: Claims) {
    && data.JObject? && Get(data.fields, "aud") == JString("kunlun-gateway-ops")
    && Get(data.fields, "sub") == JString(c.subject) && Get(data.fields, "jti") == JString(c.tokenId)
    && Counts(Get(data.fields, "iat"), c.issuedAt) && Counts(Get(data.fields, "exp"), c.expiresAt)
    && Get(data.fields, "scp").JList?
    && var items := Get(data.fields, "scp").items;
    && (forall i | 0 <= i < |items| :: items[i].JString? && items[i].s in c.scopes)
    && (forall name :: name in c.scopes ==> JString(name) in items)
  }

  /** Claims that grant the scope now: with a subject and an id, no scope but the known
      ones, issued no more than thirty seconds ahead, for fifteen minutes at most, and
      not over. */
  predicate Granting(c: Claims, requiredScope: string, now: int) {
    && c.subject != "" && c.tokenId != "" && requiredScope in c.scopes && (forall name :: name in c.scopes ==> name in ALLOWED)
    && c.issuedAt <= now + 30 && c.issuedAt < c.expiresAt <= c.issuedAt + 900 && now < c.expiresAt
  }

  lemma ScopesIff(items: seq<Json>, scopes: set<string>)
    ensures AllStrings(items) && StringSet(items) == scopes
            <==> && (forall i | 0 <= i < |items| :: items[i].JString? && items[i].s in scopes)
                 && (forall name :: name in scopes ==> JString(name) in items)
  {
    if AllStrings(items) && StringSet(items) == scopes {
      forall name | name in scopes ensures JString(name) in items {
        var i :| 0 <= i < |items| && items[i].s == name;
        assert items[i] == JString(name);
      }
    }
    if (forall i | 0 <= i < |items| :: items[i].JString? && items[i].s in scopes) && (forall name :: name in scopes ==> JString(name) in items) {
      forall name ensures name in StringSet(items) <==> name in scopes {
        if name in scopes {
          var i :| 0 <= i < |items| && items[i] == JString(name);
          assert items[i].s == name;
        }
      }
    }
  }

  lemma ClaimsIff(data: Json, c: Claims, requiredScope: string, now: int)
    ensures CheckClaims(data, requiredScope, now) == Verified(c) <==> Holds(data, c) && Granting(c, requiredScope, now)
  {
    if data.JObject? && Get(data.fields, "scp").JList? {
      ScopesIff(Get(data.fields, "scp").items, c.scopes);
    }
  }

  /** For every token: it verifies, with these claims, if and only if it is within the
      limit, made of three parts, signed with the secret, and its payload decodes and
      parses to these claims, which grant the scope now. */
  lemma VerifiedIff(k: Crypto, token: string, secret: Bytes, requiredScope: string, now: int, c: Claims)
    ensures Verify(k, token, secret, requiredScope, now) == Verified(c)
            <==> && |secret| >= 32 && 1 <= |token| <= 4096 && requiredScope in ALLOWED
                 && exists e, s :: MadeOf(token, e, s) && Signed(k, secret, e, s) && Bears(k, e, c) && Granting(c, requiredScope, now)
  {
    var parts := Split(token, '.');
    if |parts| == 3 && parts[0] == "ops1" {
      assert parts == ["ops1", parts[1], parts[2]];
      MadeOfIff(token, parts[1], parts[2]);
      PartsVerifiedIff(k, parts[1], parts[2], secret, requiredScope, now, c);
      OnlyParts(token, parts[1], parts[2]);
    } else {
      forall e, s ensures !MadeOf(token, e, s) { MadeOfIff(token, e, s); }
    }
  }

  /** The payload text is ASCII, and what it encodes parses to these claims. */
  ghost predicate Bears(k: Crypto, e: string, c: Claims) {
    && (forall ch :: ch in e ==> ch as int < 128)
    && Decode(e).Some? && k.parse(Decode(e).value).Some? && Holds(k.parse(Decode(e).value).value, c)
  }

  lemma OnlyParts(token: string, e: string, s: string)
    requires MadeOf(token, e, s)
    ensures forall e', s' :: MadeOf(token, e', s') ==> e' == e && s' == s
  {
    MadeOfIff(token, e, s);
    forall e', s' | MadeOf(token, e', s') ensures e' == e && s' == s {
      MadeOfIff(token, e', s');
      assert ["ops1", e', s'][1] == ["ops1", e, s][1] && ["ops1", e', s'][2] == ["ops1", e, s][2];
    }
  }

  lemma PartsVerifiedIff(k: Crypto, e: string, s: string, secret: Bytes, requiredScope: string, now: int, c: Claims)
    ensures VerifyParts(k, e, s, secret, requiredScope, now) == Verified(c)
            <==> Signed(k, secret, e, s) && Bears(k, e, c) && Granting(c, requiredScope, now)
  {
    if Decode(e).Some? && k.parse(Decode(e).value).Some? {
      ClaimsIff(k.parse(Decode(e).value).value, c, requiredScope, now);
    }
  }

  // ---------------------------------------------------------------------- base64url

  /** The alphabet: capitals, small letters, digits, hyphen and underscore. */
  lemma AlphabetIs(v: Sextet)
    ensures Digit(0) == 'A' && Digit(26) == 'a' && Digit(52) == '0' && Digit(62) == '-' && Digit(63) == '_'
    ensures v !in {25, 51, 61, 62, 63} ==> Digit(v + 1) as int == Digit(v) as int + 1
  {
  }

  /** The bytes of four sextets give the sextets back. */
  lemma SextetsBack(a: int, b: int, c: int, d: int)
    requires 0 <= a < 64 && 0 <= b < 64 && 0 <= c < 64 && 0 <= d < 64
    ensures (a * 4 + b / 16) / 4 == a && (a * 4 + b / 16) % 4 * 16 + (b % 16 * 16 + c / 4) / 16 == b
    ensures (b % 16 * 16 + c / 4) % 16 * 4 + (c % 4 * 64 + d) / 64 == c && (c % 4 * 64 + d) % 64 == d
  {
    assert (a * 4 + b / 16) % 4 == b / 16 && (b % 16 * 16 + c / 4) / 16 == b % 16;
    assert (b % 16 * 16 + c / 4) % 16 == c / 4 && (c % 4 * 64 + d) / 64 == c % 4;
  }

  /** A character is read as a sextet exactly when it is its digit, or plus or slash in
      place of the last two. */
  lemma ReadIff(c: char, v: Sextet)
    ensures Value(c) == Some(v) <==> c == Digit(v) || (v == 62 && c == '+') || (v == 63 && c == '/')
  {
  }

  /** Every place of the text holds a digit, the same as in `e`, except that the last
      one need not be the same unless all of it carries bits. */
  predicate SameDigits(t: string, e: string, whole: bool) {
    && |t| == |e|
    && forall i | 0 <= i < |t| :: Value(t[i]).Some? && (i < |t| - 1 || whole ==> Value(t[i]) == Value(e[i]))
  }

  /** The sextets of a text's first places, zero beyond its end. */
  function SextetIn(t: string, i: nat): Sextet { if i < |t| && Value(t[i]).Some? then Value(t[i]).value else 0 }

  /** The bytes begin with those of the text's first sextets. */
  predicate LedBy(t: string, b: Bytes) {
    var v0: int, v1: int, v2: int, v3: int := SextetIn(t, 0), SextetIn(t, 1), SextetIn(t, 2), SextetIn(t, 3);
    && |b| >= 1 && (|t| == 2 ==> |b| == 1) && (|t| == 3 ==> |b| == 2) && (|t| >= 4 ==> |b| >= 3)
    && b[0] == v0 * 4 + v1 / 16
    && (|t| >= 3 ==> b[1] == v1 % 16 * 16 + v2 / 4)
    && (|t| >= 4 ==> b[2] == v2 % 4 * 64 + v3)
  }

  lemma LeadingBytes(t: string, b: Bytes)
    requires |t| >= 2 && DecodeCore(t) == Some(b)
    ensures LedBy(t, b) && forall i | 0 <= i < |t| && i < 4 :: Value(t[i]).Some?
    ensures |t| >= 4 ==> DecodeCore(t[4..]) == Some(b[3..])
  {
  }

  lemma DigitAt(t: string, i: nat)
    requires i < |t| && Value(t[i]).Some?
    ensures Value(Digit(SextetIn(t, i))) == Value(t[i])
  {
    DigitValue(SextetIn(t, i));
  }

  /** The first digits of the encoding, from the bytes. */
  lemma LeadingDigits(b: Bytes, v0: int, v1: int, v2: int, v3: int)
    requires 0 <= v0 < 64 && 0 <= v1 < 64 && 0 <= v2 < 64 && 0 <= v3 < 64 && |b| >= 1
    requires b[0] == v0 * 4 + v1 / 16
    requires |b| >= 2 ==> b[1] == v1 % 16 * 16 + v2 / 4
    requires |b| >= 3 ==> b[2] == v2 % 4 * 64 + v3
    ensures |b| == 1 ==> |Encode(b)| == 2 && Encode(b)[0] == Digit(v0)
    ensures |b| == 2 ==> |Encode(b)| == 3 && Encode(b)[0] == Digit(v0) && Encode(b)[1] == Digit(v1)
    ensures |b| >= 3 ==> Encode(b) == [Digit(v0), Digit(v1), Digit(v2), Digit(v3)] + Encode(b[3..])
  {
    SextetsBack(v0, v1, v2, v3);
    assert b[0] / 4 == v0;
    if |b| >= 2 { assert b[0] % 4 * 16 + b[1] / 16 == v1; }
    if |b| >= 3 { assert b[1] % 16 * 4 + b[2] / 64 == v2 && b[2] % 64 == v3; }
  }

  lemma LongDigits(t: string, e: string, whole: bool)
    requires |t| >= 4 && SameDigits(t[4..], e, whole) && (|e| == 0 ==> whole)
    requires forall i | 0 <= i < 4 :: Value(t[i]).Some?
    ensures SameDigits(t, [Digit(SextetIn(t, 0)), Digit(SextetIn(t, 1)), Digit(SextetIn(t, 2)), Digit(SextetIn(t, 3))] + e, whole)
  {
    DigitAt(t, 0);
    DigitAt(t, 1);
    DigitAt(t, 2);
    DigitAt(t, 3);
    QuartetAhead(t, [Digit(SextetIn(t, 0)), Digit(SextetIn(t, 1)), Digit(SextetIn(t, 2)), Digit(SextetIn(t, 3))], e, whole);
  }

  lemma ShortDigits(t: string, e: string)
    requires 2 <= |t| == |e| <= 3 && forall i | 0 <= i < |t| :: Value(t[i]).Some?
    requires e[0] == Digit(SextetIn(t, 0)) && (|t| == 3 ==> e[1] == Digit(SextetIn(t, 1)))
    ensures SameDigits(t, e, false)
  {
    DigitAt(t, 0);
    DigitAt(t, 1);
  }

  /** What is left of a length after three bytes. */
  lemma ThreeLess(n: nat)
    requires n >= 3
    ensures (n - 3) % 3 == 0 <==> n % 3 == 0
  {
  }

  /** A text that decodes has the digits of what it decodes to, all of them but the
      last one's spare bits. */
  lemma {:induction false} DecodesOnlyEncodings(t: string, b: Bytes)
    requires DecodeCore(t) == Some(b)
    ensures SameDigits(t, Encode(b), |b| % 3 == 0)
    decreases |t|
  {
    if |t| >= 2 {
      LeadingBytes(t, b);
      LeadingSextets(t, b);
    }
    if |t| >= 4 {
      DecodesOnlyEncodings(t[4..], b[3..]);
      ThreeLess(|b|);
      LongDigits(t, Encode(b[3..]), |b| % 3 == 0);
    } else if |t| >= 2 {
      ShortDigits(t, Encode(b));
    }
  }

  lemma LeadingSextets(t: string, b: Bytes)
    requires |t| >= 2 && LedBy(t, b)
    ensures |t| == 2 ==> |Encode(b)| == 2 && Encode(b)[0] == Digit(SextetIn(t, 0))
    ensures |t| == 3 ==> |Encode(b)| == 3 && Encode(b)[0] == Digit(SextetIn(t, 0)) && Encode(b)[1] == Digit(SextetIn(t, 1))
    ensures |t| >= 4 ==>
              Encode(b) == [Digit(SextetIn(t, 0)), Digit(SextetIn(t, 1)), Digit(SextetIn(t, 2)), Digit(SextetIn(t, 3))] + Encode(b[3..])
  {
    LeadingDigits(b, SextetIn(t, 0), SextetIn(t, 1), SextetIn(t, 2), SextetIn(t, 3));
  }

  lemma QuartetAhead(t: string, quartet: string, e: string, whole: bool)
    requires |t| >= 4 == |quartet| && SameDigits(t[4..], e, whole) && (|e| == 0 ==> whole)
    requires forall i | 0 <= i < 4 :: Value(t[i]).Some? && Value(t[i]) == Value(quartet[i])
    ensures SameDigits(t, quartet + e, whole)
  {
    var all := quartet + e;
    forall i | 0 <= i < |t| ensures Value(t[i]).Some? && (i < |t| - 1 || whole ==> Value(t[i]) == Value(all[i])) {
      if i >= 4 {
        assert t[4..][i - 4] == t[i] && all[i] == e[i - 4];
      } else {
        assert all[i] == quartet[i];
      }
    }
  }

  /** The same for a text as it arrives: without its padding it is such a text. */
  lemma DecodedIsEncoded(t: string, b: Bytes)
    requires Decode(t) == Some(b)
    ensures SameDigits(WithoutPadding(t), Encode(b), |b| % 3 == 0)
  {
    DecodesOnlyEncodings(WithoutPadding(t), b);
  }

  /** A text decodes as it does without its padding, of which it may have any part but
      no more than completes its last quartet. */
  lemma PaddingMayBeThere(t: string, b: Bytes)
    ensures Decode(t) == Some(b)
            <==> var core := WithoutPadding(t);
                 DecodeCore(core) == Some(b) && |t| - |core| <= (4 - |core| % 4) % 4
  {
    CoreIsShorter(t);
    PaddingCounts(|WithoutPadding(t)|, |t| - |WithoutPadding(t)|);
  }

  lemma {:induction false} CoreIsShorter(t: string)
    ensures |WithoutPadding(t)| <= |t|
  {
    if |t| > 0 && t[|t| - 1] == '=' { CoreIsShorter(t[..|t| - 1]); }
  }

  lemma {:induction false} PaddingIsDropped(t: string)
    ensures |WithoutPadding(t)| <= |t| && t == WithoutPadding(t) + seq(|t| - |WithoutPadding(t)|, i => '=')
    ensures |WithoutPadding(t)| > 0 ==> WithoutPadding(t)[|WithoutPadding(t)| - 1] != '='
  {
    if |t| > 0 && t[|t| - 1] == '=' { PaddingIsDropped(t[..|t| - 1]); }
  }

  lemma PaddingCounts(core: nat, p: nat)
    ensures p + (4 - (core + p) % 4) % 4 == (4 - core % 4) % 4 <==> p <= (4 - core % 4) % 4
  {
  }

  // ------------------------------------------------------------------------ minting

  /** A token is minted exactly with a strong secret, for a subject of at most two
      hundred characters, some scopes that are all known, and half a minute to a
      quarter of an hour. */
  lemma MintedIff(k: Crypto, secret: Bytes, subject: string, scopes: set<string>, ttl: int, now: int, tokenId: string)
    ensures Mint(k, secret, subject, scopes, ttl, now, tokenId).Minted?
            <==> |secret| >= 32 && 1 <= |subject| <= 200 && scopes != {} && (forall name :: name in scopes ==> name in ALLOWED)
                 && 30 <= ttl <= 900
  {
  }
}
