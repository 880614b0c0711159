/** The path normal form that guards the operator routes, in its two
    implementations (`_canonical_path` of app/vercel.py and `decodedPath` of
    src/request.ts). Percent-encoding is section 2.1 of RFC 3986. */
module Paths {
  import opened Schema
  import opened Text

  predicate IsAscii(c: char) { c as int < 128 }
  predicate Ascii(s: string) { forall i | 0 <= i < |s| :: IsAscii(s[i]) }

  /** What the language runtimes bring along: strict UTF-8 decoding, and a case
      mapping for text that may be beyond ASCII. */
  datatype Runtime = Runtime(utf8: seq<byte> -> Option<string>, fold: string -> string)

  function AsciiText(bytes: seq<byte>): string
    requires forall i | 0 <= i < |bytes| :: bytes[i] < 128
  {
    seq(|bytes|, i requires 0 <= i < |bytes| => bytes[i] as char)
  }

  /** ASCII decodes to itself, no code point is shorter than one byte, and ASCII
      letters fold to lower case. */
  ghost predicate Lawful(r: Runtime) {
    && (forall bytes: seq<byte> {:trigger r.utf8(bytes)} ::
          (forall i | 0 <= i < |bytes| :: bytes[i] < 128) ==> r.utf8(bytes) == Some(AsciiText(bytes)))
    && (forall bytes: seq<byte> {:trigger r.utf8(bytes)} :: r.utf8(bytes).Some? ==> |r.utf8(bytes).value| <= |bytes|)
    && (forall s: string {:trigger r.fold(s)} :: Ascii(s) ==> r.fold(s) == Lower(s))
  }

  function LowerChar(c: char): char { if 'A' <= c <= 'Z' then (c as int + 32) as char else c }
  function Lower(s: string): string { seq(|s|, i requires 0 <= i < |s| => LowerChar(s[i])) }

  // --------------------------------------------------------------- percent-decoding

  predicate IsHex(c: char) { '0' <= c <= '9' || 'a' <= c <= 'f' || 'A' <= c <= 'F' }

  function HexValue(c: char): (v: int)
    requires IsHex(c)
    ensures 0 <= v < 16
  {
    if '0' <= c <= '9' then c as int - 48 else if 'a' <= c <= 'f' then c as int - 87 else c as int - 55
  }

  predicate EscapeAt(s: string, i: int) {
    0 <= i && i + 2 < |s| && s[i] == '%' && IsHex(s[i + 1]) && IsHex(s[i + 2])
  }

  predicate EscapeFree(s: string) { forall i | 0 <= i < |s| :: !EscapeAt(s, i) }

  /** Every percent sign starts an escape. */
  predicate WellFormed(s: string) {
    if |s| == 0 then true
    else if s[0] == '%' then EscapeAt(s, 0) && WellFormed(s[3..])
    else WellFormed(s[1..])
  }

  /** `unquote_to_bytes`: a percent sign that starts no escape stands for itself. */
  function RunBytes(s: string): (bytes: seq<byte>)
    requires Ascii(s)
    ensures |bytes| <= |s|
  {
    if |s| == 0 then []
    else if EscapeAt(s, 0) then [16 * HexValue(s[1]) + HexValue(s[2])] + RunBytes(s[3..])
    else [s[0] as int] + RunBytes(s[1..])
  }

  /** How far the ASCII characters at the front reach. */
  function AsciiRun(s: string): (k: nat)
    ensures k <= |s| && Ascii(s[..k]) && (k < |s| ==> !IsAscii(s[k]))
  {
    if |s| == 0 || !IsAscii(s[0]) then 0
    else
      var k := AsciiRun(s[1..]);
      assert s[..k + 1] == [s[0]] + s[1..][..k];
      k + 1
  }

  function Append(a: Option<string>, b: Option<string>): Option<string> {
    if a.Some? && b.Some? then Some(a.value + b.value) else None
  }

  /** `unquote(value, errors="strict")`: runs of ASCII are decoded, the rest is kept. */
  function Unquote(r: Runtime, s: string): Option<string> {
    if |s| == 0 then Some("")
    else if IsAscii(s[0]) then
      var k := AsciiRun(s);
      Append(r.utf8(RunBytes(s[..k])), Unquote(r, s[k..]))
    else Append(Some([s[0]]), Unquote(r, s[1..]))
  }

  /** `decodeURIComponent`: malformed escapes are an error as well. */
  function DecodeUriComponent(r: Runtime, s: string): Option<string> {
    if WellFormed(s) then Unquote(r, s) else None
  }

  type Decoder = string -> Option<string>

  function Python(r: Runtime): Decoder { (s: string) => Unquote(r, s) }

  function TypeScript(r: Runtime): Decoder { (s: string) => DecodeUriComponent(r, s) }

  const ROUNDS: nat := 8

  /** Decode until nothing changes, in at most `rounds` rounds. */
  function Stabilize(decode: Decoder, s: string, rounds: nat): Option<string>
    decreases rounds
  {
    if rounds == 0 then None
    else
      match decode(s)
      case None => None
      case Some(d) => if d == s then Some(s) else Stabilize(decode, d, rounds - 1)
  }

  // ---------------------------------------------------------------------- segments

  predicate Printable(s: string) { forall i | 0 <= i < |s| :: s[i] as int >= 32 }

  function Slashes(s: string): string { seq(|s|, i requires 0 <= i < |s| => if s[i] == '\\' then '/' else s[i]) }

  /** One part of the path against the segments before it. */
  function Push(segments: seq<string>, part: string): seq<string> {
    if part == "" || part == "." then segments
    else if part == ".." then if |segments| > 0 then segments[..|segments| - 1] else segments
    else segments + [part]
  }

  function Resolve(parts: seq<string>): seq<string> {
    if |parts| == 0 then [] else Push(Resolve(parts[..|parts| - 1]), parts[|parts| - 1])
  }

  function Segments(value: string): seq<string> { Resolve(Split(Slashes(value), '/')) }

  /** The normal form of a stable value. */
  function Form(r: Runtime, value: string): Option<string> {
    if Printable(value) then Some("/" + r.fold(Join(Segments(value), '/'))) else None
  }

  function Normal(r: Runtime, decode: Decoder, s: string): Option<string> {
    match Stabilize(decode, s, ROUNDS)
    case None => None
    case Some(value) => Form(r, value)
  }

  function Canonical(r: Runtime, s: string): Option<string> { Normal(r, Python(r), s) }

  function CanonicalTs(r: Runtime, s: string): Option<string> { Normal(r, TypeScript(r), s) }

  predicate Guarded(path: string) { path == "/metrics" || "/metrics/" <= path || path == "/ops" || "/ops/" <= path }

  predicate Allowed(path: Option<string>) { path.Some? && !Guarded(path.value) }

  // ------------------------------------------------------------ the code as it runs

  /** The two source functions differ in their decoder and their case mapping only. */
  method Normalize(r: Runtime, decode: Decoder, pathname: string) returns (path: Option<string>)
    ensures path == Normal(r, decode, pathname)
  {
    var value, stable := pathname, false;
    var count := 0;
    while count < ROUNDS
      invariant count <= ROUNDS && !stable
      invariant Stabilize(decode, pathname, ROUNDS) == Stabilize(decode, value, ROUNDS - count)
    {
      var decoded := decode(value);
      if decoded.None? { return None; }
      if decoded.value == value {
        stable := true;
        break;
      }
      value := decoded.value;
      count := count + 1;
    }
    if !stable { return None; }
    var control := false;
    for i := 0 to |value|
      invariant control <==> !Printable(value[..i])
    {
      assert value[..i + 1] == value[..i] + [value[i]];
      if (value[i] as int) < 32 { control := true; }
    }
    assert value[..|value|] == value;
    if control { return None; }
    var parts := Split(Slashes(value), '/');
    var segments: seq<string> := [];
    for i := 0 to |parts|
      invariant segments == Resolve(parts[..i])
    {
      assert parts[..i + 1][..i] == parts[..i];
      var part := parts[i];
      if part == "" || part == "." { continue; }
      if part == ".." {
        if |segments| > 0 { segments := segments[..|segments| - 1]; }
        continue;
      }
      segments := segments + [part];
    }
    assert parts[..|parts|] == parts;
    path := Some("/" + r.fold(Join(segments, '/')));
  }

  /** `_canonical_path` of a path that arrived as text, or as ASCII bytes. */
  method CanonicalPath(r: Runtime, rawPath: string) returns (path: Option<string>)
    ensures path == Canonical(r, rawPath)
  {
    path := Normalize(r, Python(r), rawPath);
  }

  /** `decodedPath`. */
  method DecodedPath(r: Runtime, pathname: string) returns (path: Option<string>)
    ensures path == CanonicalTs(r, pathname)
  {
    path := Normalize(r, TypeScript(r), pathname);
  }

  // ------------------------------------------------- decoding shrinks to a fixed point

  lemma {:induction false} EscapeFreeBytes(s: string)
    requires Ascii(s)
    ensures (forall i | 0 <= i < |s| :: !EscapeAt(s, i)) ==>
              |RunBytes(s)| == |s| && forall i | 0 <= i < |s| :: RunBytes(s)[i] == s[i] as int
    ensures !(forall i | 0 <= i < |s| :: !EscapeAt(s, i)) ==> |RunBytes(s)| < |s|
  {
    if |s| > 0 && !EscapeAt(s, 0) {
      EscapeFreeBytes(s[1..]);
      assert forall i | 0 <= i < |s| - 1 :: EscapeAt(s[1..], i) <==> EscapeAt(s, i + 1);
      if exists i | 0 <= i < |s| :: EscapeAt(s, i) {
        var i :| 0 <= i < |s| && EscapeAt(s, i);
        assert EscapeAt(s[1..], i - 1);
      }
    }
  }

  /** One run of ASCII: unchanged when it has no escape, else shorter. */
  lemma RunShrinks(r: Runtime, s: string)
    requires Lawful(r) && Ascii(s)
    ensures EscapeFree(s) ==> r.utf8(RunBytes(s)) == Some(s)
    ensures !EscapeFree(s) && r.utf8(RunBytes(s)).Some? ==> |r.utf8(RunBytes(s)).value| < |s|
  {
    EscapeFreeBytes(s);
    if EscapeFree(s) { assert AsciiText(RunBytes(s)) == s; }
  }

  /** A round of decoding leaves the text as it is or makes it strictly shorter. */
  lemma {:induction false} DecodingShrinks(r: Runtime, s: string)
    requires Lawful(r)
    ensures Unquote(r, s).Some? ==> Unquote(r, s).value == s || |Unquote(r, s).value| < |s|
  {
    if |s| > 0 {
      var k := if IsAscii(s[0]) then AsciiRun(s) else 1;
      assert k > 0 && s == s[..k] + s[k..];
      if IsAscii(s[0]) { RunShrinks(r, s[..k]); } else { assert [s[0]] == s[..1]; }
      DecodingShrinks(r, s[k..]);
    }
  }

  /** ASCII text is a fixed point exactly when it holds no escape. */
  lemma AsciiFixedPoint(r: Runtime, s: string)
    requires Lawful(r) && Ascii(s)
    ensures Unquote(r, s) == Some(s) <==> EscapeFree(s)
  {
    if |s| > 0 {
      assert AsciiRun(s) == |s| && s[..|s|] == s && s[|s|..] == "";
      RunShrinks(r, s);
      assert Unquote(r, s) == Append(r.utf8(RunBytes(s)), Some(""));
      if r.utf8(RunBytes(s)).Some? { assert r.utf8(RunBytes(s)).value + "" == r.utf8(RunBytes(s)).value; }
    }
  }

  /** Whatever is accepted was decoded to a fixed point. */
  lemma {:induction false} StableIsFixed(decode: Decoder, s: string, rounds: nat)
    ensures var v := Stabilize(decode, s, rounds); v.Some? ==> decode(v.value) == v
    decreases rounds
  {
    if rounds > 0 && decode(s).Some? && decode(s).value != s { StableIsFixed(decode, decode(s).value, rounds - 1); }
  }

  // ------------------------------------------------------------- layers of encoding

  /** More rounds never change a result. */
  lemma {:induction false} MoreRounds(decode: Decoder, s: string, rounds: nat)
    ensures Stabilize(decode, s, rounds).Some? ==> Stabilize(decode, s, rounds + 1) == Stabilize(decode, s, rounds)
    decreases rounds
  {
    if rounds > 0 && decode(s).Some? && decode(s).value != s { MoreRounds(decode, decode(s).value, rounds - 1); }
  }

  /** `outer` decodes to `inner` in some number of rounds. */
  predicate Decodes(decode: Decoder, outer: string, inner: string, layers: nat)
    decreases layers
  {
    if layers == 0 then outer == inner
    else decode(outer).Some? && Decodes(decode, decode(outer).value, inner, layers - 1)
  }

  lemma {:induction false} LayersStabilizeAlike(decode: Decoder, outer: string, inner: string, layers: nat)
    requires Decodes(decode, outer, inner, layers) && Stabilize(decode, outer, ROUNDS).Some?
    ensures Stabilize(decode, inner, ROUNDS) == Stabilize(decode, outer, ROUNDS)
    decreases layers
  {
    if layers > 0 {
      var next := decode(outer).value;
      if next != outer { MoreRounds(decode, next, ROUNDS - 1); }
      LayersStabilizeAlike(decode, next, inner, layers - 1);
    }
  }

  /** However many layers of encoding a path is wrapped in: if the wrapped path is
      let through, so is the path inside, and under the same normal form. */
  lemma LayersCannotHide(r: Runtime, decode: Decoder, outer: string, inner: string, layers: nat)
    requires Decodes(decode, outer, inner, layers) && Allowed(Normal(r, decode, outer))
    ensures Normal(r, decode, inner) == Normal(r, decode, outer) && Allowed(Normal(r, decode, inner))
  {
    LayersStabilizeAlike(decode, outer, inner, layers);
  }

  function HexDigit(v: int): char
    requires 0 <= v < 16
  {
    if v < 10 then (v + 48) as char else (v + 55) as char
  }

  /** Percent-encode the masked characters, and every percent sign. */
  function Encode(s: string, mask: seq<bool>): string
    requires Ascii(s) && |mask| == |s|
  {
    if |s| == 0 then ""
    else
      var c := s[0] as int;
      (if mask[0] || s[0] == '%' then ['%', HexDigit(c / 16), HexDigit(c % 16)] else [s[0]]) + Encode(s[1..], mask[1..])
  }

  lemma {:induction false} EncodedBytes(s: string, mask: seq<bool>)
    requires Ascii(s) && |mask| == |s|
    ensures Ascii(Encode(s, mask)) && WellFormed(Encode(s, mask))
    ensures |RunBytes(Encode(s, mask))| == |s| && forall i | 0 <= i < |s| :: RunBytes(Encode(s, mask))[i] == s[i] as int
  {
    if |s| > 0 {
      var rest := Encode(s[1..], mask[1..]);
      EncodedBytes(s[1..], mask[1..]);
      var e := Encode(s, mask);
      if mask[0] || s[0] == '%' {
        assert e[3..] == rest && EscapeAt(e, 0);
      } else {
        assert e[1..] == rest && e[0] == s[0];
      }
    }
  }

  /** Decoding undoes one layer of encoding, whichever characters it covered, in
      both implementations. */
  lemma DecodeUndoesEncode(r: Runtime, s: string, mask: seq<bool>)
    requires Lawful(r) && Ascii(s) && |mask| == |s|
    ensures Unquote(r, Encode(s, mask)) == Some(s) && DecodeUriComponent(r, Encode(s, mask)) == Some(s)
  {
    var e := Encode(s, mask);
    EncodedBytes(s, mask);
    assert AsciiText(RunBytes(e)) == s;
    if |e| > 0 {
      assert AsciiRun(e) == |e| && e[..|e|] == e && e[|e|..] == "";
      assert s + "" == s;
    }
  }

  /** Any layers of encoding, whichever characters each of them covers. */
  function EncodeLayers(s: string, masks: seq<seq<bool>>): string
    requires Ascii(s)
  {
    if |masks| == 0 then s
    else
      var inner := EncodeLayers(s, masks[1..]);
      if Ascii(inner) && |masks[0]| == |inner| then Encode(inner, masks[0]) else inner
  }

  lemma {:induction false} LayersDecode(r: Runtime, s: string, masks: seq<seq<bool>>) returns (layers: nat)
    requires Lawful(r) && Ascii(s)
    ensures Ascii(EncodeLayers(s, masks)) && Decodes(Python(r), EncodeLayers(s, masks), s, layers)
    decreases |masks|
  {
    if |masks| == 0 { return 0; }
    layers := LayersDecode(r, s, masks[1..]);
    var inner := EncodeLayers(s, masks[1..]);
    if |masks[0]| == |inner| {
      EncodedBytes(inner, masks[0]);
      DecodeUndoesEncode(r, inner, masks[0]);
      layers := layers + 1;
    }
  }

  /** No encoding of an ASCII path gets through unless the path itself does. */
  lemma EncodedPathIsAllowedOnlyIfPathIs(r: Runtime, s: string, masks: seq<seq<bool>>)
    requires Lawful(r) && Ascii(s) && Allowed(Canonical(r, EncodeLayers(s, masks)))
    ensures Allowed(Canonical(r, s)) && Canonical(r, s) == Canonical(r, EncodeLayers(s, masks))
  {
    var layers := LayersDecode(r, s, masks);
    LayersCannotHide(r, Python(r), EncodeLayers(s, masks), s, layers);
  }

  // ---------------------------------------------------------------- clean segments

  predicate CleanSegment(p: string) { p != "" && p != "." && p != ".." && '/' !in p && '\\' !in p }

  predicate CleanSegments(parts: seq<string>) { forall p :: p in parts ==> CleanSegment(p) }

  lemma {:induction false} ResolveSelects(parts: seq<string>)
    ensures forall p :: p in Resolve(parts) ==> p in parts && p != "" && p != "." && p != ".."
  {
    if |parts| > 0 {
      var init := parts[..|parts| - 1];
      ResolveSelects(init);
      forall p | p in Resolve(parts) ensures p in parts && p != "" && p != "." && p != ".." {
        if p in Resolve(init) { assert p in init; }
      }
    }
  }

  lemma {:induction false} SplitCharacters(s: string)
    ensures forall p, c :: p in Split(s, '/') && c in p ==> c in s
    decreases |s|
  {
    match First(s, '/')
    case None =>
    case Some(k) =>
      SplitCharacters(s[k + 1..]);
  }

  /** No segment of a normal form is empty, a dot segment, or holds a separator. */
  lemma SegmentsAreClean(value: string)
    ensures CleanSegments(Segments(value))
    ensures forall p, c :: p in Segments(value) && c in p ==> c in value
  {
    var s := Slashes(value);
    ResolveSelects(Split(s, '/'));
    SplitCharacters(s);
    forall p | p in Segments(value)
      ensures CleanSegment(p) && forall c :: c in p ==> c in value
    {
      forall c | c in p ensures c in value && c != '\\' && c != '/' {
        assert c in s;
        var i :| 0 <= i < |s| && s[i] == c;
        assert c != '/';
        assert value[i] == c;
      }
    }
  }

  // ------------------------------------------------------------------- idempotence

  lemma {:induction false} ResolveClean(parts: seq<string>)
    requires CleanSegments(parts)
    ensures Resolve([""] + parts) == parts
  {
    if |parts| == 0 {
      assert [""] + parts == [""] && [""][..0] == [];
    } else {
      var all := [""] + parts;
      assert all[..|all| - 1] == [""] + parts[..|parts| - 1] && all[|all| - 1] == parts[|parts| - 1];
      assert parts[|parts| - 1] in parts;
      ResolveClean(parts[..|parts| - 1]);
      assert parts == parts[..|parts| - 1] + [parts[|parts| - 1]];
    }
  }

  lemma JoinWithRoot(parts: seq<string>)
    ensures "/" + Join(parts, '/') == Join([""] + if |parts| == 0 then [""] else parts, '/')
  {
    var more := if |parts| == 0 then [""] else parts;
    var all := [""] + more;
    assert all[1..] == more && |all| >= 2;
    assert Join(all, '/') == all[0] + ['/'] + Join(more, '/');
    assert Join(more, '/') == Join(parts, '/');
  }

  /** Splitting the normal form again yields its segments. */
  lemma SegmentsOfForm(parts: seq<string>)
    requires CleanSegments(parts)
    ensures Segments("/" + Join(parts, '/')) == parts
  {
    JoinCharacters(parts);
    var s := "/" + Join(parts, '/');
    forall i | 0 <= i < |s| ensures s[i] != '\\' {
      if i > 0 { assert s[i] in Join(parts, '/'); }
    }
    assert Slashes(s) == s;
    JoinWithRoot(parts);
    var all := [""] + if |parts| == 0 then [""] else parts;
    SplitJoin(all, '/');
    if |parts| == 0 {
      assert all[..1] == [""] && [""][..0] == [];
      assert Resolve(all) == Push(Push([], ""), "");
    } else {
      ResolveClean(parts);
    }
  }

  lemma {:induction false} JoinCharacters(parts: seq<string>)
    ensures forall c :: c in Join(parts, '/') ==> c == '/' || exists p :: p in parts && c in p
  {
    if |parts| > 1 {
      JoinCharacters(parts[1..]);
      forall c | c in Join(parts, '/') ensures c == '/' || exists p :: p in parts && c in p {
        if c !in parts[0] && c != '/' {
          assert c in Join(parts[1..], '/');
          var p :| p in parts[1..] && c in p;
          assert p in parts;
        } else if c in parts[0] {
          assert parts[0] in parts;
        }
      }
    } else if |parts| == 1 {
      assert parts[0] in parts;
    }
  }

  function LowerAll(parts: seq<string>): seq<string> { seq(|parts|, i requires 0 <= i < |parts| => Lower(parts[i])) }

  lemma {:induction false} LowerJoin(parts: seq<string>)
    ensures Lower(Join(parts, '/')) == Join(LowerAll(parts), '/')
  {
    if |parts| > 1 {
      LowerJoin(parts[1..]);
      assert LowerAll(parts)[1..] == LowerAll(parts[1..]);
      assert Lower(parts[0] + "/" + Join(parts[1..], '/')) == Lower(parts[0]) + "/" + Lower(Join(parts[1..], '/'));
    }
  }

  lemma LowerSegment(s: string)
    requires CleanSegment(s)
    ensures CleanSegment(Lower(s)) && Lower(Lower(s)) == Lower(s)
  {
    var p := Lower(s);
    assert forall j | 0 <= j < |s| :: s[j] in s && p[j] == LowerChar(s[j]) == LowerChar(LowerChar(s[j]));
    if |s| == 1 { assert s == [s[0]]; }
    if |s| == 2 { assert s == [s[0], s[1]]; }
  }

  lemma LowerKeepsClean(parts: seq<string>)
    requires CleanSegments(parts)
    ensures CleanSegments(LowerAll(parts)) && LowerAll(LowerAll(parts)) == LowerAll(parts)
  {
    forall i | 0 <= i < |parts| ensures CleanSegment(Lower(parts[i])) && Lower(Lower(parts[i])) == Lower(parts[i]) {
      assert parts[i] in parts;
      LowerSegment(parts[i]);
    }
  }

  // -- no escape appears in the normal form of a text without one

  /** An escape cannot reach across a slash. */
  lemma EscapeFreeAcross(a: string, b: string)
    ensures EscapeFree(a + "/" + b) <==> EscapeFree(a) && EscapeFree(b)
  {
    var s := a + "/" + b;
    assert |s| == |a| + 1 + |b| && s[|a|] == '/';
    assert forall i | 0 <= i < |a| :: s[i] == a[i];
    assert forall i | 0 <= i < |b| :: s[|a| + 1 + i] == b[i];
    if EscapeFree(s) {
      forall i | 0 <= i < |a| ensures !EscapeAt(a, i) { assert !EscapeAt(s, i); }
      forall i | 0 <= i < |b| ensures !EscapeAt(b, i) { assert !EscapeAt(s, |a| + 1 + i); }
    }
    if EscapeFree(a) && EscapeFree(b) {
      forall i | 0 <= i < |s| ensures !EscapeAt(s, i) {
        if i < |a| { assert !EscapeAt(a, i); } else if i > |a| { assert !EscapeAt(b, i - |a| - 1); }
      }
    }
  }

  lemma {:induction false} PartsEscapeFree(s: string)
    requires EscapeFree(s)
    ensures forall p :: p in Split(s, '/') ==> EscapeFree(p)
    decreases |s|
  {
    match First(s, '/')
    case None =>
    case Some(k) =>
      assert s == s[..k] + "/" + s[k + 1..];
      EscapeFreeAcross(s[..k], s[k + 1..]);
      PartsEscapeFree(s[k + 1..]);
  }

  lemma {:induction false} JoinEscapeFree(parts: seq<string>)
    requires forall p :: p in parts ==> EscapeFree(p)
    ensures EscapeFree(Join(parts, '/'))
  {
    if |parts| > 1 {
      assert parts[0] in parts;
      JoinEscapeFree(parts[1..]);
      EscapeFreeAcross(parts[0], Join(parts[1..], '/'));
    } else if |parts| == 1 {
      assert parts[0] in parts;
    }
  }

  lemma SlashesEscapeFree(s: string)
    requires EscapeFree(s)
    ensures EscapeFree(Slashes(s))
  {
    forall i | 0 <= i < |s| ensures !EscapeAt(Slashes(s), i) { assert !EscapeAt(s, i); }
  }

  lemma LowerEscapeFree(s: string)
    requires EscapeFree(s)
    ensures EscapeFree(Lower(s))
  {
    forall i | 0 <= i < |s| ensures !EscapeAt(Lower(s), i) { assert !EscapeAt(s, i); }
  }

  /** The normal form of a stable ASCII value. */
  lemma FormIs(r: Runtime, value: string)
    requires Lawful(r) && Ascii(value) && Printable(value) && EscapeFree(value)
    ensures var parts := LowerAll(Segments(value)); var path := "/" + Join(parts, '/');
            && Form(r, value) == Some(path)
            && CleanSegments(parts) && LowerAll(parts) == parts
            && Ascii(path) && Printable(path) && EscapeFree(path)
  {
    var parts := Segments(value);
    SegmentsAreClean(value);
    JoinCharacters(parts);
    var joined := Join(parts, '/');
    forall i | 0 <= i < |joined| ensures IsAscii(joined[i]) && joined[i] as int >= 32 {
      assert joined[i] in joined;
    }
    LowerJoin(parts);
    LowerKeepsClean(parts);
    SlashesEscapeFree(value);
    PartsEscapeFree(Slashes(value));
    ResolveSelects(Split(Slashes(value), '/'));
    JoinEscapeFree(parts);
    LowerEscapeFree(joined);
    EscapeFreeAcross("", Lower(joined));
    assert "" + "/" + Lower(joined) == "/" + Lower(joined);
  }

  /** On paths that end up ASCII, the normal form is a fixed point of normalization,
      and its segments are clean. */
  lemma CanonicalIsIdempotent(r: Runtime, s: string)
    requires Lawful(r) && Canonical(r, s).Some?
    requires Ascii(Stabilize(Python(r), s, ROUNDS).value)
    ensures var path := Canonical(r, s).value;
            && Canonical(r, path) == Some(path)
            && path == "/" + Join(Segments(path), '/') && CleanSegments(Segments(path))
  {
    var decode := Python(r);
    var value := Stabilize(decode, s, ROUNDS).value;
    StableIsFixed(decode, s, ROUNDS);
    AsciiFixedPoint(r, value);
    FormIs(r, value);
    var parts := LowerAll(Segments(value));
    var path := "/" + Join(parts, '/');
    assert Canonical(r, s) == Some(path);
    AsciiFixedPoint(r, path);
    assert decode(path) == Some(path);
    SegmentsOfForm(parts);
    FormIs(r, path);
  }

  /** Beyond ASCII it need not be: U+FB00 folds to two letters, which complete an
      escape that was none before, and of a byte that is no UTF-8. */
  lemma FoldingCanMakeAnEscape(r: Runtime)
    requires Lawful(r) && r.fold("%\U{FB00}") == "%ff" && r.utf8([47, 255]) == None
    ensures Canonical(r, "/" + "%\U{FB00}") == Some("/" + "%ff") && Canonical(r, "/" + "%ff") == None
  {
    var part := "%\U{FB00}";
    LigatureIsKept(r);
    LigatureIsClean();
    LoneSegment(r, part);
    EscapeIsDecoded(r);
  }

  lemma LigatureIsClean()
    ensures CleanSegment("%\U{FB00}") && Printable("/" + "%\U{FB00}")
  {
  }

  lemma LigatureIsKept(r: Runtime)
    requires Lawful(r)
    ensures Unquote(r, "/" + "%\U{FB00}") == Some("/" + "%\U{FB00}")
  {
    var s, run, tail := "/" + "%\U{FB00}", "/%", "\U{FB00}";
    assert s[1..][1..] == tail && AsciiRun(tail) == 0;
    assert AsciiRun(s[1..]) == 1;
    assert AsciiRun(s) == 2 && s[..2] == run && s[2..] == tail;
    assert EscapeFree(run);
    RunShrinks(r, run);
    assert tail[1..] == "" && !IsAscii(tail[0]) && [tail[0]] + "" == tail;
    assert Unquote(r, tail) == Append(Some([tail[0]]), Unquote(r, tail[1..]));
    assert run + tail == s;
  }

  lemma EscapeIsDecoded(r: Runtime)
    requires Lawful(r) && r.utf8([47, 255]) == None
    ensures Canonical(r, "/" + "%ff") == None
  {
    var s := "/" + "%ff";
    assert s[1..] == "%ff" && "%ff"[3..] == "" && EscapeAt("%ff", 0) && !EscapeAt(s, 0);
    assert RunBytes("%ff") == [255];
    assert RunBytes(s) == [47, 255];
    assert AsciiRun(s) == 4 by { assert Ascii(s); }
    assert s[..4] == s;
    assert Python(r)(s) == None;
  }

  lemma LoneSegment(r: Runtime, part: string)
    requires CleanSegment(part) && Printable("/" + part) && Unquote(r, "/" + part) == Some("/" + part)
    ensures Canonical(r, "/" + part) == Some("/" + r.fold(part))
  {
    var parts := [part];
    assert Join(parts, '/') == part;
    SegmentsOfForm(parts);
  }

  // ---------------------------------------------------------------- two languages

  lemma {:induction false} StricterDecoder(r: Runtime, s: string, rounds: nat)
    ensures var ts := Stabilize(TypeScript(r), s, rounds);
            ts.Some? ==> Stabilize(Python(r), s, rounds) == ts
    decreases rounds
  {
    if rounds > 0 && DecodeUriComponent(r, s).Some? && DecodeUriComponent(r, s).value != s {
      StricterDecoder(r, DecodeUriComponent(r, s).value, rounds - 1);
    }
  }

  /** Whatever the TypeScript version lets through, the Python version lets through
      under the same normal form, as long as the decoded path is ASCII: there the two
      case mappings agree. `js` and `py` decode UTF-8 alike. */
  lemma TypeScriptAllowsNoMore(js: Runtime, py: Runtime, s: string)
    requires Lawful(js) && Lawful(py) && js.utf8 == py.utf8
    requires Allowed(CanonicalTs(js, s)) && Ascii(Stabilize(TypeScript(js), s, ROUNDS).value)
    ensures Canonical(py, s) == CanonicalTs(js, s) && Allowed(Canonical(py, s))
  {
    SameUnquote(js, py, s, ROUNDS);
    StricterDecoder(js, s, ROUNDS);
    var value := Stabilize(TypeScript(js), s, ROUNDS).value;
    AsciiJoined(value);
  }

  lemma AsciiJoined(value: string)
    requires Ascii(value)
    ensures Ascii(Join(Segments(value), '/'))
  {
    SegmentsAreClean(value);
    JoinCharacters(Segments(value));
    var joined := Join(Segments(value), '/');
    forall i | 0 <= i < |joined| ensures IsAscii(joined[i]) { assert joined[i] in joined; }
  }

  lemma {:induction false} UnquoteDependsOnUtf8(js: Runtime, py: Runtime, s: string)
    requires js.utf8 == py.utf8
    ensures Unquote(js, s) == Unquote(py, s)
  {
    if |s| > 0 { UnquoteDependsOnUtf8(js, py, s[if IsAscii(s[0]) then AsciiRun(s) else 1..]); }
  }

  lemma {:induction false} SameUnquote(js: Runtime, py: Runtime, s: string, rounds: nat)
    requires js.utf8 == py.utf8
    ensures Stabilize(Python(js), s, rounds) == Stabilize(Python(py), s, rounds)
    decreases rounds
  {
    if rounds > 0 {
      UnquoteDependsOnUtf8(js, py, s);
      if Unquote(js, s).Some? && Unquote(js, s).value != s { SameUnquote(js, py, Unquote(js, s).value, rounds - 1); }
    }
  }

  /** The text of every decoding round, up to the stable one, is free of stray
      percent signs. */
  predicate WellFormedRounds(r: Runtime, s: string, rounds: nat)
    decreases rounds
  {
    rounds > 0 && WellFormed(s)
    && (Unquote(r, s).Some? && Unquote(r, s).value != s ==> WellFormedRounds(r, Unquote(r, s).value, rounds - 1))
  }

  lemma {:induction false} StabilizesInBoth(r: Runtime, s: string, rounds: nat)
    requires Stabilize(Python(r), s, rounds).Some?
    ensures Stabilize(TypeScript(r), s, rounds).Some? <==> WellFormedRounds(r, s, rounds)
    decreases rounds
  {
    if Unquote(r, s).Some? && Unquote(r, s).value != s { StabilizesInBoth(r, Unquote(r, s).value, rounds - 1); }
  }

  /** Exactly when TypeScript lets through what Python does, for a path that decodes
      to ASCII: when no round of decoding meets a stray percent sign. */
  lemma TypeScriptAllowsIff(js: Runtime, py: Runtime, s: string)
    requires Lawful(js) && Lawful(py) && js.utf8 == py.utf8
    requires Allowed(Canonical(py, s)) && Ascii(Stabilize(Python(py), s, ROUNDS).value)
    ensures Allowed(CanonicalTs(js, s)) <==> WellFormedRounds(py, s, ROUNDS)
  {
    SameUnquote(js, py, s, ROUNDS);
    SameRounds(js, py, s, ROUNDS);
    StabilizesInBoth(js, s, ROUNDS);
    StricterDecoder(js, s, ROUNDS);
    AsciiJoined(Stabilize(Python(py), s, ROUNDS).value);
  }

  lemma {:induction false} SameRounds(js: Runtime, py: Runtime, s: string, rounds: nat)
    requires js.utf8 == py.utf8
    ensures WellFormedRounds(js, s, rounds) <==> WellFormedRounds(py, s, rounds)
    decreases rounds
  {
    UnquoteDependsOnUtf8(js, py, s);
    if rounds > 0 && Unquote(js, s).Some? && Unquote(js, s).value != s { SameRounds(js, py, Unquote(js, s).value, rounds - 1); }
  }

  /** The other direction fails: a percent sign that starts no escape is text in
      Python and an error in TypeScript. */
  lemma PythonAllowsMore(r: Runtime)
    requires Lawful(r)
    ensures Allowed(Canonical(r, "/" + "%zz")) && CanonicalTs(r, "/" + "%zz") == None
  {
    LonePercentIsKept(r);
    LonePercentIsMalformed(r);
    assert ("/" + "%zz")[1] == '%';
  }

  lemma LonePercentIsKept(r: Runtime)
    requires Lawful(r)
    ensures Canonical(r, "/" + "%zz") == Some("/" + "%zz")
  {
    var part := "%zz";
    assert Ascii("/" + part) && EscapeFree("/" + part);
    AsciiFixedPoint(r, "/" + part);
    LoneSegment(r, part);
    assert Lower(part) == part;
  }

  lemma LonePercentIsMalformed(r: Runtime)
    ensures CanonicalTs(r, "/" + "%zz") == None
  {
    var s := "/" + "%zz";
    assert s[1..] == "%zz" && !EscapeAt("%zz", 0);
    assert !WellFormed(s);
    assert TypeScript(r)(s) == None;
  }
}
