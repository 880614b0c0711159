/** What a path means to the guard of the operator routes: the laws of its segments,
    which say what dots, empty parts and backslashes do without saying how they are
    resolved, exactly which paths are refused, and how deep an encoding may be. */
module PathMeaning {
  import opened Schema
  import opened Text
  import opened Paths

  // ------------------------------------------------------------- splitting at slashes

  lemma {:induction false} SplitAppend(a: string, b: string)
    ensures Split(a + "/" + b, '/') == Split(a, '/') + Split(b, '/')
    decreases |a|
  {
    var s := a + "/" + b;
    match First(a, '/')
    case None =>
      FirstIs(s, '/', |a|);
      assert s[..|a|] == a && s[|a| + 1..] == b;
    case Some(k) =>
      CutBefore(a, b, k);
      FirstIs(s, '/', k);
      SplitAppend(a[k + 1..], b);
      Regrouped([a[..k]], Split(a[k + 1..], '/'), Split(b, '/'));
  }

  lemma CutBefore(a: string, b: string, k: nat)
    requires k < |a|
    ensures var s := a + "/" + b; s[..k] == a[..k] && s[k] == a[k] && s[k + 1..] == a[k + 1..] + "/" + b
  {
  }

  lemma Regrouped(a: seq<string>, b: seq<string>, c: seq<string>)
    ensures a + (b + c) == a + b + c
  {
  }

  lemma SlashesAppend(a: string, b: string)
    ensures Slashes(a + b) == Slashes(a) + Slashes(b)
  {
  }

  /** The parts of a path, on both sides of any slash. */
  function Parts(s: string): seq<string> { Split(Slashes(s), '/') }

  lemma PartsAppend(a: string, b: string)
    ensures Parts(a + "/" + b) == Parts(a) + Parts(b)
  {
    SlashesAppend(a + "/", b);
    SlashesAppend(a, "/");
    assert Slashes("/") == "/";
    SplitAppend(Slashes(a), Slashes(b));
  }

  lemma PartIs(s: string)
    requires CleanSegment(s) || s in {"", ".", ".."}
    ensures Parts(s) == [s]
  {
    assert Slashes(s) == s;
    assert '/' !in s;
    SplitJoin([s], '/');
    assert Join([s], '/') == s;
  }

  // -------------------------------------------------------------- the laws of segments

  /** What is resolved before a part is all that matters of it. */
  lemma {:induction false} ResolvedAlike(a: seq<string>, b: seq<string>, rest: seq<string>)
    requires Resolve(a) == Resolve(b)
    ensures Resolve(a + rest) == Resolve(b + rest)
  {
    if |rest| == 0 {
      assert a + rest == a && b + rest == b;
    } else {
      var init := rest[..|rest| - 1];
      ResolvedAlike(a, b, init);
      assert (a + rest)[..|a + rest| - 1] == a + init && (b + rest)[..|b + rest| - 1] == b + init;
    }
  }

  lemma OnePart(a: seq<string>, part: string)
    ensures Resolve(a + [part]) == Push(Resolve(a), part)
  {
    assert (a + [part])[..|a|] == a;
  }

  /** A part after any text. */
  lemma SegmentsEnd(a: string, part: string)
    requires CleanSegment(part) || part in {"", ".", ".."}
    ensures Segments(a + "/" + part) == Push(Segments(a), part)
  {
    PartsAppend(a, part);
    PartIs(part);
    OnePart(Parts(a), part);
  }

  /** Texts with the same segments have the same segments however they go on. */
  lemma SameGoingOn(a: string, b: string, rest: string)
    requires Segments(a) == Segments(b)
    ensures Segments(a + "/" + rest) == Segments(b + "/" + rest)
  {
    PartsAppend(a, rest);
    PartsAppend(b, rest);
    ResolvedAlike(Parts(a), Parts(b), Parts(rest));
  }

  /** A segment is added at the end. */
  lemma SegmentIsAdded(a: string, s: string)
    requires CleanSegment(s)
    ensures Segments(a + "/" + s) == Segments(a) + [s]
  {
    SegmentsEnd(a, s);
  }

  /** Two dots take back the segment before them, wherever they are. */
  lemma DotsTakeBack(a: string, s: string, rest: string)
    requires CleanSegment(s)
    ensures Segments(a + "/" + s + "/..") == Segments(a)
    ensures Segments(a + "/" + s + "/../" + rest) == Segments(a + "/" + rest)
  {
    SegmentsEnd(a, s);
    var b := a + "/" + s;
    assert b + "/" + ".." == b + "/..";
    SegmentsEnd(b, "..");
    assert (Segments(a) + [s])[..|Segments(a)|] == Segments(a);
    SameGoingOn(b + "/..", a, rest);
    assert b + "/../" + rest == b + "/.." + "/" + rest;
  }

  /** At the root there is nothing to take back. */
  lemma DotsStayAtRoot(a: string, rest: string)
    requires Segments(a) == []
    ensures Segments(a + "/..") == []
    ensures Segments(a + "/../" + rest) == Segments(a + "/" + rest)
  {
    assert a + "/" + ".." == a + "/..";
    SegmentsEnd(a, "..");
    SameGoingOn(a + "/..", a, rest);
    assert a + "/../" + rest == a + "/.." + "/" + rest;
  }

  /** Empty parts and single dots mean nothing. */
  lemma NothingIsSkipped(a: string, part: string, rest: string)
    requires part in {"", "."}
    ensures Segments(a + "/" + part) == Segments(a)
    ensures Segments(a + "/" + part + "/" + rest) == Segments(a + "/" + rest)
  {
    SegmentsEnd(a, part);
    SameGoingOn(a + "/" + part, a, rest);
  }

  /** A backslash separates as a slash does, and the empty text has no segment. */
  lemma BackslashSeparates(a: string, b: string)
    ensures Segments(a + "\\" + b) == Segments(a + "/" + b) && Segments("") == []
  {
    assert Slashes(a + "\\" + b) == Slashes(a + "/" + b);
    assert Slashes("") == "" && Split("", '/') == [""] && [""][..0] == [];
    assert Resolve([""]) == Push(Resolve([]), "");
  }

  // ----------------------------------------------------------------- climbing out

  /** Clean segments, each behind a slash. */
  function Down(ps: seq<string>): string { if |ps| == 0 then "" else Down(ps[..|ps| - 1]) + "/" + ps[|ps| - 1] }

  function Up(n: nat): string { if n == 0 then "" else Up(n - 1) + "/.." }

  lemma Reassociate(a: string, b: string, c: string)
    ensures a + (b + c) == a + b + c
  {
  }

  lemma DownOnce(a: string, ps: seq<string>)
    requires |ps| > 0
    ensures a + Down(ps) == a + Down(ps[..|ps| - 1]) + "/" + ps[|ps| - 1]
  {
    var init, last := Down(ps[..|ps| - 1]), ps[|ps| - 1];
    Reassociate(a, init + "/", last);
    Reassociate(a, init, "/");
  }

  lemma LastAdded(a: seq<string>, ps: seq<string>)
    requires |ps| > 0
    ensures a + ps[..|ps| - 1] + [ps[|ps| - 1]] == a + ps
  {
  }

  lemma {:induction false} GoingDown(a: string, ps: seq<string>)
    requires CleanSegments(ps)
    ensures Segments(a + Down(ps)) == Segments(a) + ps
  {
    if |ps| == 0 {
      assert a + "" == a;
    } else {
      assert ps[|ps| - 1] in ps;
      DownOnce(a, ps);
      GoingDown(a, ps[..|ps| - 1]);
      SegmentIsAdded(a + Down(ps[..|ps| - 1]), ps[|ps| - 1]);
      LastAdded(Segments(a), ps);
    }
  }

  lemma UpOnce(a: string, n: nat)
    requires n > 0
    ensures a + Up(n) == a + Up(n - 1) + "/.."
  {
    Reassociate(a, Up(n - 1), "/..");
  }

  lemma OneUp(a: string)
    ensures Segments(a + "/..") == if Segments(a) == [] then [] else Segments(a)[..|Segments(a)| - 1]
  {
    assert a + "/" + ".." == a + "/..";
    SegmentsEnd(a, "..");
  }

  /** All but the last n, or nothing. */
  function Without(segments: seq<string>, n: nat): seq<string> {
    if n <= |segments| then segments[..|segments| - n] else []
  }

  lemma OneLess(segments: seq<string>, n: nat)
    requires n > 0
    ensures Without(segments, n) == Without(Without(segments, n - 1), 1)
  {
  }

  /** Going up takes back as many segments as there are, and stays at the root. */
  lemma {:induction false} GoingUp(a: string, n: nat)
    ensures Segments(a + Up(n)) == Without(Segments(a), n)
  {
    if n == 0 {
      assert a + "" == a;
    } else {
      GoingUp(a, n - 1);
      UpOnce(a, n);
      OneUp(a + Up(n - 1));
      OneLess(Segments(a), n);
    }
  }

  // --------------------------------------------------------------- what is refused

  predicate Operated(name: string) { Lower(name) == "ops" || Lower(name) == "metrics" }

  /** The first segment names an operator route, in any case of letters. */
  predicate ForOperators(segments: seq<string>) { |segments| > 0 && Operated(segments[0]) }

  lemma {:induction false} LoneName(parts: seq<string>, name: string)
    requires CleanSegments(parts) && '/' !in name
    ensures Join(parts, '/') == name <==> (parts == [name] || (parts == [] && name == ""))
  {
    if |parts| > 0 && Join(parts, '/') == name {
      assert forall p :: p in parts ==> CleanSegment(p);
      SplitJoin(parts, '/');
      SplitJoin([name], '/');
      assert Join([name], '/') == name;
    }
  }

  lemma LeadingName(parts: seq<string>, name: string)
    requires CleanSegments(parts) && '/' !in name
    ensures name + "/" <= Join(parts, '/') <==> |parts| > 1 && parts[0] == name
  {
    var joined := Join(parts, '/');
    if name + "/" <= joined {
      var tail := joined[|name| + 1..];
      assert joined == name + "/" + tail;
      if |parts| > 0 {
        assert forall p :: p in parts ==> CleanSegment(p);
        SplitJoin(parts, '/');
        SplitAppend(name, tail);
        SplitJoin([name], '/');
        assert Join([name], '/') == name;
        assert parts == [name] + Split(tail, '/');
      }
    }
    if |parts| > 1 && parts[0] == name { assert joined == name + "/" + Join(parts[1..], '/'); }
  }

  /** The routes under a name: that name itself, and everything behind it. */
  lemma RoutesUnder(parts: seq<string>, name: string)
    requires CleanSegments(parts) && name != "" && '/' !in name
    ensures var path := "/" + Join(parts, '/');
            path == "/" + name || "/" + (name + "/") <= path <==> |parts| > 0 && parts[0] == name
  {
    var joined := Join(parts, '/');
    assert ("/" + joined)[1..] == joined && ("/" + name)[1..] == name;
    PrefixAfterSlash(name + "/", joined);
    LoneName(parts, name);
    LeadingName(parts, name);
    if |parts| == 1 { assert parts == [parts[0]]; }
  }

  lemma GuardedIff(parts: seq<string>)
    requires CleanSegments(parts)
    ensures Guarded("/" + Join(parts, '/')) <==> |parts| > 0 && (parts[0] == "ops" || parts[0] == "metrics")
  {
    RoutesUnder(parts, "ops");
    RoutesUnder(parts, "metrics");
    RouteNames();
  }

  lemma RouteNames()
    ensures "/" + "ops" == "/ops" && "/" + ("ops" + "/") == "/ops/"
    ensures "/" + "metrics" == "/metrics" && "/" + ("metrics" + "/") == "/metrics/"
  {
  }

  lemma PrefixAfterSlash(a: string, b: string)
    ensures "/" + a <= "/" + b <==> a <= b
  {
    var x, y := "/" + a, "/" + b;
    if x <= y { assert a == x[1..] == y[1..|x|] == b[..|a|]; }
    if a <= b { assert y[..|x|] == "/" + b[..|a|]; }
  }

  /** Exactly when a path is let through, for segments in ASCII: it decodes to a fixed
      text without control characters, and does not lead to an operator route. Both
      implementations are the case of their own decoder. */
  lemma AllowedIff(r: Runtime, decode: Decoder, s: string)
    requires Lawful(r)
    requires var v := Stabilize(decode, s, 8); v.Some? ==> forall p :: p in Segments(v.value) ==> Ascii(p)
    ensures Allowed(Normal(r, decode, s))
            <==> var v := Stabilize(decode, s, 8);
                 v.Some? && (forall i | 0 <= i < |v.value| :: v.value[i] as int >= 32) && !ForOperators(Segments(v.value))
  {
    var v := Stabilize(decode, s, 8);
    if v.Some? { FormIsGuardedIff(r, v.value); }
  }

  lemma FormIsGuardedIff(r: Runtime, value: string)
    requires Lawful(r) && forall p :: p in Segments(value) ==> Ascii(p)
    ensures Guarded("/" + r.fold(Join(Segments(value), '/'))) <==> ForOperators(Segments(value))
  {
    var parts := Segments(value);
    SegmentsAreClean(value);
    AsciiJoin(parts);
    LowerJoin(parts);
    LowerKeepsClean(parts);
    GuardedIff(LowerAll(parts));
  }

  lemma {:induction false} AsciiJoin(parts: seq<string>)
    requires forall p :: p in parts ==> Ascii(p)
    ensures Ascii(Join(parts, '/'))
  {
    if |parts| > 0 { assert parts[0] in parts; }
    if |parts| > 1 { AsciiJoin(parts[1..]); }
  }

  /** However a path gets to the root, down any segments and up again, nothing that
      then leads to an operator route is let through, whatever the decoder. */
  lemma ClimbsAreRefused(r: Runtime, decode: Decoder, s: string, ps: seq<string>, n: nat, name: string, ts: seq<string>)
    requires Lawful(r) && CleanSegments(ps) && |ps| <= n && CleanSegment(name) && Operated(name) && CleanSegments(ts)
    requires Ascii(name) && forall p :: p in ts ==> Ascii(p)
    requires Stabilize(decode, s, 8) == Some(Down(ps) + Up(n) + "/" + name + Down(ts))
    ensures !Allowed(Normal(r, decode, s))
  {
    ClimbLeads(ps, n, name, ts);
    AllowedIff(r, decode, s);
  }

  lemma ClimbLeads(ps: seq<string>, n: nat, name: string, ts: seq<string>)
    requires CleanSegments(ps) && |ps| <= n && CleanSegment(name) && CleanSegments(ts)
    ensures Segments(Down(ps) + Up(n) + "/" + name + Down(ts)) == [name] + ts
  {
    FromRoot(ps);
    GoingUp(Down(ps), n);
    var top := Down(ps) + Up(n);
    SegmentIsAdded(top, name);
    GoingDown(top + "/" + name, ts);
  }

  lemma FromRoot(ps: seq<string>)
    requires CleanSegments(ps)
    ensures Segments(Down(ps)) == ps
  {
    BackslashSeparates("", "");
    assert "" + Down(ps) == Down(ps);
    GoingDown("", ps);
    assert [] + ps == ps;
  }

  /** Written plainly or in any layers of encoding, an ASCII path that climbs to an
      operator route is refused by both implementations. */
  lemma EncodedClimbsAreRefused(js: Runtime, py: Runtime, ps: seq<string>, n: nat, name: string, ts: seq<string>, masks: seq<seq<bool>>)
    requires Lawful(js) && Lawful(py) && js.utf8 == py.utf8
    requires CleanSegments(ps) && |ps| <= n && CleanSegment(name) && Operated(name) && CleanSegments(ts)
    requires Ascii(name) && forall p :: p in ts ==> Ascii(p)
    requires var path := Down(ps) + Up(n) + "/" + name + Down(ts); Ascii(path) && EscapeFree(path)
    ensures var sent := EncodeLayers(Down(ps) + Up(n) + "/" + name + Down(ts), masks);
            !Allowed(Canonical(py, sent)) && !Allowed(CanonicalTs(js, sent))
  {
    var path := Down(ps) + Up(n) + "/" + name + Down(ts);
    AsciiFixedPoint(py, path);
    ClimbsAreRefused(py, Python(py), path, ps, n, name, ts);
    if Allowed(Canonical(py, EncodeLayers(path, masks))) { EncodedPathIsAllowedOnlyIfPathIs(py, path, masks); }
    if Allowed(CanonicalTs(js, EncodeLayers(path, masks))) { TypeScriptReadsThePath(js, py, path, masks); }
  }

  /** What TypeScript makes of an encoded path is what Python makes of it: the path. */
  lemma TypeScriptReadsThePath(js: Runtime, py: Runtime, path: string, masks: seq<seq<bool>>)
    requires Lawful(js) && Lawful(py) && js.utf8 == py.utf8 && Ascii(path) && EscapeFree(path)
    requires Allowed(CanonicalTs(js, EncodeLayers(path, masks)))
    ensures Allowed(Canonical(py, EncodeLayers(path, masks)))
  {
    var sent := EncodeLayers(path, masks);
    StricterDecoder(js, sent, ROUNDS);
    SameUnquote(js, py, sent, ROUNDS);
    var layers := LayersDecode(py, path, masks);
    LayersStabilizeAlike(Python(py), sent, path, layers);
    AsciiFixedPoint(py, path);
    assert Stabilize(Python(py), path, ROUNDS) == Some(path);
    TypeScriptAllowsNoMore(js, py, sent);
  }

  // -------------------------------------------------------------------- depth of layers

  /** `outer` decodes to the fixed text `inner` in exactly so many rounds, each of which
      changes it. */
  predicate Wrapped(decode: Decoder, outer: string, inner: string, layers: nat)
    decreases layers
  {
    if layers == 0 then outer == inner && decode(inner) == Some(inner)
    else decode(outer).Some? && decode(outer).value != outer && Wrapped(decode, decode(outer).value, inner, layers - 1)
  }

  /** Up to seven layers come off; with eight or more the path is refused. */
  lemma SevenLayersComeOff(r: Runtime, decode: Decoder, outer: string, inner: string, layers: nat)
    requires Wrapped(decode, outer, inner, layers)
    ensures Normal(r, decode, outer) == if layers <= 7 then Normal(r, decode, inner) else None
  {
    LayersComeOff(decode, outer, inner, layers, 8);
    LayersComeOff(decode, inner, inner, 0, 8) by { WrappedIsFixed(decode, outer, inner, layers); }
  }

  lemma {:induction false} WrappedIsFixed(decode: Decoder, outer: string, inner: string, layers: nat)
    requires Wrapped(decode, outer, inner, layers)
    ensures decode(inner) == Some(inner)
    decreases layers
  {
    if layers > 0 { WrappedIsFixed(decode, decode(outer).value, inner, layers - 1); }
  }

  lemma {:induction false} LayersComeOff(decode: Decoder, outer: string, inner: string, layers: nat, rounds: nat)
    requires Wrapped(decode, outer, inner, layers)
    ensures Stabilize(decode, outer, rounds) == if layers < rounds then Some(inner) else None
    decreases layers
  {
    if layers > 0 && rounds > 0 { LayersComeOff(decode, decode(outer).value, inner, layers - 1, rounds - 1); }
  }

  /** The character is this hexadecimal digit, in either case. */
  predicate IsDigit(c: char, v: nat) {
    || (v < 10 && c as int == '0' as int + v)
    || (10 <= v < 16 && (c as int == 'a' as int + v - 10 || c as int == 'A' as int + v - 10))
  }

  /** An escape stands for the byte its two digits name. */
  lemma EscapesName(c: char, d: char, high: nat, low: nat, rest: string)
    requires IsDigit(c, high) && IsDigit(d, low) && Ascii(rest)
    ensures RunBytes(['%', c, d] + rest) == [16 * high + low] + RunBytes(rest)
  {
    var s := ['%', c, d] + rest;
    assert s[3..] == rest && EscapeAt(s, 0);
  }
}
