/** Usage counting over a provider's event stream, fed in arbitrary chunks, against
    one parse of the whole stream (app/streaming.py). Lines end with LF, as in
    section 9.2 of the WHATWG HTML Living Standard. */
module Streaming {
  import opened Schema
  import opened Json
  import opened Text

  const LF: byte := 10
  const CR: byte := 13
  const DATA: Bytes := [100, 97, 116, 97, 58]         // "data:"
  const DONE: Bytes := [91, 68, 79, 78, 69, 93]       // "[DONE]"
  const LINE_LIMIT: nat := 1024 * 1024

  predicate IsSpace(b: byte) { b == 32 || 9 <= b <= 13 }

  function RightStrip(s: Bytes, drop: byte -> bool): Bytes {
    if |s| > 0 && drop(s[|s| - 1]) then RightStrip(s[..|s| - 1], drop) else s
  }

  function LeftStrip(s: Bytes, drop: byte -> bool): Bytes {
    if |s| > 0 && drop(s[0]) then LeftStrip(s[1..], drop) else s
  }

  function Strip(s: Bytes): Bytes { LeftStrip(RightStrip(s, (b: byte) => IsSpace(b)), (b: byte) => IsSpace(b)) }

  function RightStripCr(s: Bytes): Bytes { RightStrip(s, (b: byte) => b == CR) }

  // -------------------------------------------------------------------- counters

  datatype StreamError = StreamTooLarge | LineTooLarge | InvalidJson | InvalidEvent

  datatype Counters = Counters(characters: nat, prompt: Option<nat>, completion: Option<nat>, done: bool)

  const ZERO := Counters(0, None, None, false)

  /** Counters so far, and what stopped the count, if anything did. */
  datatype Tally = Tally(counters: Counters, error: Option<StreamError>)

  /** `json.loads`, `None` where it raises. */
  type Parser = Bytes -> Option<Json>

  function TextLength(v: Json): nat { if v.JString? then |v.s| else 0 }

  function FieldOf(v: Json, name: string): Json { if v.JObject? then Get(v.fields, name) else JNull }

  function CallCharacters(calls: seq<Json>): nat {
    if |calls| == 0 then 0
    else CallCharacters(calls[..|calls| - 1]) + TextLength(FieldOf(FieldOf(calls[|calls| - 1], "function"), "arguments"))
  }

  function DeltaCharacters(delta: Json): nat {
    var calls := FieldOf(delta, "tool_calls");
    TextLength(FieldOf(delta, "content")) + if calls.JList? then CallCharacters(calls.items) else 0
  }

  function ChoiceCharacters(choices: seq<Json>): nat {
    if |choices| == 0 then 0
    else ChoiceCharacters(choices[..|choices| - 1]) + DeltaCharacters(FieldOf(choices[|choices| - 1], "delta"))
  }

  function CountEvent(c: Counters, event: Object): Counters {
    var usage, choices := Get(event, "usage"), Get(event, "choices");
    var prompt := if usage.JObject? then Count(GetEither(usage.fields, "prompt_tokens", "input_tokens")) else None;
    var completion := if usage.JObject? then Count(GetEither(usage.fields, "completion_tokens", "output_tokens")) else None;
    Counters(c.characters + (if choices.JList? then ChoiceCharacters(choices.items) else 0),
             if prompt.Some? then prompt else c.prompt,
             if completion.Some? then completion else c.completion,
             c.done)
  }

  /** `_parse_line`. */
  function CountLine(parse: Parser, c: Counters, line: Bytes): Tally {
    if !(DATA <= line) then Tally(c, None)
    else
      var data := Strip(line[5..]);
      if data == DONE then Tally(c.(done := true), None)
      else if data == [] then Tally(c, None)
      else
        match parse(data)
        case None => Tally(c, Some(InvalidJson))
        case Some(event) => if event.JObject? then Tally(CountEvent(c, event.fields), None) else Tally(c, Some(InvalidEvent))
  }

  /** Lines in order, up to the first that fails. */
  function CountLines(parse: Parser, c: Counters, lines: seq<Bytes>): Tally
    decreases |lines|
  {
    if |lines| == 0 then Tally(c, None)
    else
      var first := CountLine(parse, c, RightStripCr(lines[0]));
      if first.error.Some? then first else CountLines(parse, first.counters, lines[1..])
  }

  lemma {:induction false} CountLinesConcat(parse: Parser, c: Counters, a: seq<Bytes>, b: seq<Bytes>)
    ensures var first := CountLines(parse, c, a);
            CountLines(parse, c, a + b) == if first.error.Some? then first else CountLines(parse, first.counters, b)
    decreases |a|
  {
    if |a| == 0 {
      assert a + b == b;
    } else {
      assert (a + b)[0] == a[0] && (a + b)[1..] == a[1..] + b;
      CountLinesConcat(parse, CountLine(parse, c, RightStripCr(a[0])).counters, a[1..], b);
    }
  }

  // ---------------------------------------------------------------- splitting at LF

  /** The LF-terminated lines of a stream, without their LF. */
  function CompleteLines(s: Bytes): seq<Bytes>
    decreases |s|
  {
    match First(s, LF)
    case None => []
    case Some(k) => [s[..k]] + CompleteLines(s[k + 1..])
  }

  /** What follows the last LF. */
  function Rest(s: Bytes): (tail: Bytes)
    ensures LF !in tail
    decreases |s|
  {
    match First(s, LF)
    case None => s
    case Some(k) => Rest(s[k + 1..])
  }

  /** A terminated line at the front of a stream. */
  lemma LeadingLine(line: Bytes, s: Bytes)
    requires LF !in line
    ensures CompleteLines(line + [LF] + s) == [line] + CompleteLines(s) && Rest(line + [LF] + s) == Rest(s)
  {
    var whole := line + [LF] + s;
    assert whole[..|line|] == line && whole[|line| + 1..] == s && whole[|line|] == LF;
    FirstIs(whole, LF, |line|);
  }

  /** Reading on after a cut is reading on from the unfinished line. */
  lemma {:induction false} CutAnywhere(s: Bytes, more: Bytes)
    ensures CompleteLines(s + more) == CompleteLines(s) + CompleteLines(Rest(s) + more)
    ensures Rest(s + more) == Rest(Rest(s) + more)
    decreases |s|
  {
    match First(s, LF)
    case None =>
      assert CompleteLines(s) == [] && Rest(s) == s;
    case Some(k) =>
      CutAnywhere(s[k + 1..], more);
      CutAfterLine(s[..k], s[k + 1..], more);
      Reassembled(s, k);
  }

  lemma Reassembled(s: Bytes, k: nat)
    requires k < |s| && s[k] == LF
    ensures s[..k] + [LF] + s[k + 1..] == s
  {
  }

  lemma CutAfterLine(line: Bytes, later: Bytes, more: Bytes)
    requires LF !in line
    requires CompleteLines(later + more) == CompleteLines(later) + CompleteLines(Rest(later) + more)
    requires Rest(later + more) == Rest(Rest(later) + more)
    ensures var s := line + [LF] + later;
            && CompleteLines(s + more) == CompleteLines(s) + CompleteLines(Rest(s) + more)
            && Rest(s + more) == Rest(Rest(s) + more)
  {
    Regroup(line, [LF], later, more);
    LeadingLine(line, later);
    LeadingLine(line, later + more);
    Associate([line], CompleteLines(later), CompleteLines(Rest(later) + more));
  }

  lemma Regroup(a: Bytes, b: Bytes, c: Bytes, d: Bytes)
    ensures a + b + c + d == a + b + (c + d)
  {
  }

  lemma Associate<T>(a: seq<T>, b: seq<T>, c: seq<T>)
    ensures a + (b + c) == a + b + c
  {
  }

  // ------------------------------------------------------- the batch specification

  /** One parse of a whole stream: its lines, then an unfinished one that is not blank. */
  function Batch(parse: Parser, stream: Bytes): Tally {
    var t := CountLines(parse, ZERO, CompleteLines(stream));
    var tail := Rest(stream);
    if t.error.Some? || Strip(tail) == [] then t else CountLine(parse, t.counters, RightStripCr(tail))
  }

  function Concat(chunks: seq<Bytes>): Bytes {
    if |chunks| == 0 then [] else Concat(chunks[..|chunks| - 1]) + chunks[|chunks| - 1]
  }

  // ------------------------------------------------------------------- the tracker

  datatype Tracker = Tracker(total: nat, counters: Counters, buffer: Bytes)

  const NEW := Tracker(0, ZERO, [])

  datatype Fed = Fed(tracker: Tracker, error: Option<StreamError>)

  /** `feed`; after an error nobody feeds the tracker again. */
  function FeedOne(parse: Parser, t: Tracker, chunk: Bytes, maxBytes: nat): Fed {
    var total := t.total + |chunk|;
    var buffer := t.buffer + chunk;
    if total > maxBytes then Fed(t.(total := total), Some(StreamTooLarge))
    else if |buffer| > LINE_LIMIT && LF !in buffer then Fed(Tracker(total, t.counters, buffer), Some(LineTooLarge))
    else
      var counted := CountLines(parse, t.counters, CompleteLines(buffer));
      Fed(Tracker(total, counted.counters, if counted.error.Some? then [] else Rest(buffer)), counted.error)
  }

  function FeedAll(parse: Parser, chunks: seq<Bytes>, maxBytes: nat): Fed {
    if |chunks| == 0 then Fed(NEW, None)
    else
      var before := FeedAll(parse, chunks[..|chunks| - 1], maxBytes);
      if before.error.Some? then before else FeedOne(parse, before.tracker, chunks[|chunks| - 1], maxBytes)
  }

  /** Every chunk fed, then `finish`, or the first error. */
  function Tracked(parse: Parser, chunks: seq<Bytes>, maxBytes: nat): Tally {
    var fed := FeedAll(parse, chunks, maxBytes);
    if fed.error.Some? || Strip(fed.tracker.buffer) == [] then Tally(fed.tracker.counters, fed.error)
    else CountLine(parse, fed.tracker.counters, RightStripCr(fed.tracker.buffer))
  }

  /** Every line of the stream, finished or not, has at most 1 MiB. */
  ghost predicate ShortLines(stream: Bytes) {
    (forall line :: line in CompleteLines(stream) ==> |line| <= LINE_LIMIT) && |Rest(stream)| <= LINE_LIMIT
  }

  lemma {:induction false} ShortPrefix(s: Bytes, more: Bytes)
    requires ShortLines(s + more)
    ensures ShortLines(s) && (LF !in Rest(s) + more ==> |Rest(s) + more| <= LINE_LIMIT)
  {
    CutAnywhere(s, more);
    var on := Rest(s) + more;
    forall line | line in CompleteLines(s) ensures |line| <= LINE_LIMIT {
      assert line in CompleteLines(s + more);
    }
    if LF in on {
      var k := First(on, LF).value;
      assert on[..k] in CompleteLines(on);
      assert on[..k] in CompleteLines(s + more);
      assert forall i | 0 <= i < |Rest(s)| :: on[i] == Rest(s)[i] && on[i] != LF;
    } else {
      assert First(on, LF).None?;
    }
  }

  /** After every chunk the buffer is the unfinished line, and the counters are those
      of the finished lines, until the first line that fails. */
  lemma {:induction false} FedSoFar(parse: Parser, chunks: seq<Bytes>, maxBytes: nat)
    requires ShortLines(Concat(chunks)) && |Concat(chunks)| <= maxBytes
    ensures var fed := FeedAll(parse, chunks, maxBytes); var counted := CountLines(parse, ZERO, CompleteLines(Concat(chunks)));
            && fed.error == counted.error && fed.tracker.counters == counted.counters
            && (fed.error.None? ==> fed.tracker.buffer == Rest(Concat(chunks)) && fed.tracker.total == |Concat(chunks)|)
  {
    if |chunks| > 0 {
      var init, last := chunks[..|chunks| - 1], chunks[|chunks| - 1];
      var s := Concat(init);
      ShortPrefix(s, last);
      FedSoFar(parse, init, maxBytes);
      CutAnywhere(s, last);
      CountLinesConcat(parse, ZERO, CompleteLines(s), CompleteLines(Rest(s) + last));
    }
  }

  /** However a stream with short lines is cut into chunks, feeding them and
      finishing ends in the same counters, or fails alike, as one parse of it. */
  lemma ChunkingDoesNotMatter(parse: Parser, chunks: seq<Bytes>, maxBytes: nat)
    requires ShortLines(Concat(chunks)) && |Concat(chunks)| <= maxBytes
    ensures Tracked(parse, chunks, maxBytes) == Batch(parse, Concat(chunks))
  {
    FedSoFar(parse, chunks, maxBytes);
  }

  /** Beyond the total limit no chunking is accepted. */
  lemma {:induction false} TooManyBytesFail(parse: Parser, chunks: seq<Bytes>, maxBytes: nat)
    ensures FeedAll(parse, chunks, maxBytes).error.None? ==>
              |Concat(chunks)| <= maxBytes && FeedAll(parse, chunks, maxBytes).tracker.total == |Concat(chunks)|
  {
    if |chunks| > 0 { TooManyBytesFail(parse, chunks[..|chunks| - 1], maxBytes); }
  }

  // --------------------------------------- lines beyond the limit do depend on chunks

  function Singles(s: Bytes): seq<Bytes> {
    if |s| == 0 then [] else Singles(s[..|s| - 1]) + [[s[|s| - 1]]]
  }

  lemma {:induction false} SinglesConcat(s: Bytes)
    ensures Concat(Singles(s)) == s
  {
    if |s| > 0 {
      SinglesConcat(s[..|s| - 1]);
      assert s == s[..|s| - 1] + [s[|s| - 1]];
    }
  }

  /** The finished lines of a stream can be counted one byte at a time. */
  ghost predicate CountedLines(parse: Parser, before: Bytes) {
    ShortLines(before) && Rest(before) == [] && CountLines(parse, ZERO, CompleteLines(before)).error.None?
  }

  function CountersOf(parse: Parser, before: Bytes): Counters { CountLines(parse, ZERO, CompleteLines(before)).counters }

  /** Byte by byte an unfinished line is kept while it is short and refused after that. */
  lemma {:induction false} LongLineGrows(parse: Parser, before: Bytes, part: Bytes, maxBytes: nat)
    requires CountedLines(parse, before) && LF !in part && |before + part| <= maxBytes
    ensures var fed := FeedAll(parse, Singles(before + part), maxBytes);
            if |part| <= LINE_LIMIT then fed == Fed(Tracker(|before + part|, CountersOf(parse, before), part), None)
            else fed.error == Some(LineTooLarge)
    decreases |part|
  {
    if |part| > 0 {
      var init, last := part[..|part| - 1], part[|part| - 1];
      assert part == init + [last] && before + part == before + init + [last];
      LongLineGrows(parse, before, init, maxBytes);
      OneByteFed(parse, before + init, last, maxBytes);
      if |init| <= LINE_LIMIT {
        NoLfFed(parse, Tracker(|before + init|, CountersOf(parse, before), init), last, maxBytes);
      }
    } else {
      LinesFed(parse, before, maxBytes);
      assert before + part == before;
    }
  }

  lemma LinesFed(parse: Parser, before: Bytes, maxBytes: nat)
    requires CountedLines(parse, before) && |before| <= maxBytes
    ensures FeedAll(parse, Singles(before), maxBytes) == Fed(Tracker(|before|, CountersOf(parse, before), []), None)
  {
    SinglesConcat(before);
    FedSoFar(parse, Singles(before), maxBytes);
  }

  /** One more byte on its own. */
  lemma OneByteFed(parse: Parser, s: Bytes, b: byte, maxBytes: nat)
    ensures var fed := FeedAll(parse, Singles(s), maxBytes);
            FeedAll(parse, Singles(s + [b]), maxBytes)
            == if fed.error.Some? then fed else FeedOne(parse, fed.tracker, [b], maxBytes)
  {
    OneMore(s, b);
  }

  lemma OneMore(s: Bytes, b: byte)
    ensures Singles(s + [b]) == Singles(s) + [[b]] && (Singles(s) + [[b]])[..|Singles(s)|] == Singles(s)
  {
    assert (s + [b])[..|s|] == s;
  }

  lemma NoLfFed(parse: Parser, t: Tracker, last: byte, maxBytes: nat)
    requires LF !in t.buffer + [last] && t.total < maxBytes
    ensures FeedOne(parse, t, [last], maxBytes)
            == Fed(Tracker(t.total + 1, t.counters, t.buffer + [last]),
                   if |t.buffer| + 1 > LINE_LIMIT then Some(LineTooLarge) else None)
  {
    assert First(t.buffer + [last], LF).None?;
  }

  /** Once refused, refused for good. */
  lemma {:induction false} RefusedStays(parse: Parser, s: Bytes, rest: Bytes, maxBytes: nat)
    requires FeedAll(parse, Singles(s), maxBytes).error == Some(LineTooLarge)
    ensures FeedAll(parse, Singles(s + rest), maxBytes).error == Some(LineTooLarge)
    decreases |rest|
  {
    if |rest| > 0 {
      RefusedStays(parse, s, rest[..|rest| - 1], maxBytes);
      OneByteFed(parse, s + rest[..|rest| - 1], rest[|rest| - 1], maxBytes);
      assert s + rest == s + rest[..|rest| - 1] + [rest[|rest| - 1]];
    } else {
      assert s + rest == s;
    }
  }

  /** The 1 MiB condition cannot be dropped: with any longer line, finished or not,
      after lines that are counted, the outcome depends on the chunks. Byte by byte
      the stream is refused for that line; in one piece, if there is a line break in
      it at all, it never is. */
  lemma LongLinesDependOnChunks(parse: Parser, before: Bytes, line: Bytes, rest: Bytes, maxBytes: nat)
    requires CountedLines(parse, before) && LF !in line && |line| > 1_048_576
    requires rest == [] || rest[0] == LF
    requires |before + line + rest| <= maxBytes
    ensures var s := before + line + rest;
            && Concat(Singles(s)) == Concat([s]) == s
            && Tracked(parse, Singles(s), maxBytes).error == Some(LineTooLarge)
            && (LF in s ==> Tracked(parse, [s], maxBytes).error != Some(LineTooLarge))
  {
    var s := before + line + rest;
    SinglesConcat(s);
    LongLineGrows(parse, before, line, maxBytes);
    RefusedStays(parse, before + line, rest, maxBytes);
    OneChunk(s);
    if LF in s { OnePiece(parse, s, maxBytes); }
  }

  lemma OneChunk(s: Bytes)
    ensures Concat([s]) == s
  {
    assert [s][..0] == [] && [] + s == s;
  }

  lemma OnePiece(parse: Parser, s: Bytes, maxBytes: nat)
    requires LF in s
    ensures Tracked(parse, [s], maxBytes).error != Some(LineTooLarge)
  {
    assert [s][..0] == [] && [] + s == s;
    NeverTooLarge(parse, ZERO, CompleteLines(s));
    assert FeedAll(parse, [s], maxBytes) == FeedOne(parse, NEW, s, maxBytes);
  }

  /** Without any line break a longer stream is refused in every chunking. */
  lemma {:induction false} NoLineBreakIsRefused(parse: Parser, chunks: seq<Bytes>, maxBytes: nat)
    requires LF !in Concat(chunks) && |Concat(chunks)| <= maxBytes
    ensures var s := Concat(chunks); var fed := FeedAll(parse, chunks, maxBytes);
            if |s| <= 1_048_576 then fed == Fed(Tracker(|s|, ZERO, s), None) else fed.error == Some(LineTooLarge)
  {
    if |chunks| > 0 {
      var init := chunks[..|chunks| - 1];
      NoLineBreakIsRefused(parse, init, maxBytes);
      assert First(Concat(chunks), LF).None?;
    }
  }

  lemma {:induction false} NeverTooLarge(parse: Parser, c: Counters, lines: seq<Bytes>)
    ensures CountLines(parse, c, lines).error != Some(LineTooLarge)
    decreases |lines|
  {
    if |lines| > 0 { NeverTooLarge(parse, CountLine(parse, c, RightStripCr(lines[0])).counters, lines[1..]); }
  }

  // --------------------------------------------------------- the tracker as it runs

  class SSEUsageTracker {
    const parse: Parser
    const maxBytes: nat
    var totalBytes: nat
    var outputCharacters: nat
    var promptTokens: Option<nat>
    var completionTokens: Option<nat>
    var done: bool
    var buffer: Bytes

    function Seen(): Counters
      reads this
    {
      Counters(outputCharacters, promptTokens, completionTokens, done)
    }

    function State(): Tracker
      reads this
    {
      Tracker(totalBytes, Seen(), buffer)
    }

    constructor (parse: Parser, maxBytes: nat)
      ensures this.parse == parse && this.maxBytes == maxBytes && State() == NEW
    {
      this.parse, this.maxBytes := parse, maxBytes;
      totalBytes, outputCharacters, promptTokens, completionTokens, done, buffer := 0, 0, None, None, false, [];
    }

    /** `feed`. */
    method Feed(chunk: Bytes) returns (error: Option<StreamError>)
      modifies this
      ensures error == FeedOne(parse, old(State()), chunk, maxBytes).error
      ensures Seen() == FeedOne(parse, old(State()), chunk, maxBytes).tracker.counters
      ensures error.None? ==> State() == FeedOne(parse, old(State()), chunk, maxBytes).tracker
    {
      totalBytes := totalBytes + |chunk|;
      if totalBytes > maxBytes { return Some(StreamTooLarge); }
      buffer := buffer + chunk;
      if |buffer| > LINE_LIMIT && LF !in buffer { return Some(LineTooLarge); }
      ghost var all, counters := buffer, Seen();
      while LF in buffer
        invariant totalBytes == old(totalBytes) + |chunk|
        invariant Rest(buffer) == Rest(all)
        invariant CountLines(parse, counters, CompleteLines(all)) == CountLines(parse, Seen(), CompleteLines(buffer))
        decreases |buffer|
      {
        var k := First(buffer, LF).value;
        var line := buffer[..k];
        buffer := buffer[k + 1..];
        error := ParseLine(RightStripCr(line));
        if error.Some? { return; }
      }
      assert First(buffer, LF).None?;
      error := None;
    }

    /** `finish`. */
    method Finish() returns (error: Option<StreamError>)
      modifies this
      ensures Tally(Seen(), error) == if Strip(old(buffer)) == [] then Tally(old(Seen()), None)
                                      else CountLine(parse, old(Seen()), RightStripCr(old(buffer)))
      ensures error.None? ==> buffer == []
    {
      error := None;
      if Strip(buffer) != [] {
        error := ParseLine(RightStripCr(buffer));
        if error.Some? { return; }
      }
      buffer := [];
    }

    /** `_parse_line`. */
    method ParseLine(line: Bytes) returns (error: Option<StreamError>)
      modifies this
      ensures Tally(Seen(), error) == CountLine(parse, old(Seen()), line)
      ensures totalBytes == old(totalBytes) && buffer == old(buffer)
    {
      if !(DATA <= line) { return None; }
      var data := Strip(line[5..]);
      if data == DONE {
        done := true;
        return None;
      }
      if data == [] { return None; }
      var event := parse(data);
      if event.None? { return Some(InvalidJson); }
      if !event.value.JObject? { return Some(InvalidEvent); }
      var usage := Get(event.value.fields, "usage");
      if usage.JObject? {
        var prompt := Count(GetEither(usage.fields, "prompt_tokens", "input_tokens"));
        var completion := Count(GetEither(usage.fields, "completion_tokens", "output_tokens"));
        if prompt.Some? { promptTokens := prompt; }
        if completion.Some? { completionTokens := completion; }
      }
      var choices := Get(event.value.fields, "choices");
      if choices.JList? { CountChoices(choices.items); }
      error := None;
    }

    /** The loop over an event's choices, and the one over their tool calls. */
    method CountChoices(choices: seq<Json>)
      modifies `outputCharacters
      ensures outputCharacters == old(outputCharacters) + ChoiceCharacters(choices)
    {
      for i := 0 to |choices|
        invariant outputCharacters == old(outputCharacters) + ChoiceCharacters(choices[..i])
      {
        assert choices[..i + 1][..i] == choices[..i];
        if !choices[i].JObject? { continue; }
        var delta := Get(choices[i].fields, "delta");
        if !delta.JObject? { continue; }
        var content := Get(delta.fields, "content");
        if content.JString? { outputCharacters := outputCharacters + |content.s|; }
        var toolCalls := Get(delta.fields, "tool_calls");
        if toolCalls.JList? {
          ghost var before := outputCharacters;
          for j := 0 to |toolCalls.items|
            invariant outputCharacters == before + CallCharacters(toolCalls.items[..j])
          {
            assert toolCalls.items[..j + 1][..j] == toolCalls.items[..j];
            var function_ := FieldOf(toolCalls.items[j], "function");
            var arguments := FieldOf(function_, "arguments");
            if arguments.JString? { outputCharacters := outputCharacters + |arguments.s|; }
          }
          assert toolCalls.items[..|toolCalls.items|] == toolCalls.items;
        }
      }
      assert choices[..|choices|] == choices;
    }

    /** Feed chunk after chunk, up to the first error. */
    method Receive(chunks: seq<Bytes>) returns (error: Option<StreamError>)
      requires State() == NEW
      modifies this
      ensures var fed := FeedAll(parse, chunks, maxBytes);
              error == fed.error && Seen() == fed.tracker.counters && (error.None? ==> State() == fed.tracker)
    {
      for i := 0 to |chunks|
        invariant Fed(State(), None) == FeedAll(parse, chunks[..i], maxBytes)
      {
        assert chunks[..i + 1][..i] == chunks[..i];
        error := Feed(chunks[i]);
        if error.Some? {
          StaysFailed(parse, chunks, i + 1, maxBytes);
          return;
        }
      }
      assert chunks[..|chunks|] == chunks;
      error := None;
    }

    /** What `forward_stream` does with a stream: every chunk, then `finish`. */
    method Consume(chunks: seq<Bytes>) returns (error: Option<StreamError>)
      requires State() == NEW
      modifies this
      ensures Tally(Seen(), error) == Tracked(parse, chunks, maxBytes)
      ensures ShortLines(Concat(chunks)) && |Concat(chunks)| <= maxBytes ==>
                Tally(Seen(), error) == Batch(parse, Concat(chunks))
    {
      if ShortLines(Concat(chunks)) && |Concat(chunks)| <= maxBytes { ChunkingDoesNotMatter(parse, chunks, maxBytes); }
      error := Receive(chunks);
      if error.None? { error := Finish(); }
    }
  }

  lemma {:induction false} StaysFailed(parse: Parser, chunks: seq<Bytes>, i: nat, maxBytes: nat)
    requires i <= |chunks| && FeedAll(parse, chunks[..i], maxBytes).error.Some?
    ensures FeedAll(parse, chunks, maxBytes) == FeedAll(parse, chunks[..i], maxBytes)
    decreases |chunks| - i
  {
    if i < |chunks| {
      assert chunks[..i + 1][..i] == chunks[..i];
      StaysFailed(parse, chunks, i + 1, maxBytes);
    } else {
      assert chunks[..i] == chunks;
    }
  }
}
