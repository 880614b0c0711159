/** Printing a finished response as an event stream, and what the tracker makes of
    the print (app/streaming.py, `_usage_from_response` of
    app/services/gateway_billing.py). */
module Synthesis {
  import opened Schema
  import opened Json
  import opened Pricing
  import opened Billing
  import opened Text
  import opened Streaming

  const PREFIX: Bytes := [100, 97, 116, 97, 58, 32]   // "data: "
  const LBRACE: byte := 123
  const RBRACE: byte := 125

  /** A JSON text of an object: one line, from brace to brace. */
  predicate ObjectText(text: Bytes) {
    |text| >= 2 && text[0] == LBRACE && text[|text| - 1] == RBRACE && LF !in text
  }

  /** `json.loads` undoes `json.dumps` with compact separators, for objects. */
  ghost predicate Codec(dump: Object -> Bytes, parse: Parser) {
    forall o: Object :: ObjectText(dump(o)) && parse(dump(o)) == Some(JObject(o))
  }

  // ------------------------------------------------------------------ the printer

  predicate Truthy(v: Json) {
    match v
    case JNull => false
    case JBool(b) => b
    case JInt(n) => n != 0
    case JNumber(x) => x.significand != 0
    case JString(s) => s != ""
    case JList(items) => |items| > 0
    case JObject(fields) => |fields| > 0
  }

  function Default(o: Object, name: string, other: Json): Json { if name in o then o[name] else other }

  /** The fields every printed event starts with; id and creation time are read off
      the response before the first event. */
  function Head(response: Object, id: Json, created: Json, model: string): Object {
    map["id" := id, "object" := JString("chat.completion.chunk"), "created" := created,
        "model" := if Truthy(Get(response, "model")) then Get(response, "model") else JString(model)]
  }

  function DeltaOf(message: Object): Object {
    var delta: Object := map["role" := Default(message, "role", JString("assistant"))];
    var withContent := if "content" in message then delta["content" := message["content"]] else delta;
    if "tool_calls" in message then withContent["tool_calls" := message["tool_calls"]] else withContent
  }

  function MessageOf(choice: Object): Object {
    if Get(choice, "message").JObject? then Get(choice, "message").fields else map[]
  }

  function Opening(head: Object, choice: Object, index: nat): Object {
    head["choices" := JList([JObject(map["index" := Default(choice, "index", JInt(index)),
                                         "delta" := JObject(DeltaOf(MessageOf(choice))),
                                         "finish_reason" := JNull])])]
  }

  function Closing(head: Object, choice: Object, index: nat): Object {
    head["choices" := JList([JObject(map["index" := Default(choice, "index", JInt(index)),
                                         "delta" := JObject(map[]),
                                         "finish_reason" := Default(choice, "finish_reason", JString("stop"))])])]
  }

  function UsageEvent(head: Object, usage: Json): Object { head["choices" := JList([])]["usage" := usage] }

  /** The events printed for the choices, two for each that is an object. */
  function ChoiceEvents(head: Object, choices: seq<Json>): seq<Object> {
    if |choices| == 0 then []
    else
      var k := |choices| - 1;
      ChoiceEvents(head, choices[..k])
      + if choices[k].JObject? then [Opening(head, choices[k].fields, k), Closing(head, choices[k].fields, k)] else []
  }

  function ChoicesOf(response: Object): seq<Json> {
    if Get(response, "choices").JList? then Get(response, "choices").items else []
  }

  function Events(response: Object, id: Json, created: Json, model: string): seq<Object> {
    var head := Head(response, id, created, model);
    ChoiceEvents(head, ChoicesOf(response))
    + if Get(response, "usage").JObject? then [UsageEvent(head, Get(response, "usage"))] else []
  }

  function Chunk(dump: Object -> Bytes, event: Object): Bytes { PREFIX + dump(event) + [LF, LF] }

  const LAST: Bytes := PREFIX + DONE + [LF, LF]

  function Chunks(dump: Object -> Bytes, events: seq<Object>): seq<Bytes> {
    seq(|events|, i requires 0 <= i < |events| => Chunk(dump, events[i]))
  }

  /** `synthesize_sse`: one chunk after the other. */
  method SynthesizeSse(dump: Object -> Bytes, response: Object, id: Json, created: Json, model: string)
    returns (chunks: seq<Bytes>)
    ensures chunks == Chunks(dump, Events(response, id, created, model)) + [LAST]
  {
    chunks := [];
    var choices := if Get(response, "choices").JList? then Get(response, "choices").items else [];
    var head := Head(response, id, created, model);
    for index := 0 to |choices|
      invariant chunks == Chunks(dump, ChoiceEvents(head, choices[..index]))
    {
      assert choices[..index + 1][..index] == choices[..index];
      if !choices[index].JObject? { continue; }
      var choice := choices[index].fields;
      var event, finish := Opening(head, choice, index), Closing(head, choice, index);
      ChunksConcat(dump, ChoiceEvents(head, choices[..index]), [event, finish]);
      chunks := chunks + [PREFIX + dump(event) + [LF, LF]];
      chunks := chunks + [PREFIX + dump(finish) + [LF, LF]];
    }
    assert choices[..|choices|] == choices;
    var usage := Get(response, "usage");
    if usage.JObject? {
      ChunksConcat(dump, ChoiceEvents(head, choices), [UsageEvent(head, usage)]);
      chunks := chunks + [PREFIX + dump(UsageEvent(head, usage)) + [LF, LF]];
    } else {
      ChunksConcat(dump, ChoiceEvents(head, choices), []);
    }
    chunks := chunks + [PREFIX + DONE + [LF, LF]];
  }

  lemma ChunksConcat(dump: Object -> Bytes, a: seq<Object>, b: seq<Object>)
    ensures Chunks(dump, a + b) == Chunks(dump, a) + Chunks(dump, b)
  {
  }

  // ------------------------------------------------------ the print, line by line

  function EventLine(dump: Object -> Bytes, event: Object): Bytes { PREFIX + dump(event) }

  /** The lines of a print: each event's, a blank one after each, and the last. */
  function PrintedLines(dump: Object -> Bytes, events: seq<Object>): seq<Bytes> {
    if |events| == 0 then [PREFIX + DONE, []]
    else [EventLine(dump, events[0]), []] + PrintedLines(dump, events[1..])
  }

  function PrintedBytes(dump: Object -> Bytes, events: seq<Object>): Bytes {
    if |events| == 0 then LAST else Chunk(dump, events[0]) + PrintedBytes(dump, events[1..])
  }

  lemma {:induction false} ConcatFront(first: Bytes, rest: seq<Bytes>)
    ensures Concat([first] + rest) == first + Concat(rest)
  {
    var all := [first] + rest;
    if |rest| == 0 {
      assert all[..0] == [] && all[0] == first;
      assert [] + first == first + [];
    } else {
      assert all[..|all| - 1] == [first] + rest[..|rest| - 1];
      ConcatFront(first, rest[..|rest| - 1]);
      assert first + Concat(rest[..|rest| - 1]) + rest[|rest| - 1] == first + (Concat(rest[..|rest| - 1]) + rest[|rest| - 1]);
    }
  }

  lemma {:induction false} PrintIs(dump: Object -> Bytes, events: seq<Object>)
    ensures Concat(Chunks(dump, events) + [LAST]) == PrintedBytes(dump, events)
  {
    if |events| == 0 {
      assert Chunks(dump, events) + [LAST] == [LAST] + [];
      ConcatFront(LAST, []);
      assert LAST + [] == LAST;
    } else {
      PrintIs(dump, events[1..]);
      assert Chunks(dump, events) == [Chunk(dump, events[0])] + Chunks(dump, events[1..]);
      assert Chunks(dump, events) + [LAST] == [Chunk(dump, events[0])] + (Chunks(dump, events[1..]) + [LAST]);
      ConcatFront(Chunk(dump, events[0]), Chunks(dump, events[1..]) + [LAST]);
    }
  }

  lemma TwoEnds(line: Bytes, rest: Bytes)
    ensures line + [LF, LF] + rest == line + [LF] + ([] + [LF] + rest)
  {
    assert [LF, LF] + rest == [LF] + ([] + [LF] + rest);
    assert line + ([LF, LF] + rest) == line + [LF, LF] + rest;
  }

  /** Two newlines end a line and a blank one. */
  lemma TwoLines(line: Bytes, rest: Bytes)
    requires LF !in line
    ensures CompleteLines(line + [LF, LF] + rest) == [line, []] + CompleteLines(rest)
    ensures Rest(line + [LF, LF] + rest) == Rest(rest)
  {
    TwoEnds(line, rest);
    LeadingLine(line, [] + [LF] + rest);
    LeadingLine([], rest);
    Associate([line], [[]], CompleteLines(rest));
    assert [line] + [[]] == [line, []];
  }

  lemma {:induction false} LinesOfPrint(dump: Object -> Bytes, parse: Parser, events: seq<Object>)
    requires Codec(dump, parse)
    ensures CompleteLines(PrintedBytes(dump, events)) == PrintedLines(dump, events)
    ensures Rest(PrintedBytes(dump, events)) == []
  {
    if |events| == 0 {
      assert LAST == PREFIX + DONE + [LF, LF] + [];
      TwoLines(PREFIX + DONE, []);
      assert CompleteLines([]) == [] && [PREFIX + DONE, []] + [] == [PREFIX + DONE, []];
    } else {
      LinesOfPrint(dump, parse, events[1..]);
      assert ObjectText(dump(events[0]));
      TwoLines(EventLine(dump, events[0]), PrintedBytes(dump, events[1..]));
    }
  }

  // --------------------------------------------------- what the tracker reads back

  function CountEvents(c: Counters, events: seq<Object>): Counters
    decreases |events|
  {
    if |events| == 0 then c else CountEvents(CountEvent(c, events[0]), events[1..])
  }

  lemma StripObjectText(text: Bytes)
    requires ObjectText(text)
    ensures Strip([32] + text) == text && RightStripCr(PREFIX + text) == PREFIX + text
  {
    var spaced: Bytes := [32] + text;
    assert RightStrip(spaced, (b: byte) => IsSpace(b)) == spaced;
    assert spaced[1..] == text;
    assert LeftStrip(spaced, (b: byte) => IsSpace(b)) == LeftStrip(text, (b: byte) => IsSpace(b)) == text;
  }

  /** An event's line is counted as the event it prints. */
  lemma EventIsCounted(dump: Object -> Bytes, parse: Parser, c: Counters, event: Object)
    requires Codec(dump, parse)
    ensures CountLine(parse, c, RightStripCr(EventLine(dump, event))) == Tally(CountEvent(c, event), None)
  {
    var text := dump(event);
    assert ObjectText(text);
    StripObjectText(text);
    var line := PREFIX + text;
    assert DATA <= line && line[5..] == [32] + text;
  }

  lemma DoneIsCounted(parse: Parser, c: Counters)
    ensures CountLines(parse, c, [PREFIX + DONE, []]) == Tally(c.(done := true), None)
  {
    var line := PREFIX + DONE;
    assert RightStripCr(line) == line && DATA <= line && line[5..] == [32] + DONE;
    var spaced: Bytes := [32] + DONE;
    assert RightStrip(spaced, (b: byte) => IsSpace(b)) == spaced && spaced[1..] == DONE;
    assert LeftStrip(spaced, (b: byte) => IsSpace(b)) == LeftStrip(DONE, (b: byte) => IsSpace(b)) == DONE;
    assert [line, []][1..] == [[]] + [];
    BlankIsSkipped(parse, c.(done := true), []);
  }

  lemma BlankIsSkipped(parse: Parser, c: Counters, lines: seq<Bytes>)
    ensures CountLines(parse, c, [[]] + lines) == CountLines(parse, c, lines)
  {
    assert ([[]] + lines)[1..] == lines;
  }

  lemma {:induction false} PrintIsCounted(dump: Object -> Bytes, parse: Parser, c: Counters, events: seq<Object>)
    requires Codec(dump, parse)
    ensures CountLines(parse, c, PrintedLines(dump, events)) == Tally(CountEvents(c, events).(done := true), None)
    decreases |events|
  {
    if |events| == 0 {
      DoneIsCounted(parse, c);
    } else {
      var later := PrintedLines(dump, events[1..]);
      var lines := PrintedLines(dump, events);
      assert lines[0] == EventLine(dump, events[0]) && lines[1..] == [[]] + later;
      EventIsCounted(dump, parse, c, events[0]);
      BlankIsSkipped(parse, CountEvent(c, events[0]), later);
      PrintIsCounted(dump, parse, CountEvent(c, events[0]), events[1..]);
    }
  }

  /** Reading a print back: no error, `done`, and exactly the printed events counted. */
  lemma PrintReadsBack(dump: Object -> Bytes, parse: Parser, events: seq<Object>)
    requires Codec(dump, parse)
    ensures Batch(parse, Concat(Chunks(dump, events) + [LAST])) == Tally(CountEvents(ZERO, events).(done := true), None)
  {
    PrintIs(dump, events);
    LinesOfPrint(dump, parse, events);
    PrintIsCounted(dump, parse, ZERO, events);
  }

  /** Printing a response and feeding the print to a tracker, in any chunks, sets
      `done` and fails nowhere. */
  lemma SynthesizedStreamIsDone(dump: Object -> Bytes, parse: Parser, response: Object, id: Json, created: Json,
                                model: string, chunks: seq<Bytes>, maxBytes: nat)
    requires Codec(dump, parse)
    requires Concat(chunks) == Concat(Chunks(dump, Events(response, id, created, model)) + [LAST])
    requires ShortLines(Concat(chunks)) && |Concat(chunks)| <= maxBytes
    ensures var t := Tracked(parse, chunks, maxBytes);
            && t.error.None? && t.counters.done
            && t.counters == CountEvents(ZERO, Events(response, id, created, model)).(done := true)
  {
    PrintReadsBack(dump, parse, Events(response, id, created, model));
    ChunkingDoesNotMatter(parse, chunks, maxBytes);
  }

  // ----------------------------------------------------------------- settlement

  /** `_usage_from_response`: both counts, or an estimate of the choices' text. */
  function UsageOf(response: Object, text: Json -> string): Usage {
    var usage, choices := Get(response, "usage"), Get(response, "choices");
    var prompt := if usage.JObject? then Count(GetEither(usage.fields, "prompt_tokens", "input_tokens")) else None;
    var completion := if usage.JObject? then Count(GetEither(usage.fields, "completion_tokens", "output_tokens")) else None;
    if prompt.Some? && completion.Some? then Reported(prompt.value, completion.value)
    else Unreported(EstimateTokens(text(if choices.JList? then choices else JString(""))))
  }

  /** `settlement_response`, and whether its usage is an estimate. */
  function SettlementResponse(c: Counters, model: string, fallbackInput: nat): (Object, bool) {
    var prompt := if c.prompt.Some? then c.prompt.value else fallbackInput;
    var completion := if c.completion.Some? then c.completion.value else CeilDiv(c.characters, 4);
    (map["model" := JString(model), "choices" := JList([]),
         "usage" := JObject(map["prompt_tokens" := JInt(prompt), "completion_tokens" := JInt(completion),
                                "total_tokens" := JInt(prompt + completion)])],
     !(c.prompt.Some? && c.completion.Some?))
  }

  /** The usage in a settlement response. */
  function CountedUsage(c: Counters, fallbackInput: nat): Usage {
    Reported(if c.prompt.Some? then c.prompt.value else fallbackInput,
             if c.completion.Some? then c.completion.value else CeilDiv(c.characters, 4))
  }

  /** Some count was not reported and had to be estimated. */
  predicate Estimated(c: Counters) { c.prompt.None? || c.completion.None? }

  /** A settlement response always reports usage: the counted one where there is one. */
  lemma SettlementResponseReports(c: Counters, model: string, fallbackInput: nat, text: Json -> string)
    ensures UsageOf(SettlementResponse(c, model, fallbackInput).0, text) == CountedUsage(c, fallbackInput)
    ensures SettlementResponse(c, model, fallbackInput).1 == Estimated(c)
  {
  }

  lemma {:induction false} CountEventsConcat(c: Counters, a: seq<Object>, b: seq<Object>)
    ensures CountEvents(c, a + b) == CountEvents(CountEvents(c, a), b)
    decreases |a|
  {
    if |a| == 0 {
      assert a + b == b;
    } else {
      assert (a + b)[0] == a[0] && (a + b)[1..] == a[1..] + b;
      CountEventsConcat(CountEvent(c, a[0]), a[1..], b);
    }
  }

  /** Events without usage leave both counts alone. */
  lemma {:induction false} NoUsageCounted(c: Counters, events: seq<Object>)
    requires forall e :: e in events ==> "usage" !in e
    ensures CountEvents(c, events).prompt == c.prompt && CountEvents(c, events).completion == c.completion
    decreases |events|
  {
    if |events| > 0 {
      assert events[0] in events;
      NoUsageCounted(CountEvent(c, events[0]), events[1..]);
    }
  }

  lemma {:induction false} ChoicesCarryNoUsage(head: Object, choices: seq<Json>)
    requires "usage" !in head
    ensures forall e :: e in ChoiceEvents(head, choices) ==> "usage" !in e
  {
    if |choices| > 0 { ChoicesCarryNoUsage(head, choices[..|choices| - 1]); }
  }

  /** The tracker's counts are those of the response's own usage, if it is an object. */
  lemma PrintedUsage(response: Object, id: Json, created: Json, model: string)
    ensures var c := CountEvents(ZERO, Events(response, id, created, model)); var usage := Get(response, "usage");
            && c.prompt == (if usage.JObject? then Count(GetEither(usage.fields, "prompt_tokens", "input_tokens")) else None)
            && c.completion == (if usage.JObject? then Count(GetEither(usage.fields, "completion_tokens", "output_tokens")) else None)
  {
    var head := Head(response, id, created, model);
    var body := ChoiceEvents(head, ChoicesOf(response));
    ChoicesCarryNoUsage(head, ChoicesOf(response));
    NoUsageCounted(ZERO, body);
    var usage := Get(response, "usage");
    var last := if usage.JObject? then [UsageEvent(head, usage)] else [];
    CountEventsConcat(ZERO, body, last);
    if usage.JObject? {
      var after := CountEvents(ZERO, body);
      assert last[1..] == [];
      assert CountEvents(after, last) == CountEvent(after, UsageEvent(head, usage));
    }
  }

  /** Settling what the tracker counted in the print of a response charges what
      settling the response itself charges, with the same estimated flag, whenever
      the response reports usage; the flags agree for every response. */
  lemma PrintedResponseSettlesAlike(
      db: Tables, request: nat, up: Upstream, caller: Caller, response: Object, id: Json, created: Json, model: string,
      fallbackInput: nat, text: Json -> string)
    ensures var counted := CountEvents(ZERO, Events(response, id, created, model)).(done := true);
            var (printed, estimated) := SettlementResponse(counted, model, fallbackInput);
            var direct, viaStream := UsageOf(response, text), UsageOf(printed, text);
            && (direct.Reported? ==>
                  Settle(db, request, viaStream, estimated, up, caller) == Settle(db, request, direct, false, up, caller))
            && (direct.Unreported? <==> viaStream.Unreported? || estimated)
  {
    PrintedUsage(response, id, created, model);
    var counted := CountEvents(ZERO, Events(response, id, created, model)).(done := true);
    SettlementResponseReports(counted, model, fallbackInput, text);
  }
}
