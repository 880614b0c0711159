/** What a stream's counters mean: the characters of the text it spoke, the last counts
    it reported, and whether it ended; which lines carry an event; and what the print of
    a response is settled for when it reports no usage. */
module StreamMeaning {
  import opened Schema
  import opened Json
  import opened Pricing
  import opened Billing
  import opened Text
  import opened Streaming
  import opened Synthesis

  // ------------------------------------------------------------------ spoken text

  /** The text in a value that should be a string. */
  function Spoken(v: Json): string {
    match v
    case JString(s) => s
    case _ => ""
  }

  function Member(v: Json, name: string): Json {
    match v
    case JObject(fields) => if name in fields then fields[name] else JNull
    case _ => JNull
  }

  function Elements(v: Json): seq<Json> {
    match v
    case JList(items) => items
    case _ => []
  }

  /** The arguments of tool calls, one after the other. */
  function CallsText(calls: seq<Json>): string {
    if |calls| == 0 then "" else Spoken(Member(Member(calls[0], "function"), "arguments")) + CallsText(calls[1..])
  }

  /** A message or a part of one speaks its content and the arguments of its calls. */
  function MessageText(message: Json): string {
    Spoken(Member(message, "content")) + CallsText(Elements(Member(message, "tool_calls")))
  }

  /** What the choices say under this name, one after the other. */
  function ChoicesText(choices: seq<Json>, name: string): string {
    if |choices| == 0 then "" else MessageText(Member(choices[0], name)) + ChoicesText(choices[1..], name)
  }

  function EventText(event: Object): string { ChoicesText(Elements(Get(event, "choices")), "delta") }

  function StreamText(events: seq<Object>): string {
    if |events| == 0 then "" else EventText(events[0]) + StreamText(events[1..])
  }

  lemma {:induction false} CallsTextAppend(calls: seq<Json>, call: Json)
    ensures CallsText(calls + [call]) == CallsText(calls) + Spoken(Member(Member(call, "function"), "arguments"))
  {
    if |calls| == 0 {
      assert [call][1..] == [] && [] + [call] == [call];
    } else {
      assert (calls + [call])[1..] == calls[1..] + [call];
      CallsTextAppend(calls[1..], call);
    }
  }

  lemma {:induction false} CallsAreSpoken(calls: seq<Json>)
    ensures CallCharacters(calls) == |CallsText(calls)|
  {
    if |calls| > 0 {
      var init, last := calls[..|calls| - 1], calls[|calls| - 1];
      CallsAreSpoken(init);
      CallsTextAppend(init, last);
      assert calls == init + [last];
    }
  }

  lemma DeltaIsSpoken(delta: Json)
    ensures DeltaCharacters(delta) == |MessageText(delta)|
  {
    CallsAreSpoken(Elements(Member(delta, "tool_calls")));
  }

  lemma {:induction false} ChoicesTextAppend(choices: seq<Json>, choice: Json, name: string)
    ensures ChoicesText(choices + [choice], name) == ChoicesText(choices, name) + MessageText(Member(choice, name))
  {
    if |choices| == 0 {
      assert [choice][1..] == [] && [] + [choice] == [choice];
    } else {
      assert (choices + [choice])[1..] == choices[1..] + [choice];
      ChoicesTextAppend(choices[1..], choice, name);
    }
  }

  lemma {:induction false} ChoicesAreSpoken(choices: seq<Json>)
    ensures CountAlike(choices)
  {
    if |choices| > 0 {
      var init := choices[..|choices| - 1];
      ChoicesAreSpoken(init);
      OneMoreSpoken(init, choices[|choices| - 1]);
      assert choices == init + [choices[|choices| - 1]];
    }
  }

  /** As many characters are counted as the deltas speak. */
  predicate CountAlike(choices: seq<Json>) { ChoiceCharacters(choices) == |ChoicesText(choices, "delta")| }

  lemma OneMoreSpoken(choices: seq<Json>, choice: Json)
    requires CountAlike(choices)
    ensures CountAlike(choices + [choice])
  {
    ChoicesTextAppend(choices, choice, "delta");
    DeltaIsSpoken(Member(choice, "delta"));
    assert (choices + [choice])[..|choices|] == choices && (choices + [choice])[|choices|] == choice;
    assert FieldOf(choice, "delta") == Member(choice, "delta");
  }

  // ------------------------------------------------------------------ reported counts

  /** The value stands for this count; a Boolean is a number here. */
  predicate IsCount(v: Json, n: nat) { v == JInt(n) || (v == JBool(true) && n == 1) || (v == JBool(false) && n == 0) }

  /** The usage gives this count under its name, or under the other name where the
      first is absent. */
  predicate Gives(usage: Json, name: string, other: string, n: nat) {
    && usage.JObject?
    && if name in usage.fields then IsCount(usage.fields[name], n) else other in usage.fields && IsCount(usage.fields[other], n)
  }

  predicate Prompts(event: Object, n: nat) { Gives(Get(event, "usage"), "prompt_tokens", "input_tokens", n) }

  predicate Completes(event: Object, n: nat) { Gives(Get(event, "usage"), "completion_tokens", "output_tokens", n) }

  lemma CountIff(v: Json, n: nat)
    ensures Count(v) == Some(n) <==> IsCount(v, n)
  {
  }

  lemma GivesIff(usage: Json, name: string, other: string, n: nat)
    ensures Gives(usage, name, other, n) <==> usage.JObject? && Count(GetEither(usage.fields, name, other)) == Some(n)
  {
    if usage.JObject? { CountIff(GetEither(usage.fields, name, other), n); }
  }

  /** The count is the last one that the events give, if any of them gives one. */
  ghost predicate LastGiven(events: seq<Object>, gives: (Object, nat) -> bool, count: Option<nat>) {
    match count
    case None => forall i, n: nat | 0 <= i < |events| :: !gives(events[i], n)
    case Some(n) =>
      exists i :: 0 <= i < |events| && gives(events[i], n) && forall j, m: nat | i < j < |events| :: !gives(events[j], m)
  }

  /** What the counters of some events mean. */
  ghost predicate Means(c: Counters, events: seq<Object>) {
    && c.characters == |StreamText(events)| && !c.done
    && LastGiven(events, (e: Object, n: nat) => Prompts(e, n), c.prompt)
    && LastGiven(events, (e: Object, n: nat) => Completes(e, n), c.completion)
  }

  lemma {:induction false} StreamTextAppend(events: seq<Object>, event: Object)
    ensures StreamText(events + [event]) == StreamText(events) + EventText(event)
  {
    if |events| == 0 {
      assert [event][1..] == [] && [] + [event] == [event];
    } else {
      assert (events + [event])[1..] == events[1..] + [event];
      StreamTextAppend(events[1..], event);
    }
  }

  lemma GivenByLast(events: seq<Object>, event: Object, gives: (Object, nat) -> bool, before: Option<nat>, now: Option<nat>)
    requires LastGiven(events, gives, before)
    requires forall n: nat :: gives(event, n) <==> now == Some(n)
    ensures LastGiven(events + [event], gives, if now.Some? then now else before)
  {
    var all := events + [event];
    assert all[|events|] == event;
    if now.Some? {
      assert gives(all[|events|], now.value);
    } else if before.Some? {
      var i :| 0 <= i < |events| && gives(events[i], before.value) && forall j, m: nat | i < j < |events| :: !gives(events[j], m);
      assert gives(all[i], before.value);
    }
  }

  /** One more event adds its text and brings its counts. */
  lemma EventMeans(c: Counters, events: seq<Object>, event: Object)
    requires Means(c, events)
    ensures Means(CountEvent(c, event), events + [event])
  {
    StreamTextAppend(events, event);
    ChoicesAreSpoken(Elements(Get(event, "choices")));
    var usage := Get(event, "usage");
    var prompt := if usage.JObject? then Count(GetEither(usage.fields, "prompt_tokens", "input_tokens")) else None;
    var completion := if usage.JObject? then Count(GetEither(usage.fields, "completion_tokens", "output_tokens")) else None;
    forall n: nat ensures (Prompts(event, n) <==> prompt == Some(n)) && (Completes(event, n) <==> completion == Some(n)) {
      GivesIff(usage, "prompt_tokens", "input_tokens", n);
      GivesIff(usage, "completion_tokens", "output_tokens", n);
    }
    GivenByLast(events, event, (e: Object, n: nat) => Prompts(e, n), c.prompt, prompt);
    GivenByLast(events, event, (e: Object, n: nat) => Completes(e, n), c.completion, completion);
  }

  /** The counters of any events are the length of all they spoke and the last counts
      they gave. */
  lemma {:induction false} EventsMean(events: seq<Object>)
    ensures Means(CountEvents(ZERO, events), events)
  {
    if |events| > 0 {
      var init, last := events[..|events| - 1], events[|events| - 1];
      EventsMean(init);
      EventMeans(CountEvents(ZERO, init), init, last);
      CountEventsConcat(ZERO, init, [last]);
      assert events == init + [last] && [last][1..] == [];
    }
  }

  // ------------------------------------------------------------------ which lines count

  predicate Blank(s: Bytes) { forall i | 0 <= i < |s| :: s[i] == 32 || 9 <= s[i] <= 13 }

  lemma {:induction false} BlankFront(pad: Bytes, s: Bytes)
    requires Blank(pad)
    ensures LeftStrip(pad + s, (b: byte) => IsSpace(b)) == LeftStrip(s, (b: byte) => IsSpace(b))
  {
    if |pad| == 0 {
      assert pad + s == s;
    } else {
      assert (pad + s)[1..] == pad[1..] + s;
      BlankFront(pad[1..], s);
    }
  }

  lemma {:induction false} BlankBack(s: Bytes, pad: Bytes)
    requires Blank(pad)
    ensures RightStrip(s + pad, (b: byte) => IsSpace(b)) == RightStrip(s, (b: byte) => IsSpace(b))
  {
    if |pad| == 0 {
      assert s + pad == s;
    } else {
      assert (s + pad)[..|s + pad| - 1] == s + pad[..|pad| - 1];
      BlankBack(s, pad[..|pad| - 1]);
    }
  }

  /** It neither begins nor ends with white space. */
  predicate Trim(s: Bytes) { |s| > 0 && !IsSpace(s[0]) && !IsSpace(s[|s| - 1]) }

  lemma StripIs(before: Bytes, s: Bytes, after: Bytes)
    requires Blank(before) && Blank(after) && (Trim(s) || s == [])
    ensures Strip(before + s + after) == s
  {
    BlankBack(before + s, after);
    if s == [] {
      assert before + s == [] + before;
      BlankBack([], before);
    } else {
      assert RightStrip(before + s, (b: byte) => IsSpace(b)) == before + s;
      BlankFront(before, s);
    }
  }

  /** A data line's text, white space around it aside, is an event, the end marker or
      nothing; other lines are skipped; a text that is no JSON object is an error. */
  lemma LineMeans(parse: Parser, c: Counters, before: Bytes, text: Bytes, after: Bytes)
    requires Blank(before) && Blank(after) && (Trim(text) || text == [])
    ensures CountLine(parse, c, [100, 97, 116, 97, 58] + (before + text + after))
            == if text == [91, 68, 79, 78, 69, 93] then Tally(Counters(c.characters, c.prompt, c.completion, true), None)
               else if text == [] then Tally(c, None)
               else match parse(text)
                    case Some(JObject(event)) => Tally(CountEvent(c, event), None)
                    case Some(_) => Tally(c, Some(InvalidEvent))
                    case None => Tally(c, Some(InvalidJson))
  {
    var line: Bytes := DATA + (before + text + after);
    assert line[5..] == before + text + after && DATA <= line;
    StripIs(before, text, after);
  }

  lemma OtherLinesAreSkipped(parse: Parser, c: Counters, line: Bytes)
    requires |line| < 5 || line[..5] != [100, 97, 116, 97, 58]
    ensures CountLine(parse, c, line) == Tally(c, None)
  {
  }

  // ---------------------------------------------------------------- printed responses

  lemma {:induction false} StreamTextConcat(a: seq<Object>, b: seq<Object>)
    ensures StreamText(a + b) == StreamText(a) + StreamText(b)
  {
    if |a| == 0 {
      assert a + b == b;
    } else {
      assert (a + b)[0] == a[0] && (a + b)[1..] == a[1..] + b;
      StreamTextConcat(a[1..], b);
      assert EventText(a[0]) + (StreamText(a[1..]) + StreamText(b)) == EventText(a[0]) + StreamText(a[1..]) + StreamText(b);
    }
  }

  lemma LoneChoice(head: Object, choice: Object)
    ensures EventText(head["choices" := JList([JObject(choice)])]) == MessageText(Member(JObject(choice), "delta"))
  {
    var choices := [JObject(choice)];
    assert choices[1..] == [];
    assert ChoicesText(choices, "delta") == MessageText(Member(choices[0], "delta")) + "";
  }

  /** The first event of a choice speaks its message, the second nothing. */
  lemma ChoiceIsSpoken(head: Object, choice: Object, index: nat)
    ensures EventText(Opening(head, choice, index)) == MessageText(Member(JObject(choice), "message"))
    ensures EventText(Closing(head, choice, index)) == ""
  {
    var message := Get(choice, "message");
    var opening: Object := map["index" := Default(choice, "index", JInt(index)),
                               "delta" := JObject(DeltaOf(MessageOf(choice))), "finish_reason" := JNull];
    var closing: Object := map["index" := Default(choice, "index", JInt(index)),
                               "delta" := JObject(map[]), "finish_reason" := Default(choice, "finish_reason", JString("stop"))];
    LoneChoice(head, opening);
    LoneChoice(head, closing);
    DeltaSpeaks(message, MessageOf(choice));
  }

  lemma DeltaSpeaks(message: Json, fields: Object)
    requires fields == if message.JObject? then message.fields else map[]
    ensures MessageText(JObject(DeltaOf(fields))) == MessageText(message) && MessageText(JObject(map[])) == ""
  {
    var delta := DeltaOf(fields);
    assert "content" in fields <==> "content" in delta;
    assert "tool_calls" in fields <==> "tool_calls" in delta;
  }

  lemma OneEvent(event: Object)
    ensures StreamText([event]) == EventText(event)
  {
    assert [event][1..] == [] && EventText(event) + "" == EventText(event);
  }

  /** The events printed for one choice. */
  function PairOf(head: Object, choice: Json, k: nat): seq<Object> {
    if choice.JObject? then [Opening(head, choice.fields, k), Closing(head, choice.fields, k)] else []
  }

  lemma PairSpeaks(head: Object, choice: Json, k: nat)
    ensures StreamText(PairOf(head, choice, k)) == MessageText(Member(choice, "message"))
  {
    if choice.JObject? {
      var opening, closing := Opening(head, choice.fields, k), Closing(head, choice.fields, k);
      ChoiceIsSpoken(head, choice.fields, k);
      OneEvent(opening);
      OneEvent(closing);
      StreamTextConcat([opening], [closing]);
      assert [opening] + [closing] == [opening, closing];
      assert MessageText(Member(choice, "message")) + "" == MessageText(Member(choice, "message"));
    }
  }

  lemma PairIsLast(head: Object, choices: seq<Json>, choice: Json)
    ensures ChoiceEvents(head, choices + [choice]) == ChoiceEvents(head, choices) + PairOf(head, choice, |choices|)
  {
    assert (choices + [choice])[..|choices|] == choices && (choices + [choice])[|choices|] == choice;
  }

  /** The events printed for the choices say what the choices' messages say. */
  predicate SpeakAlike(head: Object, choices: seq<Json>) {
    StreamText(ChoiceEvents(head, choices)) == ChoicesText(choices, "message")
  }

  lemma OneMoreChoice(head: Object, choices: seq<Json>, choice: Json)
    requires SpeakAlike(head, choices)
    ensures SpeakAlike(head, choices + [choice])
  {
    PairIsLast(head, choices, choice);
    StreamTextConcat(ChoiceEvents(head, choices), PairOf(head, choice, |choices|));
    PairSpeaks(head, choice, |choices|);
    ChoicesTextAppend(choices, choice, "message");
  }

  lemma {:induction false} ChoiceEventsSpeak(head: Object, choices: seq<Json>)
    ensures SpeakAlike(head, choices)
  {
    if |choices| > 0 {
      var init := choices[..|choices| - 1];
      ChoiceEventsSpeak(head, init);
      OneMoreChoice(head, init, choices[|choices| - 1]);
      assert choices == init + [choices[|choices| - 1]];
    }
  }

  /** The whole print of a response speaks the messages of its choices. */
  lemma PrintSpeaks(response: Object, id: Json, created: Json, model: string)
    ensures StreamText(Events(response, id, created, model)) == ChoicesText(Elements(Get(response, "choices")), "message")
  {
    var head := Head(response, id, created, model);
    var body := ChoiceEvents(head, ChoicesOf(response));
    ChoiceEventsSpeak(head, ChoicesOf(response));
    var usage := Get(response, "usage");
    if usage.JObject? {
      StreamTextConcat(body, [UsageEvent(head, usage)]);
      UsageIsSilent(head, usage);
    } else {
      assert body + [] == body;
    }
  }

  lemma UsageIsSilent(head: Object, usage: Json)
    ensures StreamText([UsageEvent(head, usage)]) == ""
  {
    OneEvent(UsageEvent(head, usage));
    assert Get(UsageEvent(head, usage), "choices") == JList([]);
  }

  /** The field where the object has it, otherwise the default. */
  predicate Takes(v: Json, from: Object, name: string, otherwise: Json) {
    v == if name in from then from[name] else otherwise
  }

  /** The two events of a choice carry its place, its message as a part by part would,
      and at the end its reason to finish. */
  lemma PrintedChoiceIs(head: Object, choice: Object, k: nat)
    requires "choices" !in head
    ensures var opening, closing := Opening(head, choice, k), Closing(head, choice, k);
            && (forall name :: name in head ==> name in opening && name in closing && opening[name] == closing[name] == head[name])
            && opening.Keys == closing.Keys == head.Keys + {"choices"}
            && |Elements(opening["choices"])| == 1 && |Elements(closing["choices"])| == 1
            && var first, last := Elements(opening["choices"])[0], Elements(closing["choices"])[0];
               var delta, message := Member(first, "delta"), if Get(choice, "message").JObject? then Get(choice, "message").fields else map[];
            && Takes(Member(first, "index"), choice, "index", JInt(k)) && Takes(Member(last, "index"), choice, "index", JInt(k))
            && Member(first, "finish_reason") == JNull && Takes(Member(last, "finish_reason"), choice, "finish_reason", JString("stop"))
            && Member(last, "delta") == JObject(map[])
            && Takes(Member(delta, "role"), message, "role", JString("assistant"))
            && Takes(Member(delta, "content"), message, "content", JNull) && Takes(Member(delta, "tool_calls"), message, "tool_calls", JNull)
  {
    DeltaKeeps(if Get(choice, "message").JObject? then Get(choice, "message").fields else map[]);
  }

  lemma DeltaKeeps(message: Object)
    ensures var delta := JObject(DeltaOf(message));
            && Takes(Member(delta, "role"), message, "role", JString("assistant"))
            && Takes(Member(delta, "content"), message, "content", JNull) && Takes(Member(delta, "tool_calls"), message, "tool_calls", JNull)
  {
  }

  /** Every printed event is marked as a chunk, with the response's model, or the one
      asked for where the response names none. */
  lemma PrintedHeadIs(response: Object, id: Json, created: Json, model: string)
    ensures var head := Head(response, id, created, model);
            && head["object"] == JString("chat.completion.chunk") && head["id"] == id && head["created"] == created
            && ("model" in response && response["model"].JString? && response["model"].s != "" ==> head["model"] == response["model"])
            && (head["model"] == JString(model) || ("model" in response && head["model"] == response["model"] && Truthy(response["model"])))
            && ("model" !in response || response["model"] in {JNull, JString("")} ==> head["model"] == JString(model))
  {
  }

  /** The least number of quads that hold so many characters. */
  predicate IsQuarter(n: int, characters: nat) { 4 * (n - 1) < characters <= 4 * n }

  /** A response that reports no usage is settled, through its print, for the fallback
      input and a quarter of what its messages say, rounded up; one that reports a
      count is settled for that count. */
  lemma PrintIsSettledFor(response: Object, id: Json, created: Json, model: string, fallbackInput: nat)
    ensures var counted := CountEvents(ZERO, Events(response, id, created, model));
            var usage := CountedUsage(counted, fallbackInput); var said := ChoicesText(Elements(Get(response, "choices")), "message");
            && usage.Reported?
            && (forall n: nat :: Prompts(response, n) ==> usage.prompt == n)
            && ((forall n: nat :: !Prompts(response, n)) ==> usage.prompt == fallbackInput)
            && (forall n: nat :: Completes(response, n) ==> usage.completion == n)
            && ((forall n: nat :: !Completes(response, n)) ==> IsQuarter(usage.completion, |said|))
            && (Estimated(counted) <==> (forall n: nat :: !Prompts(response, n)) || (forall n: nat :: !Completes(response, n)))
  {
    EventsMean(Events(response, id, created, model));
    PrintSpeaks(response, id, created, model);
    PrintedUsage(response, id, created, model);
    var usage := Get(response, "usage");
    forall n: nat
      ensures Prompts(response, n) <==> usage.JObject? && Count(GetEither(usage.fields, "prompt_tokens", "input_tokens")) == Some(n)
      ensures Completes(response, n) <==> usage.JObject? && Count(GetEither(usage.fields, "completion_tokens", "output_tokens")) == Some(n)
    {
      GivesIff(usage, "prompt_tokens", "input_tokens", n);
      GivesIff(usage, "completion_tokens", "output_tokens", n);
    }
  }

  /** A whole answer is settled for its two counts exactly when it gives both. */
  lemma UsageIsReportedIff(response: Object, text: Json -> string, prompt: nat, completion: nat)
    ensures UsageOf(response, text) == Reported(prompt, completion) <==> Prompts(response, prompt) && Completes(response, completion)
    ensures UsageOf(response, text).Unreported? ==>
              UsageOf(response, text).output
              == EstimateTokens(text(if Get(response, "choices").JList? then Get(response, "choices") else JString("")))
  {
    var usage := Get(response, "usage");
    GivesIff(usage, "prompt_tokens", "input_tokens", prompt);
    GivesIff(usage, "completion_tokens", "output_tokens", completion);
  }
}
