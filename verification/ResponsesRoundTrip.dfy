/** A response's output fed back as the input of the next request. */
module ResponsesRoundTrip {
  import opened Wrappers
  import opened ResponsesProtocol
  import opened ResponsesRequest
  import Response = ResponsesResponse

  /** An output item as the client sends it back. */
  function Echo(item: Item): InputItem {
    match item
    case Reasoning(_, text) => InputItem(ReasoningType, "", Absent, Parts([Part("summary_text", text)]), NO_ID, "", "",
                                         "")
    case Message(_, text) => InputItem(MessageType, "assistant", Parts([Part("output_text", text)]), Absent, NO_ID, "",
                                       "", "")
    case FunctionCall(_, callId, name, arguments) => InputItem(CallType, "", Absent, Absent, callId, name, arguments,
                                                               "")
  }

  function Echoes(items: seq<Item>): (r: seq<Option<InputItem>>)
    ensures |r| == |items|
  {
    seq(|items|, i requires 0 <= i < |items| => Some(Echo(items[i])))
  }

  function Contents(messages: seq<ChatMessage>): string {
    if |messages| == 0 then "" else Contents(messages[..|messages| - 1]) + messages[|messages| - 1].content
  }

  function Reasonings(messages: seq<ChatMessage>): string {
    if |messages| == 0 then "" else Reasonings(messages[..|messages| - 1]) + messages[|messages| - 1].reasoning
  }

  function AllCalls(messages: seq<ChatMessage>): seq<ToolCall> {
    if |messages| == 0 then [] else AllCalls(messages[..|messages| - 1]) + messages[|messages| - 1].calls
  }

  /** A sent call as an item's call: the item's call id, empty arguments as {}. */
  function CallFor(item: Item): ToolCall
    requires item.FunctionCall?
  {
    ToolCall(item.callId, item.name, if item.arguments == "" then "{}" else item.arguments)
  }

  function CallsFor(items: seq<Item>): (r: seq<ToolCall>)
    requires forall i :: 0 <= i < |items| ==> items[i].FunctionCall?
    ensures |r| == |items|
  {
    seq(|items|, i requires 0 <= i < |items| => CallFor(items[i]))
  }

  // ----- Reading the echoed items -----

  lemma {:induction false} PartsTextOne(kind: string, text: string)
    ensures Join(Texts([Part(kind, text)])) == text
    ensures ReasoningParts([Part("summary_text", text)]) == text
  {
    assert [Part(kind, text)][..0] == [] && "" + text == text;
  }

  function UnitFor(item: Item): Unit {
    match item
    case Reasoning(_, text) => Think(TrimSpace(text))
    case Message(_, text) => Say("assistant", text)
    case FunctionCall(_, _, _, _) => Calls([CallFor(item)])
  }

  lemma {:induction false} EchoReads(item: Item, n: nat)
    requires item.FunctionCall? ==> item.callId != NO_ID
    ensures UnitOf(Echo(item), n) == Success(UnitFor(item))
  {
    match item
    case Reasoning(_, text) =>
      PartsTextOne("summary_text", text);
      assert text + "" == text;
    case Message(_, text) => PartsTextOne("output_text", text);
    case FunctionCall(_, _, _, _) =>
  }

  predicate Sendable(items: seq<Item>) {
    forall i :: 0 <= i < |items| && items[i].FunctionCall? ==> items[i].callId != NO_ID
  }

  lemma {:induction false} EchoStep(items: seq<Item>, item: Item, units: seq<Unit>)
    requires (item.FunctionCall? ==> item.callId != NO_ID) && Units(Echoes(items)) == Success(units)
    ensures Units(Echoes(items + [item])) == Success(Extend(units, UnitFor(item)))
  {
    hide Echo, UnitOf, UnitFor, Extend;
    assert Echoes(items + [item])[..|items|] == Echoes(items);
    EchoReads(item, |items|);
  }

  function BatchOf(calls: seq<Item>): seq<Unit>
    requires forall i :: 0 <= i < |calls| ==> calls[i].FunctionCall?
  {
    if calls == [] then [] else [Calls(CallsFor(calls))]
  }

  lemma {:induction false} ExtendBatch(units: seq<Unit>, calls: seq<ToolCall>, call: ToolCall)
    ensures Extend(units + [Calls(calls)], Calls([call])) == units + [Calls(calls + [call])]
  {
    assert (units + [Calls(calls)])[..|units|] == units;
  }

  lemma {:induction false} CallsForSnoc(calls: seq<Item>, call: Item)
    requires forall i :: 0 <= i < |calls| ==> calls[i].FunctionCall?
    requires call.FunctionCall?
    ensures CallsFor(calls + [call]) == CallsFor(calls) + [CallFor(call)]
  {
  }

  lemma {:induction false} BatchGrows(units: seq<Unit>, calls: seq<Item>, call: Item)
    requires forall i :: 0 <= i < |calls| ==> calls[i].FunctionCall?
    requires call.FunctionCall? && (|units| > 0 ==> !units[|units| - 1].Calls?)
    ensures Extend(units + BatchOf(calls), UnitFor(call)) == units + BatchOf(calls + [call])
  {
    CallsForSnoc(calls, call);
    if calls == [] {
      assert units + [] == units && [] + [CallFor(call)] == [CallFor(call)];
    } else {
      ExtendBatch(units, CallsFor(calls), CallFor(call));
    }
  }

  /** A run of calls at the end is read as one batch. */
  lemma {:induction false} NoBatch(units: seq<Unit>)
    ensures units + BatchOf([]) == units
  {
  }

  lemma {:induction false} EchoCalls(items: seq<Item>, calls: seq<Item>, units: seq<Unit>)
    requires Sendable(items) && Sendable(calls) && Units(Echoes(items)) == Success(units)
    requires forall i :: 0 <= i < |calls| ==> calls[i].FunctionCall?
    requires |units| > 0 ==> !units[|units| - 1].Calls?
    ensures Units(Echoes(items + calls)) == Success(units + BatchOf(calls))
  {
    hide Units, BatchOf, Extend, UnitFor, Echoes;
    if calls == [] {
      NoBatch(units);
      assert items + calls == items;
    } else {
      var n := |calls| - 1;
      EchoCalls(items, calls[..n], units);
      BatchGrows(units, calls[..n], calls[n]);
      assert calls == calls[..n] + [calls[n]];
      Regroup(items, calls[..n], [calls[n]]);
      EchoStep(items + calls[..n], calls[n], units + BatchOf(calls[..n]));
    }
  }

  // ----- Attaching and placing them -----

  function ReasoningUnit(reasoning: string): seq<Unit> {
    if reasoning == "" then [] else [Think(TrimSpace(reasoning))]
  }

  function ContentUnit(content: string): seq<Unit> {
    if content == "" then [] else [Say("assistant", content)]
  }

  function CallsUnit(calls: seq<ToolCall>): seq<Unit> {
    if calls == [] then [] else [Calls(calls)]
  }

  function ThoughtsOf(reasoning: string): seq<string> {
    if TrimSpace(reasoning) == "" then [] else [TrimSpace(reasoning)]
  }

  function ResponseTokens(reasoning: string, content: string, calls: seq<ToolCall>): seq<Token> {
    var thoughts := ThoughtsOf(reasoning);
    (if content == "" then [] else [Regular("assistant", content, thoughts)])
    + (if calls == [] then [] else [Batch(calls, if content == "" then thoughts else [])])
    + (if content == "" && calls == [] && thoughts != [] then [Orphan(thoughts)] else [])
  }

  /** Attaching one unit more, or none. */
  lemma {:induction false} AttachMore(units: seq<Unit>, more: seq<Unit>)
    requires |more| <= 1
    ensures Attach(units + more) == if more == [] then Attach(units) else AttachOne(Attach(units), more[0])
  {
    if more == [] { assert units + more == units; } else { assert (units + more)[..|units|] == units; }
  }

  lemma {:induction false} ReasoningAttaches(reasoning: string)
    ensures Attach(ReasoningUnit(reasoning)) == Attached([], ThoughtsOf(reasoning))
  {
    if reasoning != "" {
      hide TrimSpace;
      var u := Think(TrimSpace(reasoning));
      AttachSnoc([], u);
      assert [] + [u] == [u] && AttachOne(Attached([], []), u) == Attached([], ThoughtsOf(reasoning));
    }
  }

  lemma {:induction false} ResponseAttaches(reasoning: string, content: string, calls: seq<ToolCall>)
    ensures Tokens(ReasoningUnit(reasoning) + ContentUnit(content) + CallsUnit(calls))
            == ResponseTokens(reasoning, content, calls)
  {
    hide Attach, ReasoningUnit, ThoughtsOf;
    ReasoningAttaches(reasoning);
    AttachMore(ReasoningUnit(reasoning), ContentUnit(content));
    AttachMore(ReasoningUnit(reasoning) + ContentUnit(content), CallsUnit(calls));
  }

  /** With plain messages first and at most one batch, last, nothing is moved. */
  lemma {:induction false} ScheduleShort(tokens: seq<Token>)
    requires |tokens| <= 2 && forall i :: 0 <= i < |tokens| - 1 ==> tokens[i].Regular?
    requires forall i :: 0 <= i < |tokens| ==> !tokens[i].Reply?
    ensures Schedule(tokens) == tokens
  {
    if |tokens| > 0 { PlaceSnoc([], tokens[0]); assert [] + [tokens[0]] == tokens[..1]; }
    if |tokens| > 1 { PlaceSnoc([tokens[0]], tokens[1]); assert [tokens[0]] + [tokens[1]] == tokens; }
  }

  lemma {:induction false} FoldSnoc(messages: seq<ChatMessage>, m: ChatMessage)
    ensures Contents(messages + [m]) == Contents(messages) + m.content
    ensures Reasonings(messages + [m]) == Reasonings(messages) + m.reasoning
    ensures AllCalls(messages + [m]) == AllCalls(messages) + m.calls
  {
    assert (messages + [m])[..|messages|] == messages;
  }

  predicate AssistantOnly(messages: seq<ChatMessage>) {
    forall i :: 0 <= i < |messages| ==> messages[i].role == "assistant" && messages[i].toolCallId == NO_ID
  }

  /** The messages add up to the response. */
  ghost predicate AddsUp(messages: seq<ChatMessage>, reasoning: string, content: string, calls: seq<ToolCall>) {
    && AssistantOnly(messages)
    && Contents(messages) == content
    && Reasonings(messages) == TrimSpace(reasoning)
    && AllCalls(messages) == calls
  }

  lemma {:induction false} MessagesMore(tokens: seq<Token>, more: seq<Token>)
    requires |more| <= 1
    ensures var a, b := Messages(tokens), Messages(tokens + more);
            if more == [] then b == a
            else b == a + [MessageOf(more[0])]
                 && Contents(b) == Contents(a) + MessageOf(more[0]).content
                 && Reasonings(b) == Reasonings(a) + MessageOf(more[0]).reasoning
                 && AllCalls(b) == AllCalls(a) + MessageOf(more[0]).calls
  {
    if more == [] {
      assert tokens + more == tokens;
    } else {
      assert Messages(tokens + more) == Messages(tokens) + [MessageOf(more[0])];
      FoldSnoc(Messages(tokens), MessageOf(more[0]));
    }
  }

  lemma {:induction false} TokensAreAssistants(reasoning: string, content: string, calls: seq<ToolCall>)
    ensures AssistantOnly(Messages(ResponseTokens(reasoning, content, calls)))
  {
  }

  lemma {:induction false} NothingAddsUp()
    ensures Contents(Messages([])) == "" && Reasonings(Messages([])) == "" && AllCalls(Messages([])) == []
    ensures JoinLines([]) == ""
  {
  }

  lemma {:induction false} ThoughtsJoin(reasoning: string)
    ensures JoinLines(ThoughtsOf(reasoning)) == TrimSpace(reasoning)
  {
  }

  lemma {:induction false} TokensAddUp(reasoning: string, content: string, calls: seq<ToolCall>)
    ensures AddsUp(Messages(ResponseTokens(reasoning, content, calls)), reasoning, content, calls)
  {
    TokensAreAssistants(reasoning, content, calls);
    ThoughtsJoin(reasoning);
    NothingAddsUp();
    hide Contents, Reasonings, AllCalls, Messages, AssistantOnly, TrimSpace, ThoughtsOf, JoinLines;
    var thoughts, t := ThoughtsOf(reasoning), TrimSpace(reasoning);
    var a := if content == "" then [] else [Regular("assistant", content, thoughts)];
    var b := if calls == [] then [] else [Batch(calls, if content == "" then thoughts else [])];
    var c := if content == "" && calls == [] && thoughts != [] then [Orphan(thoughts)] else [];
    assert [] + a == a;
    MessagesMore([], a);
    MessagesMore(a, b);
    MessagesMore(a + b, c);
    assert "" + t == t == t + "" && "" + content == content == content + "" && [] + calls == calls == calls + [];
  }

  // ----- The round trip -----

  function Prose(reasoning: string, content: string): seq<Item> {
    (if reasoning == "" then [] else [Reasoning(0, reasoning)]) + (if content == "" then [] else [Message(0, content)])
  }

  lemma {:induction false} OutputShape(m: Response.ChatMessage, output: seq<Item>)
    requires Response.AnonymousAll(output) == Response.MessageItems(m)
    ensures |m.calls| <= |output| && Sendable(output)
    ensures Response.AnonymousAll(output[..|output| - |m.calls|]) == Prose(Response.ReasoningText(m), m.content)
    ensures forall i :: |output| - |m.calls| <= i < |output| ==>
      output[i].FunctionCall?
        && Response.Anonymous(output[i]) == Response.CallItems(m.calls)[i - (|output| - |m.calls|)]
  {
    var all, prose := Response.AnonymousAll(output), Prose(Response.ReasoningText(m), m.content);
    assert all == prose + Response.CallItems(m.calls);
    var n := |prose|;
    forall i | 0 <= i < |output|
      ensures if i < n then Response.Anonymous(output[i]) == prose[i] && !output[i].FunctionCall?
              else
                && output[i].FunctionCall? && output[i].callId != NO_ID
                && Response.Anonymous(output[i]) == Response.CallItems(m.calls)[i - n]
    {
      assert Response.Anonymous(output[i]) == all[i];
    }
  }

  /** Reading one item more, or none. */
  lemma {:induction false} EchoMore(items: seq<Item>, more: seq<Item>, units: seq<Unit>)
    requires |more| <= 1 && (|more| == 1 ==> !more[0].FunctionCall?) && Units(Echoes(items)) == Success(units)
    ensures Units(Echoes(items + more)) == Success(units + if more == [] then [] else [UnitFor(more[0])])
  {
    if more == [] {
      assert items + more == items && units + [] == units;
    } else {
      assert more == [more[0]];
      EchoStep(items, more[0], units);
    }
  }

  lemma {:induction false} ProseSplit(reasoning: string, content: string, items: seq<Item>)
    requires Response.AnonymousAll(items) == Prose(reasoning, content)
    ensures |items| == |ReasoningUnit(reasoning)| + |ContentUnit(content)|
    ensures forall i :: 0 <= i < |items| ==> !items[i].FunctionCall?
    ensures reasoning != "" ==> [UnitFor(items[0])] == ReasoningUnit(reasoning)
    ensures content != "" ==> [UnitFor(items[|ReasoningUnit(reasoning)|])] == ContentUnit(content)
  {
    forall i | 0 <= i < |items|
      ensures Response.Anonymous(items[i]) == Prose(reasoning, content)[i]
    {
      assert Response.AnonymousAll(items)[i] == Response.Anonymous(items[i]);
    }
  }

  lemma {:induction false} EchoProse(reasoning: string, content: string, items: seq<Item>)
    requires Response.AnonymousAll(items) == Prose(reasoning, content)
    ensures Units(Echoes(items)) == Success(ReasoningUnit(reasoning) + ContentUnit(content))
  {
    ProseSplit(reasoning, content, items);
    var n := |ReasoningUnit(reasoning)|;
    EchoMore([], items[..n], []);
    assert [] + items[..n] == items[..n] && [] + ReasoningUnit(reasoning) == ReasoningUnit(reasoning);
    EchoMore(items[..n], items[n..], ReasoningUnit(reasoning));
    assert items[..n] + items[n..] == items;
  }

  lemma {:induction false} EchoBoth(reasoning: string, content: string, prose: seq<Item>, calls: seq<Item>)
    requires Response.AnonymousAll(prose) == Prose(reasoning, content)
    requires Sendable(calls) && forall i :: 0 <= i < |calls| ==> calls[i].FunctionCall?
    ensures Units(Echoes(prose + calls))
            == Success(ReasoningUnit(reasoning) + ContentUnit(content) + CallsUnit(CallsFor(calls)))
  {
    ProseSplit(reasoning, content, prose);
    EchoProse(reasoning, content, prose);
    EchoCalls(prose, calls, ReasoningUnit(reasoning) + ContentUnit(content));
  }

  lemma {:induction false} EchoResponse(m: Response.ChatMessage, output: seq<Item>, n: nat)
    requires Response.AnonymousAll(output) == Response.MessageItems(m)
    requires |m.calls| <= |output| && n == |output| - |m.calls|
    ensures forall i :: n <= i < |output| ==> output[i].FunctionCall?
    ensures Units(Echoes(output)) ==
            Success(ReasoningUnit(Response.ReasoningText(m)) + ContentUnit(m.content)
                    + CallsUnit(CallsFor(output[n..])))
  {
    OutputShape(m, output);
    EchoBoth(Response.ReasoningText(m), m.content, output[..n], output[n..]);
    assert output[..n] + output[n..] == output;
  }

  lemma {:induction false} ConvertedAs(items: seq<Option<InputItem>>, units: seq<Unit>, tokens: seq<Token>)
    requires Units(items) == Success(units) && Tokens(units) == tokens && Schedule(tokens) == tokens
    ensures Converted("", ItemsInput(items)) == Success(Messages(tokens))
  {
    assert [] + Messages(tokens) == Messages(tokens) && TrimSpace("") == "";
  }

  lemma {:induction false} EchoConverts(items: seq<Option<InputItem>>, reasoning: string, content: string,
                                        calls: seq<ToolCall>)
    requires Units(items) == Success(ReasoningUnit(reasoning) + ContentUnit(content) + CallsUnit(calls))
    ensures Converted("", ItemsInput(items)) == Success(Messages(ResponseTokens(reasoning, content, calls)))
  {
    hide Units, Tokens, Schedule, Converted, Messages, CallsUnit;
    ResponseAttaches(reasoning, content, calls);
    ScheduleShort(ResponseTokens(reasoning, content, calls));
    ConvertedAs(items, ReasoningUnit(reasoning) + ContentUnit(content) + CallsUnit(calls),
                ResponseTokens(reasoning, content, calls));
  }

  /** Fed back as input, the output of any response for message m becomes assistant
      messages that say what m said: its content, its reasoning up to surrounding
      white space, and its calls in order. */
  lemma {:induction false} RoundTrip(m: Response.ChatMessage, output: seq<Item>)
    requires Response.AnonymousAll(output) == Response.MessageItems(m)
    ensures |m.calls| <= |output|
    ensures forall i :: |output| - |m.calls| <= i < |output| ==> output[i].FunctionCall?
    ensures var r := Converted("", ItemsInput(Echoes(output)));
            r.Success? && AddsUp(r.value, Response.ReasoningText(m), m.content,
                                 CallsFor(output[|output| - |m.calls|..]))
  {
    hide *;
    OutputShape(m, output);
    var n := |output| - |m.calls|;
    EchoResponse(m, output, n);
    EchoConverts(Echoes(output), Response.ReasoningText(m), m.content, CallsFor(output[n..]));
    TokensAddUp(Response.ReasoningText(m), m.content, CallsFor(output[n..]));
  }

  /** Each returned call carries the name, arguments and, when the upstream gave one,
      the id of the call it came from. */
  lemma {:induction false} RoundTripCalls(m: Response.ChatMessage, output: seq<Item>, i: nat)
    requires Response.AnonymousAll(output) == Response.MessageItems(m) && i < |m.calls|
    ensures |m.calls| <= |output| && output[|output| - |m.calls| + i].FunctionCall?
    ensures var c := CallFor(output[|output| - |m.calls| + i]);
            && c.name == m.calls[i].name
            && c.arguments == (if m.calls[i].arguments == "" then "{}" else m.calls[i].arguments)
            && (if m.calls[i].id == "" then c.id.Minted? else c.id == Given(m.calls[i].id))
  {
    OutputShape(m, output);
    var k := |output| - |m.calls| + i;
    assert Response.Anonymous(output[k]) == Response.AnonymousAll(output)[k] == Response.CallItems(m.calls)[i];
  }
}
