/** The conversion item by item and message by message: what a readable list of items becomes,
    without the passes in between. */
module ResponsesMessages {
  import opened Wrappers
  import opened ResponsesProtocol
  import opened ResponsesRequest
  import opened ResponsesConversation

  // ----- What the items stand for, by the names they carry -----

  predicate IsText(kind: string) {
    kind == "text" || kind == "input_text" || kind == "output_text" || kind == "summary_text"
  }

  predicate IsMessage(item: InputItem) { item.kind == MessageType || (item.kind == NoType && item.role != "") }

  /** Missing content, a string, and parts of the four text kinds can be read. */
  predicate HasText(content: Content) {
    content.Absent? || content.Plain? || (content.Parts? && forall p :: p in content.parts ==> IsText(p.kind))
  }

  function TextOf(content: Content): string {
    match content
    case Plain(text) => text
    case Parts(parts) => Join(Texts(parts))
    case _ => ""
  }

  /** The parts of a reasoning that are texts or name no kind. */
  function Sayable(parts: seq<Part>): seq<Part> {
    if |parts| == 0 then []
    else
      var last := parts[|parts| - 1];
      Sayable(parts[..|parts| - 1]) + if IsText(last.kind) || last.kind == "" then [last] else []
  }

  function ThoughtIn(content: Content): string {
    if content.Plain? then content.text else if content.Parts? then Join(Texts(Sayable(content.parts))) else ""
  }

  /** Every item but a message of unreadable content or an unknown kind can be read. */
  predicate CanRead(item: Option<InputItem>) {
    item.Some? &&
    (if IsMessage(item.value) then HasText(item.value.content)
     else item.value.kind == ReasoningType || item.value.kind == CallType || item.value.kind == OutputType)
  }

  /** The role a message goes out with. */
  function SpeakerOf(item: InputItem): string {
    if item.role == "" then "user" else if item.role == "developer" then "system" else item.role
  }

  predicate IsCall(item: Option<InputItem>) { item.Some? && item.value.kind == CallType }

  /** The reasoning waiting after these items: the texts that are not blank since the last
      assistant message or call, a line for each. */
  function Waiting(items: seq<Option<InputItem>>): string {
    if |items| == 0 then ""
    else
      var before, last := Waiting(items[..|items| - 1]), items[|items| - 1];
      if last.None? then before
      else if IsMessage(last.value) then if SpeakerOf(last.value) == "assistant" then "" else before
      else if last.value.kind == CallType then ""
      else if last.value.kind == ReasoningType then
        var text := TrimSpace(ThoughtIn(last.value.summary) + ThoughtIn(last.value.content));
        if text == "" then before else if before == "" then text else before + "\n" + text
      else before
  }

  /** The call of an item: an id of its own if it has none, no arguments as an empty object. */
  function CallIn(item: InputItem, position: nat): ToolCall {
    ToolCall(if item.callId == Given("") then Minted(position) else item.callId, item.name,
             if item.arguments == "" then "{}" else item.arguments)
  }

  /** The messages the items stand for, in their order: one for each message item, an assistant
      carrying the waiting reasoning; one for each maximal run of calls, with the reasoning
      that waited; one for each answer. */
  function SaidOf(items: seq<Option<InputItem>>): seq<ChatMessage> {
    if |items| == 0 then []
    else
      var front, last := items[..|items| - 1], items[|items| - 1];
      var before, n := SaidOf(front), |SaidOf(front)|;
      if last.None? then before
      else if IsMessage(last.value) then
        var speaker := SpeakerOf(last.value);
        before + [ChatMessage(speaker, TextOf(last.value.content), [], NO_ID,
                              if speaker == "assistant" then Waiting(front) else "")]
      else if last.value.kind == CallType then
        var c := CallIn(last.value, |front|);
        if |front| > 0 && IsCall(front[|front| - 1]) && n > 0 then
          before[n - 1 := before[n - 1].(calls := before[n - 1].calls + [c])]
        else before + [ChatMessage("assistant", "", [c], NO_ID, Waiting(front))]
      else if last.value.kind == OutputType then
        before + [ChatMessage("tool", last.value.output, [], last.value.callId, "")]
      else before
  }

  /** Reasoning that no item takes goes out in a message of its own. */
  function LeftoverOf(items: seq<Option<InputItem>>): seq<ChatMessage> {
    if Waiting(items) == "" then [] else [ChatMessage("assistant", "", [], NO_ID, Waiting(items))]
  }

  // ----- What reading makes of an item -----

  lemma {:induction false} PartsJoin(parts: seq<Part>)
    ensures ReasoningParts(parts) == Join(Texts(Sayable(parts)))
  {
    if |parts| > 0 {
      var front, last := parts[..|parts| - 1], parts[|parts| - 1];
      PartsJoin(front);
      assert Texts(Sayable(front) + [last]) == Texts(Sayable(front)) + [last.text];
      JoinSnoc(Texts(Sayable(front)), last.text);
      assert Sayable(front) + [] == Sayable(front);
    }
  }

  /** Reading a content gives its text, or fails. */
  lemma {:induction false} ContentReads(content: Content)
    ensures Flattened(content).Success? <==> HasText(content)
    ensures HasText(content) ==> Flattened(content) == Success(TextOf(content))
    ensures FieldText(content) == ThoughtIn(content)
  {
    if content.Parts? {
      PartsJoin(content.parts);
      assert forall j :: 0 <= j < |content.parts| ==> content.parts[j] in content.parts;
    }
  }

  /** What every item is read as. */
  lemma {:induction false} ItemReads(item: InputItem, position: nat)
    ensures KindOf(item) == (if IsMessage(item) then MessageType else item.kind) && RoleOf(item) == SpeakerOf(item)
    ensures CallOf(item, position) == CallIn(item, position)
    ensures ExtractReasoningText(item) == ThoughtIn(item.summary) + ThoughtIn(item.content)
    ensures UnitOf(item, position).Success? <==> CanRead(Some(item))
  {
    ContentReads(item.summary);
    ContentReads(item.content);
  }

  // ----- Kinds of messages -----

  predicate IsPlain(m: ChatMessage) { m.calls == [] && m.role != "tool" }

  predicate HasCalls(m: ChatMessage) { m.calls != [] }

  predicate NotPlain(m: ChatMessage) { !IsPlain(m) }

  function Only(messages: seq<ChatMessage>, p: ChatMessage -> bool): seq<ChatMessage> {
    if |messages| == 0 then []
    else
      var last := messages[|messages| - 1];
      Only(messages[..|messages| - 1], p) + if p(last) then [last] else []
  }

  /** An id up to white space. */
  function Stripped(id: CallId): CallId { if id.Given? then Given(TrimSpace(id.text)) else id }

  /** The call ids opened and not answered yet, up to white space. */
  function Unanswered(messages: seq<ChatMessage>): set<CallId> {
    if |messages| == 0 then {}
    else
      var before, last := Unanswered(messages[..|messages| - 1]), messages[|messages| - 1];
      if Stripped(last.toolCallId) == Given("") then
        before + set i | 0 <= i < |last.calls| && Stripped(last.calls[i].id) != Given("") :: Stripped(last.calls[i].id)
      else before - {Stripped(last.toolCallId)}
  }

  /** The call ids an answer is awaited for: as the calls have them, answered up to white space. */
  function Awaited(messages: seq<ChatMessage>): set<CallId> {
    if |messages| == 0 then {}
    else AwaitedAfter(Awaited(messages[..|messages| - 1]), messages[|messages| - 1])
  }

  function AwaitedAfter(before: set<CallId>, m: ChatMessage): set<CallId> {
    before - {Stripped(m.toolCallId)}
      + set i | 0 <= i < |m.calls| && Stripped(m.calls[i].id) != Given("") :: m.calls[i].id
  }

  predicate NoToolItems(items: seq<Option<InputItem>>) {
    forall i :: 0 <= i < |items| && items[i].Some? && IsMessage(items[i].value)
      ==> SpeakerOf(items[i].value) != "tool"
  }

  // ----- The passes in between -----

  predicate FullBatches(tokens: seq<Token>) {
    forall t :: t in tokens && t.Batch? ==> t.calls != []
  }

  predicate NoToolSpeech(tokens: seq<Token>) {
    forall t :: t in tokens && t.Regular? ==> t.role != "tool"
  }

  lemma {:induction false} OnlySnoc(messages: seq<ChatMessage>, m: ChatMessage, p: ChatMessage -> bool)
    ensures Only(messages + [m], p) == Only(messages, p) + if p(m) then [m] else []
  {
    assert (messages + [m])[..|messages|] == messages;
  }

  lemma {:induction false} MessagesSnoc(tokens: seq<Token>, t: Token)
    ensures Messages(tokens + [t]) == Messages(tokens) + [MessageOf(t)]
  {
  }

  /** Filtering messages of one group is filtering that group. */
  lemma {:induction false} OnlyGroup(tokens: seq<Token>, g: Group, p: ChatMessage -> bool)
    requires forall t :: t in tokens && p(MessageOf(t)) ==> GroupOf(t) == g
    ensures Only(Messages(tokens), p) == Only(Messages(Select(tokens, g)), p)
  {
    if |tokens| > 0 {
      var front, last := tokens[..|tokens| - 1], tokens[|tokens| - 1];
      assert tokens == front + [last];
      OnlyGroup(front, g, p);
      MessagesSnoc(front, last);
      OnlySnoc(Messages(front), MessageOf(last), p);
      if GroupOf(last) == g {
        MessagesSnoc(Select(front, g), last);
        OnlySnoc(Messages(Select(front, g)), MessageOf(last), p);
      } else {
        assert Select(front, g) + [] == Select(front, g);
      }
    }
  }

  // ----- Reading and attaching, item by item -----

  predicate NoBlank(texts: seq<string>) {
    forall i :: 0 <= i < |texts| ==> texts[i] != ""
  }

  lemma {:induction false} LinesSnoc(texts: seq<string>, text: string)
    requires NoBlank(texts)
    ensures JoinLines(texts) == "" <==> texts == []
    ensures JoinLines(texts + [text]) == if texts == [] then text else JoinLines(texts) + "\n" + text
  {
    assert (texts + [text])[..|texts|] == texts;
  }

  /** These tokens say what these items stand for. */
  ghost predicate Mirrors(a: Attached, items: seq<Option<InputItem>>) {
    && Messages(a.tokens) == SaidOf(items) && JoinLines(a.pending) == Waiting(items) && NoBlank(a.pending)
    && FullBatches(a.tokens) && (NoToolItems(items) ==> NoToolSpeech(a.tokens))
  }

  lemma {:induction false} ItemsSnoc(items: seq<Option<InputItem>>, x: Option<InputItem>)
    ensures (items + [x])[..|items|] == items && (items + [x])[|items|] == x
    ensures NoToolItems(items + [x]) ==> NoToolItems(items)
    ensures NoToolItems(items + [x]) && x.Some? && IsMessage(x.value) ==> SpeakerOf(x.value) != "tool"
  {
    var all := items + [x];
    assert all[|items|] == x && forall i :: 0 <= i < |items| ==> all[i] == items[i];
  }

  lemma {:induction false} SayMirrors(a: Attached, items: seq<Option<InputItem>>, item: InputItem)
    requires Mirrors(a, items) && IsMessage(item) && HasText(item.content)
    ensures Mirrors(AttachOne(a, Say(SpeakerOf(item), TextOf(item.content))), items + [Some(item)])
  {
    hide Messages, TextOf, HasText;
    var b := AttachOne(a, Say(SpeakerOf(item), TextOf(item.content)));
    ItemsSnoc(items, Some(item));
    MessagesSnoc(a.tokens, b.tokens[|a.tokens|]);
  }

  lemma {:induction false} ThinkMirrors(a: Attached, items: seq<Option<InputItem>>, item: InputItem)
    requires Mirrors(a, items) && !IsMessage(item) && item.kind == ReasoningType
    ensures Mirrors(AttachOne(a, Think(TrimSpace(ThoughtIn(item.summary) + ThoughtIn(item.content)))),
                    items + [Some(item)])
  {
    hide Messages, TrimSpace, ThoughtIn, JoinLines;
    ItemsSnoc(items, Some(item));
    LinesSnoc(a.pending, TrimSpace(ThoughtIn(item.summary) + ThoughtIn(item.content)));
  }

  lemma {:induction false} AnswerMirrors(a: Attached, items: seq<Option<InputItem>>, item: InputItem)
    requires Mirrors(a, items) && item.kind == OutputType
    ensures Mirrors(AttachOne(a, Answer(item.callId, item.output)), items + [Some(item)])
  {
    hide Messages;
    ItemsSnoc(items, Some(item));
    MessagesSnoc(a.tokens, Reply(item.callId, item.output));
  }

  /** A call after anything else starts a batch. */
  lemma {:induction false} CallMirrors(a: Attached, items: seq<Option<InputItem>>, item: InputItem)
    requires Mirrors(a, items) && item.kind == CallType && !(|items| > 0 && IsCall(items[|items| - 1]))
    ensures Mirrors(AttachOne(a, Calls([CallIn(item, |items|)])), items + [Some(item)])
  {
    hide Messages;
    ItemsSnoc(items, Some(item));
    MessagesSnoc(a.tokens, Batch([CallIn(item, |items|)], a.pending));
  }

  /** A call after a call joins its batch. */
  lemma {:induction false} NextCallMirrors(tokens: seq<Token>, calls: seq<ToolCall>, thoughts: seq<string>,
                                           items: seq<Option<InputItem>>, item: InputItem)
    requires Mirrors(Attached(tokens + [Batch(calls, thoughts)], []), items)
    requires item.kind == CallType && |items| > 0 && IsCall(items[|items| - 1])
    ensures Mirrors(Attached(tokens + [Batch(calls + [CallIn(item, |items|)], thoughts)], []), items + [Some(item)])
  {
    hide Messages;
    var longer := Batch(calls + [CallIn(item, |items|)], thoughts);
    ItemsSnoc(items, Some(item));
    MessagesSnoc(tokens, Batch(calls, thoughts));
    MessagesSnoc(tokens, longer);
    var said := SaidOf(items);
    assert said == Messages(tokens) + [MessageOf(Batch(calls, thoughts))];
    assert said[|said| - 1 := MessageOf(longer)] == Messages(tokens) + [MessageOf(longer)];
    assert FullBatches(tokens + [longer]) by {
      assert forall t :: t in tokens ==> t in tokens + [Batch(calls, thoughts)];
    }
  }

  ghost predicate EndsInCall(items: seq<Option<InputItem>>) { |items| > 0 && IsCall(items[|items| - 1]) }

  predicate EndsInCalls(units: seq<Unit>) { |units| > 0 && units[|units| - 1].Calls? }

  lemma {:induction false} UnitMirrors(units: seq<Unit>, items: seq<Option<InputItem>>, item: InputItem, u: Unit)
    requires Mirrors(Attach(units), items) && UnitOf(item, |items|) == Success(u)
    requires EndsInCall(items) <==> EndsInCalls(units)
    ensures Mirrors(Attach(Extend(units, u)), items + [Some(item)])
    ensures EndsInCall(items + [Some(item)]) <==> EndsInCalls(Extend(units, u))
  {
    hide Mirrors, Attach;
    var a := Attach(units);
    AttachSnoc(units, u);
    ItemReads(item, |items|);
    ContentReads(item.content);
    hide TrimSpace, ThoughtIn, HasText, TextOf, Flattened, ExtractReasoningText, CallIn;
    match KindOf(item)
    case MessageType => SayMirrors(a, items, item);
    case ReasoningType => ThinkMirrors(a, items, item);
    case OutputType => AnswerMirrors(a, items, item);
    case CallType =>
      if EndsInCalls(units) {
        var front, calls := units[..|units| - 1], units[|units| - 1].calls;
        assert units == front + [Calls(calls)];
        AttachSnoc(front, Calls(calls));
        AttachSnoc(front, Calls(calls + u.calls));
        NextCallMirrors(Attach(front).tokens, calls, Attach(front).pending, items, item);
      } else {
        CallMirrors(a, items, item);
      }
    case _ =>
  }

  lemma {:induction false} UnitsLast(items: seq<Option<InputItem>>) returns (u: Unit)
    requires Units(items).Success? && |items| > 0
    ensures var front, last := items[..|items| - 1], items[|items| - 1];
            && Units(front).Success? && last.Some? && UnitOf(last.value, |front|) == Success(u)
            && Units(items) == Success(Extend(Units(front).value, u)) && items == front + [Some(last.value)]
  {
    hide UnitOf, Extend;
    var n := |items| - 1;
    u := UnitOf(items[n].value, n).value;
  }

  lemma {:induction false} UnitsMirror(items: seq<Option<InputItem>>)
    requires Units(items).Success?
    ensures Mirrors(Attach(Units(items).value), items)
    ensures EndsInCall(items) <==> EndsInCalls(Units(items).value)
  {
    if |items| == 0 {
      NothingMirrors();
    } else {
      hide Units, UnitOf, Extend, Mirrors, Attach, EndsInCall, EndsInCalls;
      var front, last := items[..|items| - 1], items[|items| - 1];
      var u := UnitsLast(items);
      UnitsMirror(front);
      UnitMirrors(Units(front).value, front, last.value, u);
    }
  }

  lemma {:induction false} NothingMirrors()
    ensures Mirrors(Attach([]), [])
  {
  }

  // ----- The whole conversion -----

  /** The messages a list of items must become: what the items stand for, plain messages in
      their order, and calls with their answers in theirs; and as long as no answer is
      awaited, the first so many messages said are the first so many returned. */
  ghost predicate SaysAll(messages: seq<ChatMessage>, items: seq<Option<InputItem>>) {
    var said := SaidOf(items) + LeftoverOf(items);
    && multiset(messages) == multiset(said)
    && Only(messages, IsPlain) == Only(said, IsPlain) && Only(messages, HasCalls) == Only(said, HasCalls)
    && (NoToolItems(items) ==> Only(messages, NotPlain) == Only(said, NotPlain))
    && |messages| == |said|
    && forall n :: 0 <= n <= |said| && Awaited(said[..n]) == {} ==> multiset(messages[..n]) == multiset(said[..n])
  }

  /** A plain message stands where no call is unanswered, or only such messages follow. */
  ghost predicate AnswersFollowCalls(messages: seq<ChatMessage>) {
    && (forall i :: 0 <= i < |messages| && IsPlain(messages[i]) ==>
          || Unanswered(messages[..i]) == {}
          || forall j :: i <= j < |messages| ==> messages[j].calls == [] && messages[j].toolCallId == NO_ID)
    && (Unanswered(messages) == {} ==>
          forall i :: 0 <= i < |messages| && IsPlain(messages[i]) ==> Unanswered(messages[..i]) == {})
  }

  lemma {:induction false} UnansweredTokens(tokens: seq<Token>)
    ensures Unanswered(Messages(tokens)) == Outstanding(tokens) && NO_ID !in Outstanding(tokens)
  {
    if |tokens| > 0 {
      var front, last := tokens[..|tokens| - 1], tokens[|tokens| - 1];
      UnansweredTokens(front);
      assert tokens == front + [last];
      MessagesSnoc(front, last);
      assert (Messages(front) + [MessageOf(last)])[..|front|] == Messages(front);
      NoIdIsBlank();
      assert Keys([]) == {};
    }
  }

  lemma {:induction false} NoIdIsBlank()
    ensures Blank(NO_ID)
  {
  }

  lemma {:induction false} PlainTokens(tokens: seq<Token>, i: nat)
    requires FullBatches(tokens) && i < |tokens|
    ensures IsPlain(MessageOf(tokens[i])) ==> ResponsesConversation.Plain(tokens[i])
    ensures ResponsesConversation.Plain(tokens[i])
            ==> MessageOf(tokens[i]).calls == [] && MessageOf(tokens[i]).toolCallId == NO_ID
  {
    assert tokens[i] in tokens;
  }

  lemma {:induction false} ScheduledFollow(tokens: seq<Token>)
    requires FullBatches(tokens)
    ensures AnswersFollowCalls(Messages(Schedule(tokens)))
  {
    hide Schedule, Outstanding, Unanswered;
    var r := Schedule(tokens);
    ScheduledMembers(tokens);
    ToolAdjacency(tokens);
    UnansweredTokens(r);
    forall i | 0 <= i < |r|
      ensures Unanswered(Messages(r)[..i]) == Outstanding(r[..i])
    {
      assert Messages(r)[..i] == Messages(r[..i]);
      UnansweredTokens(r[..i]);
    }
    forall i | 0 <= i < |r|
      ensures IsPlain(Messages(r)[i]) ==> ResponsesConversation.Plain(r[i])
      ensures ResponsesConversation.Plain(r[i]) ==> Messages(r)[i].calls == [] && Messages(r)[i].toolCallId == NO_ID
    {
      PlainTokens(r, i);
    }
    if Outstanding(r) == {} { AllAnsweredAdjacency(tokens); }
  }

  lemma {:induction false} ScheduledMembers(tokens: seq<Token>)
    requires FullBatches(tokens)
    ensures FullBatches(Schedule(tokens))
  {
    SchedulePermutes(tokens);
    forall t | t in Schedule(tokens) && t.Batch? ensures t.calls != [] {
      assert t in multiset(Schedule(tokens)) && t in multiset(tokens);
    }
  }

  lemma {:induction false} TokensSay(items: seq<Option<InputItem>>)
    requires Units(items).Success?
    ensures var tokens := Tokens(Units(items).value);
            && Messages(tokens) == SaidOf(items) + LeftoverOf(items) && FullBatches(tokens)
            && (NoToolItems(items) ==> NoToolSpeech(tokens))
  {
    hide Messages, Units, Attach, JoinLines;
    var a := Attach(Units(items).value);
    UnitsMirror(items);
    LinesSnoc(a.pending, "");
    MessagesSnoc(a.tokens, Orphan(a.pending));
    assert SaidOf(items) + [] == SaidOf(items);
  }

  /** Scheduling keeps the plain messages and their order, and those of calls and answers. */
  lemma {:induction false} ScheduledSay(tokens: seq<Token>)
    requires FullBatches(tokens)
    ensures var body, said := Messages(Schedule(tokens)), Messages(tokens);
            && Only(body, IsPlain) == Only(said, IsPlain) && Only(body, HasCalls) == Only(said, HasCalls)
            && (NoToolSpeech(tokens) ==> Only(body, NotPlain) == Only(said, NotPlain))
  {
    hide Schedule, Select, Only;
    var r := Schedule(tokens);
    ScheduledMembers(tokens);
    ScheduleKeepsGroups(tokens, Plains);
    OnlyGroup(r, Plains, IsPlain);
    OnlyGroup(tokens, Plains, IsPlain);
    ScheduleKeepsGroups(tokens, Tools);
    OnlyGroup(r, Tools, HasCalls);
    OnlyGroup(tokens, Tools, HasCalls);
    if NoToolSpeech(tokens) {
      ScheduledNoTool(tokens);
      OnlyGroup(r, Tools, NotPlain);
      OnlyGroup(tokens, Tools, NotPlain);
    }
  }

  lemma {:induction false} ScheduledNoTool(tokens: seq<Token>)
    requires NoToolSpeech(tokens)
    ensures NoToolSpeech(Schedule(tokens))
  {
    SchedulePermutes(tokens);
    forall t | t in Schedule(tokens) && t.Regular? ensures t.role != "tool" {
      assert t in multiset(Schedule(tokens)) && t in multiset(tokens);
    }
  }

  // ----- No message waits longer than it must -----

  lemma {:induction false} AwaitedPlaced(tokens: seq<Token>)
    ensures Awaited(Messages(tokens)) == PlaceAll(tokens).awaiting && NO_ID !in PlaceAll(tokens).awaiting
  {
    if |tokens| > 0 {
      var front, last := tokens[..|tokens| - 1], tokens[|tokens| - 1];
      hide Messages, MessageOf, JoinLines, Awaited, PlaceAll, PlaceOne, Opened;
      AwaitedPlaced(front);
      assert tokens == front + [last];
      MessagesSnoc(front, last);
      AwaitedSnoc(Messages(front), MessageOf(last));
      PlaceSnoc(front, last);
      AwaitedOne(PlaceAll(front), last);
    } else {
      hide PlaceOne;
    }
  }

  lemma {:induction false} AwaitedSnoc(messages: seq<ChatMessage>, m: ChatMessage)
    ensures Awaited(messages + [m]) == AwaitedAfter(Awaited(messages), m)
  {
    assert (messages + [m])[..|messages|] == messages;
  }

  lemma {:induction false} AwaitedOne(p: Placed, t: Token)
    requires NO_ID !in p.awaiting
    ensures PlaceOne(p, t).awaiting == AwaitedAfter(p.awaiting, MessageOf(t)) && NO_ID !in PlaceOne(p, t).awaiting
  {
    hide JoinLines;
    NoIdIsBlank();
  }

  /** What was placed stays in place. */
  lemma {:induction false} PlacedPrefix(tokens: seq<Token>, n: nat)
    requires n <= |tokens|
    ensures PlaceAll(tokens[..n]).tokens <= PlaceAll(tokens).tokens
  {
    if n == |tokens| {
      assert tokens[..n] == tokens;
    } else {
      var front := tokens[..|tokens| - 1];
      assert front[..n] == tokens[..n];
      PlacedPrefix(front, n);
    }
  }

  lemma {:induction false} ScheduleCuts(tokens: seq<Token>, n: nat)
    requires n <= |tokens| && PlaceAll(tokens[..n]).awaiting == {}
    ensures n <= |Schedule(tokens)| && multiset(Schedule(tokens)[..n]) == multiset(tokens[..n])
  {
    var p := PlaceAll(tokens[..n]);
    PlaceAllWell(tokens[..n]);
    SchedulePermutes(tokens[..n]);
    assert p.tokens + p.deferred == p.tokens;
    assert |multiset(p.tokens)| == |multiset(tokens[..n])|;
    PlacedPrefix(tokens, n);
    assert Schedule(tokens)[..n] == p.tokens;
  }

  /** Taking one token away takes its message away. */
  function Without(tokens: seq<Token>, i: nat): (r: seq<Token>)
    requires i < |tokens|
    ensures |r| == |tokens| - 1
  {
    tokens[..i] + tokens[i + 1..]
  }

  lemma {:induction false} WithoutOne(tokens: seq<Token>, i: nat)
    requires i < |tokens|
    ensures multiset(tokens) == multiset(Without(tokens, i)) + multiset{tokens[i]}
    ensures multiset(Messages(tokens)) == multiset(Messages(Without(tokens, i))) + multiset{MessageOf(tokens[i])}
  {
    var m, rest := Messages(tokens), Without(tokens, i);
    assert tokens == tokens[..i] + [tokens[i]] + tokens[i + 1..];
    assert m == m[..i] + [m[i]] + m[i + 1..] && Messages(rest) == m[..i] + m[i + 1..];
  }

  lemma {:induction false} MessagesPermute(a: seq<Token>, b: seq<Token>)
    requires multiset(a) == multiset(b)
    ensures multiset(Messages(a)) == multiset(Messages(b)) && |a| == |b|
  {
    assert |multiset(a)| == |multiset(b)|;
    if |a| > 0 {
      hide Messages, MessageOf, Without;
      assert a[0] in multiset(b);
      var i :| 0 <= i < |b| && b[i] == a[0];
      WithoutOne(a, 0);
      WithoutOne(b, i);
      Cancel(multiset(Without(a, 0)), multiset(Without(b, i)), a[0]);
      MessagesPermute(Without(a, 0), Without(b, i));
    }
  }

  lemma {:induction false} Cancel<T>(a: multiset<T>, b: multiset<T>, t: T)
    requires a + multiset{t} == b + multiset{t}
    ensures a == b
  {
    assert (a + multiset{t}) - multiset{t} == a && (b + multiset{t}) - multiset{t} == b;
  }

  lemma {:induction false} ScheduledCut(tokens: seq<Token>, n: nat)
    requires n <= |tokens| && Awaited(Messages(tokens)[..n]) == {}
    ensures n <= |Schedule(tokens)|
    ensures multiset(Messages(Schedule(tokens))[..n]) == multiset(Messages(tokens)[..n])
  {
    hide Schedule, PlaceAll, Awaited;
    assert Messages(tokens)[..n] == Messages(tokens[..n]);
    AwaitedPlaced(tokens[..n]);
    ScheduleCuts(tokens, n);
    MessagesPermute(Schedule(tokens)[..n], tokens[..n]);
    assert Messages(Schedule(tokens))[..n] == Messages(Schedule(tokens)[..n]);
  }

  lemma {:induction false} ScheduledAll(tokens: seq<Token>)
    ensures var body, said := Messages(Schedule(tokens)), Messages(tokens);
            && |body| == |said| && multiset(body) == multiset(said)
            && forall n :: 0 <= n <= |said| && Awaited(said[..n]) == {} ==> multiset(body[..n]) == multiset(said[..n])
  {
    hide Schedule, Awaited, Messages;
    SchedulePermutes(tokens);
    MessagesPermute(Schedule(tokens), tokens);
    var body, said := Messages(Schedule(tokens)), Messages(tokens);
    forall n | 0 <= n <= |said| && Awaited(said[..n]) == {} ensures multiset(body[..n]) == multiset(said[..n]) {
      ScheduledCut(tokens, n);
    }
  }

  /** The instructions come first, as one system message. */
  function SystemOf(instructions: string): seq<ChatMessage> {
    if TrimSpace(instructions) == "" then [] else [ChatMessage("system", TrimSpace(instructions), [], NO_ID, "")]
  }

  /** For every list of items: the conversion fails exactly if some item cannot be read;
      otherwise it returns, after the instructions, exactly what the items stand for, each
      kind in input order, and every answer directly with its calls. */
  lemma {:induction false} ConversationKept(instructions: string, items: seq<Option<InputItem>>)
    returns (body: seq<ChatMessage>)
    ensures Converted(instructions, ItemsInput(items)).Failure? <==> exists x :: x in items && !CanRead(x)
    ensures (forall x :: x in items ==> CanRead(x)) ==>
              && Converted(instructions, ItemsInput(items)) == Success(SystemOf(instructions) + body)
              && SaysAll(body, items) && AnswersFollowCalls(body)
  {
    hide Units, Tokens, Schedule, Messages, FullBatches, AnswersFollowCalls, UnitOf, CanRead, SaidOf, Only, Awaited;
    body := [];
    UnitsFailOnBadItem(items);
    forall i | 0 <= i < |items| ensures Readable(items, i) <==> CanRead(items[i]) { ReadableIff(items, i); }
    if forall x :: x in items ==> CanRead(x) {
      var tokens := Tokens(Units(items).value);
      body := Messages(Schedule(tokens));
      TokensSay(items);
      ScheduledSay(tokens);
      ScheduledAll(tokens);
      ScheduledFollow(tokens);
    }
  }

  lemma {:induction false} ReadableIff(items: seq<Option<InputItem>>, i: nat)
    requires i < |items|
    ensures Readable(items, i) <==> CanRead(items[i])
  {
    if items[i].Some? { ItemReads(items[i].value, i); }
  }

  /** The other inputs: none, one text of the user, or what is neither. */
  lemma {:induction false} PlainInputs(instructions: string, text: string)
    ensures Converted(instructions, NoInput) == Success(SystemOf(instructions))
    ensures Converted(instructions, TextInput(text)) ==
            Success(SystemOf(instructions) + [ChatMessage("user", text, [], NO_ID, "")])
    ensures Converted(instructions, BadInput).Failure?
  {
  }
}
