/** The non-stream conversion, and its agreement with the stream. */
module ResponsesResponse {
  import opened Wrappers
  import opened ResponsesProtocol

  // ----- FromOpenAI -----

  datatype ChatCall = ChatCall(id: string, name: string, arguments: string)

  datatype ChatMessage = ChatMessage(reasoningContent: string, reasoning: string, content: string, calls: seq<ChatCall>)

  /** Token counts as the upstream sends them; cached ones in any of three places. */
  datatype ChatUsage = ChatUsage(prompt: int, completion: int, cacheRead: int, promptCached: Option<int>,
                                 inputCached: Option<int>)

  /** A decoded chat completion: at most the first choice matters. */
  datatype ChatResponse = ChatResponse(message: Option<ChatMessage>, finishReason: string, usage: Option<ChatUsage>)

  datatype Status = StatusCompleted | StatusIncomplete(reason: string)

  datatype UsagePayload = UsagePayload(input: int, output: int, total: int, cached: int)

  datatype Response = Response(id: nat, output: seq<Item>, outputText: string, status: Status, usage: UsagePayload)

  function ReasoningText(m: ChatMessage): string {
    if m.reasoningContent != "" then m.reasoningContent else m.reasoning
  }

  function StatusOf(finishReason: string): Status {
    if IsIncompleteFinish(finishReason) then StatusIncomplete(IncompleteReason(finishReason)) else StatusCompleted
  }

  /** The output items of a message, with identifiers erased. */
  function MessageItems(m: ChatMessage): seq<Item> {
    (if m.reasoningContent != "" then [Reasoning(0, m.reasoningContent)]
     else if m.reasoning != "" then [Reasoning(0, m.reasoning)] else [])
    + (if m.content == "" then [] else [Message(0, m.content)])
    + CallItems(m.calls)
  }

  function CallItems(calls: seq<ChatCall>): (r: seq<Item>)
    ensures |r| == |calls|
  {
    seq(|calls|, i requires 0 <= i < |calls| =>
      FunctionCall(0, if calls[i].id == "" then Minted(0) else Given(calls[i].id), calls[i].name, calls[i].arguments))
  }

  /** The first place that counts cached tokens wins. */
  function CachedTokens(u: ChatUsage): int {
    if u.cacheRead != 0 then u.cacheRead
    else if u.promptCached.Some? && u.promptCached.value > 0 then u.promptCached.value
    else if u.inputCached.Some? && u.inputCached.value > 0 then u.inputCached.value
    else 0
  }

  method PayloadOf(usage: Option<ChatUsage>) returns (p: UsagePayload)
    ensures usage.None? ==> p == UsagePayload(0, 0, 0, 0)
    ensures usage.Some? ==>
      p == UsagePayload(usage.value.prompt, usage.value.completion, usage.value.prompt + usage.value.completion,
                        CachedTokens(usage.value))
  {
    var input, output, cached := 0, 0, 0;
    if usage.Some? {
      var u := usage.value;
      input, output, cached := u.prompt, u.completion, u.cacheRead;
      if cached == 0 && u.promptCached.Some? && u.promptCached.value > 0 {
        cached := u.promptCached.value;
      }
      if cached == 0 && u.inputCached.Some? && u.inputCached.value > 0 {
        cached := u.inputCached.value;
      }
    }
    p := UsagePayload(input, output, input + output, cached);
  }

  /** The identifiers generated for an item. */
  function GeneratedFor(item: Item): seq<nat> {
    [item.id] + if item.FunctionCall? && item.callId.Minted? then [item.callId.serial] else []
  }

  function Generated(items: seq<Item>): seq<nat> {
    if |items| == 0 then [] else Generated(items[..|items| - 1]) + GeneratedFor(items[|items| - 1])
  }

  predicate Ascending(ids: seq<nat>) {
    forall i, j :: 0 <= i < j < |ids| ==> ids[i] < ids[j]
  }

  /** These identifiers ascend and are all used up. */
  predicate UsedUp(ids: seq<nat>, supply: nat) {
    Ascending(ids) && forall id :: id in ids ==> id < supply
  }

  lemma {:induction false} GeneratedSnoc(items: seq<Item>, item: Item, first: nat, before: nat, after: nat)
    requires UsedUp([first] + Generated(items), before) && UsedUp(GeneratedFor(item), after)
    requires before <= after && forall id :: id in GeneratedFor(item) ==> before <= id
    ensures UsedUp([first] + Generated(items + [item]), after)
  {
    var ids, more := [first] + Generated(items), GeneratedFor(item);
    assert (items + [item])[..|items|] == items;
    assert [first] + Generated(items + [item]) == ids + more;
    forall i, j | 0 <= i < j < |ids + more| ensures (ids + more)[i] < (ids + more)[j] {
      if i < |ids| <= j { assert ids[i] in ids && more[j - |ids|] in more; }
    }
  }

  /** An item without its generated identifiers. */
  function Anonymous(item: Item): Item {
    match item
    case Reasoning(_, text) => Reasoning(0, text)
    case Message(_, text) => Message(0, text)
    case FunctionCall(_, callId, name, arguments) =>
      FunctionCall(0, if callId.Minted? then Minted(0) else callId, name, arguments)
  }

  function AnonymousAll(items: seq<Item>): (r: seq<Item>)
    ensures |r| == |items|
  {
    seq(|items|, i requires 0 <= i < |items| => Anonymous(items[i]))
  }

  lemma {:induction false} AnonymousSnoc(items: seq<Item>, item: Item)
    ensures AnonymousAll(items + [item]) == AnonymousAll(items) + [Anonymous(item)]
  {
  }

  /** FromOpenAI: `parsed` is None when the body is not JSON.  The response and its items
      carry identifiers of their own, all different. */
  method FromOpenAI(parsed: Option<ChatResponse>) returns (r: Result<Response, string>)
    ensures r.Failure? <==> parsed.None?
    ensures r.Success? ==>
      && r.value.status == (
           if parsed.value.message.Some? && IsWord(parsed.value.finishReason, "length")
           then StatusIncomplete("max_output_tokens")
           else if parsed.value.message.Some? && IsWord(parsed.value.finishReason, "content_filter")
           then StatusIncomplete("content_filter") else StatusCompleted)
      && r.value.outputText == (if parsed.value.message.Some? then parsed.value.message.value.content else "")
      && AnonymousAll(r.value.output)
        == (if parsed.value.message.Some? then MessageItems(parsed.value.message.value) else [])
    ensures r.Success? ==> Ascending([r.value.id] + Generated(r.value.output))
    ensures r.Success? && parsed.value.usage.Some? ==>
      var u := parsed.value.usage.value;
      r.value.usage == UsagePayload(u.prompt, u.completion, u.prompt + u.completion, CachedTokens(u))
    ensures r.Success? && parsed.value.usage.None? ==> r.value.usage == UsagePayload(0, 0, 0, 0)
  {
    if parsed.None? {
      return Failure("invalid openai response");
    }
    hide UsedUp, Generated, IsWord, Lower, TrimSpace;
    LowerIsWord(parsed.value.finishReason, "length");
    LowerIsWord(parsed.value.finishReason, "content_filter");
    NoWord();
    var responseID, supply := 0, 1;
    var output: seq<Item> := [];
    NoItems(responseID, supply);
    var outputText, finishReason := "", "";
    if parsed.value.message.Some? {
      finishReason := parsed.value.finishReason;
      var message := parsed.value.message.value;
      output, supply := ProseItems(message, responseID, supply);
      outputText := message.content;
      ghost var prose := output;
      assert CallItems(message.calls[..0]) == [];
      for i := 0 to |message.calls|
        invariant AnonymousAll(output) == AnonymousAll(prose) + CallItems(message.calls[..i])
        invariant UsedUp([responseID] + Generated(output), supply)
      {
        var item;
        ghost var before := supply;
        item, supply := CallItem(message.calls[i], supply);
        AnonymousSnoc(output, item);
        GeneratedSnoc(output, item, responseID, before, supply);
        assert CallItems(message.calls[..i + 1]) == CallItems(message.calls[..i]) + [Anonymous(item)];
        Regroup(AnonymousAll(prose), CallItems(message.calls[..i]), [Anonymous(item)]);
        output := output + [item];
      }
      assert message.calls[..|message.calls|] == message.calls;
    }
    var status := StatusCompleted;
    if IsIncompleteFinish(finishReason) {
      status := StatusIncomplete(IncompleteReason(finishReason));
    }
    var usage := PayloadOf(parsed.value.usage);
    UsedUpAscends([responseID] + Generated(output), supply);
    r := Success(Response(responseID, output, outputText, status, usage));
  }

  lemma {:induction false} NoWord()
    ensures !IsIncompleteFinish("")
  {
  }

  lemma {:induction false} UsedUpAscends(ids: seq<nat>, supply: nat)
    requires UsedUp(ids, supply)
    ensures Ascending(ids)
  {
  }

  /** Reasoning first, then the message. */
  method ProseItems(message: ChatMessage, responseID: nat, supply: nat) returns (output: seq<Item>, next: nat)
    requires responseID < supply
    ensures AnonymousAll(output)
            == (if ReasoningText(message) == "" then [] else [Reasoning(0, ReasoningText(message))])
                                    + (if message.content == "" then [] else [Message(0, message.content)])
    ensures UsedUp([responseID] + Generated(output), next)
  {
    hide UsedUp, Generated;
    output, next := [], supply;
    NoItems(responseID, supply);
    if ReasoningText(message) != "" {
      TextAppended(output, Reasoning(next, ReasoningText(message)), responseID, next);
      output, next := output + [Reasoning(next, ReasoningText(message))], next + 1;
    }
    if message.content != "" {
      TextAppended(output, Message(next, message.content), responseID, next);
      output, next := output + [Message(next, message.content)], next + 1;
    }
  }

  lemma {:induction false} NoItems(responseID: nat, supply: nat)
    requires responseID < supply
    ensures UsedUp([responseID] + Generated([]), supply) && AnonymousAll([]) == []
  {
    assert [responseID] + Generated([]) == [responseID];
  }

  /** A text item takes one identifier. */
  lemma {:induction false} TextAppended(items: seq<Item>, item: Item, first: nat, supply: nat)
    requires UsedUp([first] + Generated(items), supply) && !item.FunctionCall? && item.id == supply
    ensures UsedUp([first] + Generated(items + [item]), supply + 1)
    ensures AnonymousAll(items + [item]) == AnonymousAll(items) + [Anonymous(item)]
  {
    AnonymousSnoc(items, item);
    GeneratedSnoc(items, item, first, supply, supply + 1);
  }

  /** A call keeps its raw arguments, and its id when it has one. */
  method CallItem(call: ChatCall, supply: nat) returns (item: Item, next: nat)
    ensures [Anonymous(item)] == CallItems([call])
    ensures supply <= next && UsedUp(GeneratedFor(item), next)
    ensures forall id :: id in GeneratedFor(item) ==> supply <= id
  {
    var callID := Given(call.id);
    next := supply + 1;
    if call.id == "" {
      callID := Minted(next);
      next := next + 1;
    }
    item := FunctionCall(supply, callID, call.name, call.arguments);
  }

  // ----- What a stream of deltas adds up to -----

  /** A tool call gathered from its deltas: the first id and name that are not
      empty.  `late` records that the id came after the first delta. */
  datatype Gathered = Gathered(index: int, id: string, late: bool, name: string, arguments: string)

  datatype Total = Total(reasoning: string, content: string, calls: seq<Gathered>, finishReason: string)

  function Indexes(calls: seq<Gathered>): (r: seq<int>)
    ensures |r| == |calls|
  {
    seq(|calls|, i requires 0 <= i < |calls| => calls[i].index)
  }

  function GatherInto(c: Gathered, d: ToolDelta): Gathered {
    c.(id := if c.id == "" then d.id else c.id,
       late := c.late || (c.id == "" && d.id != ""),
       name := if c.name == "" then d.name else c.name,
       arguments := c.arguments + d.arguments)
  }

  function Gather(calls: seq<Gathered>, d: ToolDelta): seq<Gathered> {
    var p := Position(Indexes(calls), d.index);
    if p < |calls| then calls[p := GatherInto(calls[p], d)]
    else calls + [Gathered(d.index, d.id, false, d.name, d.arguments)]
  }

  function GatherAll(calls: seq<Gathered>, ds: seq<ToolDelta>): seq<Gathered> {
    if |ds| == 0 then calls else Gather(GatherAll(calls, ds[..|ds| - 1]), ds[|ds| - 1])
  }

  function AddLine(t: Total, line: Line): Total {
    if !line.Chunk? then t
    else Total(t.reasoning + ReasoningOf(line), t.content + line.content, GatherAll(t.calls, line.calls),
               if line.finishReason != "" then line.finishReason else t.finishReason)
  }

  function Accumulate(lines: seq<Line>): Total {
    if |lines| == 0 then Total("", "", [], "") else AddLine(Accumulate(lines[..|lines| - 1]), lines[|lines| - 1])
  }

  /** The chat message an upstream would have sent instead of the deltas. */
  function MessageOf(t: Total): ChatMessage {
    ChatMessage(t.reasoning, "", t.content, ChatCalls(t.calls))
  }

  function ChatCalls(calls: seq<Gathered>): (r: seq<ChatCall>)
    ensures |r| == |calls|
  {
    seq(|calls|, i requires 0 <= i < |calls| => ChatCall(calls[i].id, calls[i].name, calls[i].arguments))
  }

  /** All reasoning first, then content, then tool deltas. */
  predicate InOrder(lines: seq<Line>) {
    && (forall i :: 0 <= i < |lines| ==> !lines[i].UpstreamError?)
    && (forall i, j :: 0 <= i < j < |lines| && lines[i].Chunk? && lines[j].Chunk? ==>
          && (ReasoningOf(lines[j]) != "" ==> lines[i].content == "" && lines[i].calls == [])
          && (lines[j].content != "" ==> lines[i].calls == []))
  }

  // ----- The stream follows the total -----

  function Prose(t: Total): nat {
    (if t.reasoning == "" then 0 else 1) + (if t.content == "" then 0 else 1)
  }

  predicate CallMatches(e: Entry, c: Gathered) {
    && e.kind == CallKind && e.name == c.name && Join(e.deltas) == c.arguments
    && (if c.late || c.id == "" then e.callId.Minted? else e.callId == Given(c.id))
  }

  predicate ProseMatches(entries: seq<Entry>, t: Total)
    requires |entries| >= Prose(t)
  {
    && (t.reasoning != "" ==> entries[0].kind == ReasoningKind && Join(entries[0].deltas) == t.reasoning)
    && (t.content != ""
        ==> entries[Prose(t) - 1].kind == MessageKind && Join(entries[Prose(t) - 1].deltas) == t.content)
  }

  /** The stream state after deltas that add up to t. */
  ghost predicate Follows(s: Stream, t: Total) {
    && !s.finished && s.finishReason == t.finishReason
    && |s.entries| == Prose(t) + |t.calls|
    && ProseMatches(s.entries, t)
    && (forall j :: 0 <= j < |t.calls| ==> CallMatches(s.entries[Prose(t) + j], t.calls[j]))
    && s.active == Indexes(t.calls)
    && (if t.calls == [] then s.settled == (if Prose(t) == 0 then 0 else Prose(t) - 1) && !s.toolsStarted
        else s.settled == Prose(t) && s.toolsStarted)
  }

  lemma {:induction false} JoinOne(text: string)
    ensures Join([] + [text]) == text && Join([]) == ""
  {
    JoinSnoc([], text);
    assert "" + text == text;
  }

  lemma {:induction false} ReasoningFollows(s: Stream, t: Total, delta: string)
    requires Follows(s, t)
    requires delta != "" ==> t.content == "" && t.calls == []
    ensures Follows(AddReasoning(s, delta), t.(reasoning := t.reasoning + delta))
  {
    hide Flatten, ClosingBlocks, Opening, CallMatches, Join;
    if delta == "" {
      assert t.reasoning + delta == t.reasoning;
    } else if t.reasoning != "" {
      JoinSnoc(s.entries[0].deltas, delta);
    } else {
      JoinOne(delta);
    }
  }

  lemma {:induction false} TextFollows(s: Stream, t: Total, content: string)
    requires Follows(s, t)
    requires content != "" ==> t.calls == []
    ensures Follows(AddText(s, content), t.(content := t.content + content))
  {
    hide Flatten, ClosingBlocks, Opening, CallMatches, Join;
    if content == "" {
      assert t.content + content == t.content;
    } else if t.content != "" {
      JoinSnoc(s.entries[Prose(t) - 1].deltas, content);
    } else {
      JoinOne(content);
    }
  }

  lemma {:induction false} PositionIff(xs: seq<int>, x: int)
    ensures x in xs <==> Position(xs, x) < |xs|
    ensures x in xs ==> xs[Position(xs, x)] == x
  {
    if |xs| > 0 && xs[0] != x {
      PositionIff(xs[1..], x);
      assert x in xs <==> x in xs[1..];
    }
  }

  /** The total with the call of this delta present and named, before its
      arguments; and the position of that call. */
  function Ready(t: Total, d: ToolDelta): Total {
    t.(calls := Gather(t.calls, d.(arguments := "")))
  }

  function Place(t: Total, d: ToolDelta): (p: nat)
    ensures p < |Ready(t, d).calls|
  {
    Position(Indexes(t.calls), d.index)
  }

  function Extend(t: Total, p: nat, text: string): Total
    requires p < |t.calls|
  {
    t.(calls := t.calls[p := t.calls[p].(arguments := t.calls[p].arguments + text)])
  }

  lemma {:induction false} GatherInTwo(t: Total, d: ToolDelta)
    ensures t.(calls := Gather(t.calls, d)) == Extend(Ready(t, d), Place(t, d), d.arguments)
    ensures d.arguments == "" ==> t.(calls := Gather(t.calls, d)) == Ready(t, d)
  {
    var p := Place(t, d);
    if p < |t.calls| {
      assert t.calls[p].arguments + "" == t.calls[p].arguments;
      assert Ready(t, d).calls[p] == GatherInto(t.calls[p], d.(arguments := ""));
    } else {
      assert "" + d.arguments == d.arguments;
    }
    assert Gather(t.calls, d) == Extend(Ready(t, d), p, d.arguments).calls;
  }

  lemma {:induction false} SettleForNewCall(s: Stream, t: Total)
    requires Follows(s, t)
    ensures var b := if Open(s, CallKind) then s else Settle(s);
            b.entries == s.entries && b.settled == Prose(t) && b.active == Indexes(t.calls) && !b.finished
              && b.finishReason == s.finishReason
  {
    if t.calls == [] {
      assert |Indexes(t.calls)| == 0;
      assert !Open(s, CallKind);
    } else {
      assert CallMatches(s.entries[Prose(t) + 0], t.calls[0]);
    }
  }

  /** Adding one call on both sides. */
  lemma {:induction false} AppendFollows(s: Stream, t: Total, r: Stream, e: Entry, c: Gathered)
    requires Follows(s, t) && CallMatches(e, c)
    requires r.entries == s.entries + [e] && r.active == s.active + [c.index] && r.settled == Prose(t)
    requires !r.finished && r.finishReason == s.finishReason && r.toolsStarted
    ensures Follows(r, t.(calls := t.calls + [c]))
  {
    var u := t.(calls := t.calls + [c]);
    assert Indexes(u.calls) == Indexes(t.calls) + [c.index];
    forall j | 0 <= j < |u.calls|
      ensures CallMatches(r.entries[Prose(t) + j], u.calls[j])
    {
      if j < |t.calls| { assert CallMatches(s.entries[Prose(t) + j], t.calls[j]); }
    }
  }

  lemma {:induction false} NewCallFields(s: Stream, d: ToolDelta)
    requires !Known(s, d)
    ensures var b := if Open(s, CallKind) then s else Settle(s); var r := CallReady(s, d);
            && r.entries == b.entries + [NewCall(b, d)] && r.active == b.active + [d.index] && r.settled == b.settled
            && r.finished == b.finished && r.finishReason == b.finishReason && r.toolsStarted
  {
    hide Settle;
  }

  lemma {:induction false} NewCallFollows(s: Stream, t: Total, d: ToolDelta)
    requires Follows(s, t) && d.index !in s.active
    ensures Follows(CallReady(s, d), Ready(t, d)) && CallSlot(s, d) == Prose(t) + Place(t, d)
  {
    PositionIff(s.active, d.index);
    SettleForNewCall(s, t);
    NewCallFields(s, d);
    var e := NewCall(if Open(s, CallKind) then s else Settle(s), d);
    var c := Gathered(d.index, d.id, false, d.name, "");
    assert Ready(t, d).calls == t.calls + [c];
    JoinOne("");
    hide CallReady, Settle;
    assert CallMatches(e, c);
    AppendFollows(s, t, CallReady(s, d), e, c);
  }

  lemma {:induction false} FollowsActive(s: Stream, t: Total)
    requires Follows(s, t)
    ensures s.active == Indexes(t.calls)
  {
  }

  lemma {:induction false} FollowsCall(s: Stream, t: Total, j: nat)
    requires Follows(s, t) && j < |t.calls|
    ensures |s.entries| == Prose(t) + |t.calls| && CallMatches(s.entries[Prose(t) + j], t.calls[j])
  {
  }

  lemma {:induction false} BackfillMatches(e: Entry, c: Gathered, d: ToolDelta)
    requires CallMatches(e, c)
    ensures CallMatches(Backfill(e, d), GatherInto(c, d.(arguments := ""))) && GatherInto(c, d).index == c.index
    ensures GatherInto(c, d.(arguments := "")).index == c.index
  {
    assert c.arguments + "" == c.arguments;
  }

  lemma {:induction false} KnownReady(s: Stream, t: Total, d: ToolDelta)
    requires Follows(s, t) && d.index in s.active && Position(s.active, d.index) < |t.calls|
    requires s.active == Indexes(t.calls) && |s.entries| == Prose(t) + |t.calls|
    ensures var p := Place(t, d);
            && Known(s, d) && SlotOf(s, d.index) == Prose(t) + p && CallSlot(s, d) == Prose(t) + p
            && CallReady(s, d) == s.(entries := s.entries[Prose(t) + p := Backfill(s.entries[Prose(t) + p], d)])
            && Ready(t, d) == t.(calls := t.calls[p := GatherInto(t.calls[p], d.(arguments := ""))])
  {
    hide Backfill, GatherInto;
  }

  lemma {:induction false} KnownCallFollows(s: Stream, t: Total, d: ToolDelta)
    requires Follows(s, t) && d.index in s.active
    ensures Follows(CallReady(s, d), Ready(t, d)) && CallSlot(s, d) == Prose(t) + Place(t, d)
  {
    hide Follows, CallMatches, Backfill, GatherInto;
    FollowsActive(s, t);
    PositionIff(s.active, d.index);
    var p := Place(t, d);
    FollowsCall(s, t, p);
    BackfillMatches(s.entries[Prose(t) + p], t.calls[p], d);
    KnownReady(s, t, d);
    ReplaceFollows(s, t, p, Backfill(s.entries[Prose(t) + p], d), GatherInto(t.calls[p], d.(arguments := "")), s.log);
  }

  /** Changing one call on both sides. */
  lemma {:induction false} ReplaceFollows(s: Stream, t: Total, p: nat, e: Entry, c: Gathered, log: seq<Payload>)
    requires Follows(s, t) && p < |t.calls| && CallMatches(e, c) && c.index == t.calls[p].index
    ensures Follows(s.(log := log, entries := s.entries[Prose(t) + p := e]), t.(calls := t.calls[p := c]))
  {
    hide CallMatches;
    assert Indexes(t.calls[p := c]) == Indexes(t.calls);
    var entries, calls := s.entries[Prose(t) + p := e], t.calls[p := c];
    forall j | 0 <= j < |calls|
      ensures CallMatches(entries[Prose(t) + j], calls[j])
    {
      if j != p { assert CallMatches(s.entries[Prose(t) + j], t.calls[j]); }
    }
  }

  lemma {:induction false} PushCallFollows(s: Stream, t: Total, p: nat, text: string)
    requires Follows(s, t) && p < |t.calls|
    ensures Follows(Push(s, Prose(t) + p, text), Extend(t, p, text))
  {
    var e := s.entries[Prose(t) + p];
    assert CallMatches(e, t.calls[p]);
    JoinSnoc(e.deltas, text);
    var log := Push(s, Prose(t) + p, text).log;
    ReplaceFollows(s, t, p, e.(deltas := e.deltas + [text]), t.calls[p].(arguments := t.calls[p].arguments + text),
                   log);
    assert Push(s, Prose(t) + p, text) == s.(log := log, entries := Push(s, Prose(t) + p, text).entries);
  }

  lemma {:induction false} ReadyFollows(s: Stream, t: Total, d: ToolDelta)
    requires Follows(s, t)
    ensures Follows(CallReady(s, d), Ready(t, d)) && CallSlot(s, d) == Prose(t) + Place(t, d)
  {
    if d.index in s.active { KnownCallFollows(s, t, d); } else { NewCallFollows(s, t, d); }
  }

  lemma {:induction false} CallFollows(s: Stream, t: Total, d: ToolDelta)
    requires Follows(s, t)
    ensures Follows(AddCall(s, d), t.(calls := Gather(t.calls, d)))
  {
    hide Follows, CallReady, Gather, CallSlot, Place;
    ReadyFollows(s, t, d);
    GatherInTwo(t, d);
    if d.arguments != "" {
      PushCallFollows(CallReady(s, d), Ready(t, d), Place(t, d), d.arguments);
    }
  }

  lemma {:induction false} CallsFollow(s: Stream, t: Total, ds: seq<ToolDelta>)
    requires Follows(s, t)
    ensures Follows(AddCalls(s, ds), t.(calls := GatherAll(t.calls, ds)))
  {
    if |ds| > 0 {
      CallsFollow(s, t, ds[..|ds| - 1]);
      CallFollows(AddCalls(s, ds[..|ds| - 1]), t.(calls := GatherAll(t.calls, ds[..|ds| - 1])), ds[|ds| - 1]);
    }
  }

  lemma {:induction false} ReasonFollows(s: Stream, t: Total, reason: string)
    requires Follows(s, t)
    ensures Follows(s.(finishReason := reason), t.(finishReason := reason))
  {
  }

  lemma {:induction false} DeltasFollow(s: Stream, t: Total, reasoning: string, content: string, ds: seq<ToolDelta>)
    requires Follows(s, t)
    requires reasoning != "" ==> t.content == "" && t.calls == []
    requires content != "" ==> t.calls == []
    ensures Follows(AddCalls(AddText(AddReasoning(s, reasoning), content), ds),
                    Total(t.reasoning + reasoning, t.content + content, GatherAll(t.calls, ds), t.finishReason))
  {
    var s1, t1 := AddReasoning(s, reasoning), t.(reasoning := t.reasoning + reasoning);
    assert Follows(s1, t1) by { ReasoningFollows(s, t, reasoning); }
    var s2, t2 := AddText(s1, content), t1.(content := t.content + content);
    assert Follows(s2, t2) by { TextFollows(s1, t1, content); }
    CallsFollow(s2, t2, ds);
  }

  lemma {:induction false} LineFollows(s: Stream, t: Total, line: Line)
    requires Follows(s, t) && !line.UpstreamError?
    requires line.Chunk? && ReasoningOf(line) != "" ==> t.content == "" && t.calls == []
    requires line.Chunk? && line.content != "" ==> t.calls == []
    ensures Follows(Consume(s, line), AddLine(t, line))
  {
    if line.Chunk? {
      DeltasFollow(s, t, ReasoningOf(line), line.content, line.calls);
      if line.finishReason != "" {
        ReasonFollows(AddCalls(AddText(AddReasoning(s, ReasoningOf(line)), line.content), line.calls),
                      AddLine(t, line).(finishReason := t.finishReason), line.finishReason);
      }
    }
  }

  /** Nothing was added when no line had anything to add. */
  lemma {:induction false} AccumulateNothing(lines: seq<Line>)
    ensures (forall i :: 0 <= i < |lines| && lines[i].Chunk? ==> lines[i].content == "")
            ==> Accumulate(lines).content == ""
    ensures (forall i :: 0 <= i < |lines| && lines[i].Chunk? ==> lines[i].calls == []) ==> Accumulate(lines).calls == []
  {
    if |lines| > 0 { AccumulateNothing(lines[..|lines| - 1]); }
  }

  /** What an ordered sequence of lines may still add at its end. */
  lemma {:induction false} OrderedStep(lines: seq<Line>)
    requires InOrder(lines) && |lines| > 0
    ensures var n := |lines| - 1; var t := Accumulate(lines[..n]);
            && InOrder(lines[..n])
            && (lines[n].Chunk? && ReasoningOf(lines[n]) != "" ==> t.content == "" && t.calls == [])
            && (lines[n].Chunk? && lines[n].content != "" ==> t.calls == [])
  {
    AccumulateNothing(lines[..|lines| - 1]);
  }
}
