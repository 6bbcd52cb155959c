/** convertInput itself: one pass over the items with buffers for pending calls,
    pending reasoning and deferred messages. */
module ResponsesConvert {
  import opened Wrappers
  import opened ResponsesProtocol
  import opened ResponsesRequest

  /** The variables of the pass, as one record. */
  datatype Work = Work(
    messages: seq<ChatMessage>,
    pendingReasoning: string,
    awaiting: set<CallId>,
    deferred: seq<ChatMessage>,
    pendingCalls: seq<ToolCall>)

  /** What the variables must be after the units in `done`, with the calls of
      `tail` still buffered. */
  function WorkOf(system: seq<ChatMessage>, done: seq<Unit>, tail: seq<ToolCall>): Work {
    var a := Attach(done);
    var p := PlaceAll(a.tokens);
    Work(system + Messages(p.tokens), JoinLines(a.pending), p.awaiting, Messages(p.deferred), tail)
  }

  function Buffered(tail: seq<ToolCall>): seq<Unit> {
    if tail == [] then [] else [Calls(tail)]
  }

  predicate NoEmpty(texts: seq<string>) {
    forall i :: 0 <= i < |texts| ==> texts[i] != ""
  }

  lemma {:induction false} PendingNotEmpty(units: seq<Unit>)
    ensures NoEmpty(Attach(units).pending)
  {
    if |units| > 0 { PendingNotEmpty(units[..|units| - 1]); }
  }

  lemma {:induction false} JoinLinesEmpty(texts: seq<string>)
    requires NoEmpty(texts)
    ensures JoinLines(texts) == "" <==> texts == []
  {
  }

  lemma {:induction false} JoinLinesSnoc(texts: seq<string>, text: string)
    ensures JoinLines(texts + [text]) == if texts == [] then text else JoinLines(texts) + "\n" + text
  {
    assert (texts + [text])[..|texts|] == texts;
  }

  lemma {:induction false} MessagesAppend(a: seq<Token>, b: seq<Token>)
    ensures Messages(a + b) == Messages(a) + Messages(b)
  {
  }

  class Converter {
    var work: Work
    ghost const system: seq<ChatMessage>
    ghost var done: seq<Unit>

    ghost predicate Valid()
      reads this
    {
      work == WorkOf(system, done, work.pendingCalls)
    }

    /** Between items the last run of calls is in the buffer. */
    ghost predicate RunBuffered()
      reads this
    {
      work.pendingCalls == [] && |done| > 0 ==> !done[|done| - 1].Calls?
    }

    ghost function Units(): seq<Unit>
      reads this
    {
      done + Buffered(work.pendingCalls)
    }

    constructor (messages: seq<ChatMessage>)
      ensures Valid() && RunBuffered() && Units() == [] && work.pendingCalls == [] && system == messages
    {
      work := Work(messages, "", {}, [], []);
      system := messages;
      done := [];
      assert messages + [] == messages;
    }

    method AppendMessage(m: ChatMessage)
      modifies this`work
      ensures work == old(work).(messages := old(work.messages) + [m])
    {
      work := work.(messages := work.messages + [m]);
    }

    method TakePendingReasoning() returns (r: string)
      modifies this`work
      ensures r == old(work.pendingReasoning) && work == old(work).(pendingReasoning := "")
    {
      r := work.pendingReasoning;
      work := work.(pendingReasoning := "");
    }

    /** The buffered calls become one assistant message. */
    method FlushPendingToolCalls()
      requires Valid()
      modifies this
      ensures Valid() && work.pendingCalls == []
      ensures done == old(Units()) && Units() == old(Units())
    {
      if |work.pendingCalls| == 0 {
        assert done + [] == done;
        return;
      }
      BatchWork(system, done, work.pendingCalls);
      var calls := work.pendingCalls;
      var reasoning := TakePendingReasoning();
      AppendMessage(ChatMessage("assistant", "", calls, NO_ID, reasoning));
      var ids := CollectIDs(calls);
      work := work.(awaiting := work.awaiting + ids, pendingCalls := []);
      done := done + [Calls(calls)];
      assert done + [] == done;
    }

    method FlushDeferred()
      modifies this`work
      ensures work == old(work).(messages := old(work.messages) + old(work.deferred), deferred := [])
    {
      work := work.(messages := work.messages + work.deferred, deferred := []);
    }

    /** Other roles wait while answers are outstanding. */
    method AppendRegular(m: ChatMessage)
      modifies this`work
      ensures work == if old(work.awaiting) != {} then old(work).(deferred := old(work.deferred) + [m])
                      else old(work).(messages := old(work.messages) + [m])
    {
      if work.awaiting != {} {
        work := work.(deferred := work.deferred + [m]);
      } else {
        AppendMessage(m);
      }
    }

    method AppendPendingReasoning(text: string)
      modifies this`work
      ensures var t := TrimSpace(text);
              work == if t == "" then old(work)
                      else old(work).(pendingReasoning := if old(work.pendingReasoning) == "" then t
                                      else old(work.pendingReasoning) + "\n" + t)
    {
      var t := TrimSpace(text);
      if t == "" { return; }
      if work.pendingReasoning == "" {
        work := work.(pendingReasoning := t);
      } else {
        work := work.(pendingReasoning := work.pendingReasoning + "\n" + t);
      }
    }

    method ConvertMessage(role: string, content: string)
      requires Valid() && work.pendingCalls == []
      modifies this
      ensures Valid() && RunBuffered() && Units() == old(Units()) + [Say(role, content)]
    {
      hide WorkOf;
      SayWork(system, done, role, content);
      var m := ChatMessage(role, content, [], NO_ID, "");
      if role == "assistant" {
        var r := TakePendingReasoning();
        m := m.(reasoning := r);
      }
      AppendRegular(m);
      done := done + [Say(role, content)];
    }

    method ConvertReasoning(text: string)
      requires Valid() && work.pendingCalls == []
      modifies this
      ensures Valid() && RunBuffered() && Units() == old(Units()) + [Think(TrimSpace(text))]
    {
      hide WorkOf, TrimSpace;
      ThinkWork(system, done, TrimSpace(text));
      AppendPendingReasoning(text);
      done := done + [Think(TrimSpace(text))];
    }

    method ConvertCall(call: ToolCall)
      requires Valid() && RunBuffered()
      modifies this`work
      ensures Valid() && RunBuffered() && Units() == Extend(old(Units()), Calls([call]))
    {
      assert (done + Buffered(work.pendingCalls))[..|done|] == done;
      assert done + [] == done && [] + [call] == [call];
      work := work.(pendingCalls := work.pendingCalls + [call]);
    }

    method ConvertAnswer(id: CallId, output: string)
      requires Valid() && work.pendingCalls == []
      modifies this
      ensures Valid() && RunBuffered() && Units() == old(Units()) + [Answer(id, output)]
    {
      hide WorkOf;
      AnswerWork(system, done, id, output);
      hide WorkOf, KeyOf;
      assert done + [] == done && done + [Answer(id, output)] + [] == done + [Answer(id, output)];
      AppendMessage(ChatMessage("tool", output, [], id, ""));
      if !Blank(id) {
        work := work.(awaiting := work.awaiting - {KeyOf(id)});
      }
      if work.awaiting == {} && |work.deferred| > 0 {
        FlushDeferred();
      }
      done := done + [Answer(id, output)];
    }

    /** End of input: flush calls, give leftover reasoning an assistant of its own,
        flush the deferred messages. */
    method Close()
      requires Valid()
      modifies this
      ensures work.messages == system + Messages(Schedule(Tokens(old(Units()))))
    {
      FlushPendingToolCalls();
      EndWork(system, done);
      var r := TakePendingReasoning();
      if r != "" {
        AppendRegular(ChatMessage("assistant", "", [], NO_ID, r));
      }
      FlushDeferred();
    }
  }

  /** The ids that are not blank. */
  method CollectIDs(calls: seq<ToolCall>) returns (ids: set<CallId>)
    ensures ids == Opened(calls)
  {
    ids := {};
    for i := 0 to |calls|
      invariant ids == Opened(calls[..i])
    {
      OpenedSnoc(calls, i);
      if !Blank(calls[i].id) {
        ids := ids + {calls[i].id};
      }
    }
    assert calls[..|calls|] == calls;
  }

  lemma {:induction false} OpenedSnoc(calls: seq<ToolCall>, i: nat)
    requires i < |calls|
    ensures forall x :: x in Opened(calls[..i + 1]) <==> x in Opened(calls[..i]) || (x == calls[i].id && !Blank(x))
  {
    var a, b := calls[..i], calls[..i + 1];
    forall x
      ensures x in Opened(b) <==> x in Opened(a) || (x == calls[i].id && !Blank(x))
    {
      if x in Opened(a) {
        var j :| 0 <= j < |a| && !Blank(a[j].id) && a[j].id == x;
        assert b[j].id == x;
      }
      if x == calls[i].id && !Blank(x) { assert b[i].id == x; }
      if x in Opened(b) {
        var j :| 0 <= j < |b| && !Blank(b[j].id) && b[j].id == x;
        if j < i { assert a[j].id == x; }
      }
    }
  }

  lemma {:induction false} BatchWork(system: seq<ChatMessage>, done: seq<Unit>, calls: seq<ToolCall>)
    ensures var w := WorkOf(system, done, calls);
            WorkOf(system, done + [Calls(calls)], []) ==
            w.(messages := w.messages + [ChatMessage("assistant", "", calls, NO_ID, w.pendingReasoning)],
               pendingReasoning := "", awaiting := w.awaiting + Opened(calls), pendingCalls := [])
  {
    var a := Attach(done);
    AttachSnoc(done, Calls(calls));
    PlaceSnoc(a.tokens, Batch(calls, a.pending));
    MessagesAppend(PlaceAll(a.tokens).tokens, [Batch(calls, a.pending)]);
  }

  lemma {:induction false} SayWork(system: seq<ChatMessage>, done: seq<Unit>, role: string, content: string)
    ensures var w := WorkOf(system, done, []); var assistant := role == "assistant";
            var m := ChatMessage(role, content, [], NO_ID, if assistant then w.pendingReasoning else "");
            var v := if w.awaiting != {} then w.(deferred := w.deferred + [m]) else w.(messages := w.messages + [m]);
            WorkOf(system, done + [Say(role, content)], []) == if assistant then v.(pendingReasoning := "") else v
  {
    var a := Attach(done);
    var t := Regular(role, content, if role == "assistant" then a.pending else []);
    AttachSnoc(done, Say(role, content));
    PlaceSnoc(a.tokens, t);
    MessagesAppend(PlaceAll(a.tokens).tokens, [t]);
    MessagesAppend(PlaceAll(a.tokens).deferred, [t]);
  }

  lemma {:induction false} ThinkWork(system: seq<ChatMessage>, done: seq<Unit>, text: string)
    ensures var w := WorkOf(system, done, []);
            WorkOf(system, done + [Think(text)], []) ==
            if text == "" then w
            else w.(pendingReasoning := if w.pendingReasoning == "" then text else w.pendingReasoning + "\n" + text)
  {
    var a := Attach(done);
    AttachSnoc(done, Think(text));
    PendingNotEmpty(done);
    JoinLinesEmpty(a.pending);
    JoinLinesSnoc(a.pending, text);
  }

  lemma {:induction false} AnswerWork(system: seq<ChatMessage>, done: seq<Unit>, id: CallId, output: string)
    ensures var w := WorkOf(system, done, []);
            var m := ChatMessage("tool", output, [], id, "");
            var awaiting := if Blank(id) then w.awaiting else w.awaiting - {KeyOf(id)};
            WorkOf(system, done + [Answer(id, output)], []) ==
            if awaiting == {} then w.(messages := w.messages + [m] + w.deferred, awaiting := awaiting, deferred := [])
            else w.(messages := w.messages + [m], awaiting := awaiting)
  {
    var a := Attach(done);
    var p := PlaceAll(a.tokens);
    var t := Reply(id, output);
    AttachSnoc(done, Answer(id, output));
    PlaceSnoc(a.tokens, t);
    AppendThree(system, p.tokens, t, p.deferred);
  }

  lemma {:induction false} AppendThree(system: seq<ChatMessage>, a: seq<Token>, t: Token, b: seq<Token>)
    ensures system + Messages(a + [t]) == system + Messages(a) + [MessageOf(t)]
    ensures system + Messages(a + [t] + b) == system + Messages(a) + [MessageOf(t)] + Messages(b)
    ensures system + Messages(a + b) == system + Messages(a) + Messages(b)
    ensures system + Messages(a + (b + [t])) == system + Messages(a) + (Messages(b) + [MessageOf(t)])
  {
    MessagesAppend(a, [t]);
    MessagesAppend(a + [t], b);
    MessagesAppend(a, b);
    MessagesAppend(a, b + [t]);
    MessagesAppend(b, [t]);
    Regroup(system, Messages(a), [MessageOf(t)]);
    Regroup(system, Messages(a) + [MessageOf(t)], Messages(b));
    Regroup(system, Messages(a), Messages(b));
    Regroup(system, Messages(a), Messages(b) + [MessageOf(t)]);
  }

  lemma {:induction false} EndWork(system: seq<ChatMessage>, done: seq<Unit>)
    ensures var w := WorkOf(system, done, []);
            var m := ChatMessage("assistant", "", [], NO_ID, w.pendingReasoning);
            system + Messages(Schedule(Tokens(done))) ==
            if w.pendingReasoning == "" then w.messages + w.deferred
            else if w.awaiting != {} then w.messages + (w.deferred + [m])
            else w.messages + [m] + w.deferred
  {
    var a := Attach(done);
    var p := PlaceAll(a.tokens);
    PendingNotEmpty(done);
    JoinLinesEmpty(a.pending);
    var t := Orphan(a.pending);
    AppendThree(system, p.tokens, t, p.deferred);
    if a.pending != [] {
      PlaceSnoc(a.tokens, t);
    }
  }

  /** The one-pass conversion computes the separate passes, errors included. */
  method ConvertInput(instructions: string, input: Input) returns (r: Result<seq<ChatMessage>, string>)
    ensures r == Converted(instructions, input)
  {
    var messages: seq<ChatMessage> := [];
    if TrimSpace(instructions) != "" {
      messages := [ChatMessage("system", TrimSpace(instructions), [], NO_ID, "")];
    }
    match input
    case NoInput => r := Success(messages);
    case TextInput(text) => r := Success(messages + [ChatMessage("user", text, [], NO_ID, "")]);
    case BadInput => r := Failure("invalid input");
    case ItemsInput(items) => r := ConvertItems(messages, items);
  }

  method ConvertItems(system: seq<ChatMessage>, items: seq<Option<InputItem>>)
    returns (r: Result<seq<ChatMessage>, string>)
    ensures var units := ResponsesRequest.Units(items);
            r == if units.Failure? then Failure(units.error)
                 else Success(system + Messages(Schedule(Tokens(units.value))))
  {
    var converter := new Converter(system);
    for i := 0 to |items|
      invariant converter.Valid() && converter.RunBuffered() && converter.system == system
      invariant fresh(converter)
      invariant ResponsesRequest.Units(items[..i]) == Success(converter.Units())
    {
      assert items[..i + 1][..i] == items[..i];
      UnitsFail(items, i + 1);
      if items[i].None? {
        return Failure("invalid input item");
      }
      var error := ConvertItem(converter, items[i].value, i);
      if error.Some? {
        return Failure(error.value);
      }
    }
    assert items[..|items|] == items;
    converter.Close();
    r := Success(converter.work.messages);
  }

  /** A failure while reading is the failure of the whole list. */
  lemma {:induction false} UnitsFail(items: seq<Option<InputItem>>, n: nat)
    requires n <= |items|
    ensures var u := ResponsesRequest.Units(items[..n]); u.Failure? ==> ResponsesRequest.Units(items) == u
    decreases |items| - n
  {
    if n == |items| {
      assert items[..n] == items;
    } else {
      assert items[..n + 1][..n] == items[..n];
      UnitsFail(items, n + 1);
    }
  }

  method ConvertItem(converter: Converter, item: InputItem, position: nat) returns (error: Option<string>)
    requires converter.Valid() && converter.RunBuffered()
    modifies converter
    ensures UnitOf(item, position).Success? ==>
      error.None? && converter.Valid() && converter.RunBuffered()
        && converter.Units() == Extend(old(converter.Units()), UnitOf(item, position).value)
    ensures UnitOf(item, position).Failure? ==> error == Some(UnitOf(item, position).error)
  {
    hide WorkOf, Flattened, TrimSpace, ExtractReasoningText, RoleOf, CallOf;
    var kind := KindOf(item);
    if kind != CallType {
      converter.FlushPendingToolCalls();
    }
    error := None;
    match kind
    case MessageType =>
      var content := FlattenContent(item.content);
      if content.Failure? {
        return Some(content.error);
      }
      converter.ConvertMessage(RoleOf(item), content.value);
    case ReasoningType =>
      converter.ConvertReasoning(ExtractReasoningText(item));
    case CallType =>
      converter.ConvertCall(CallOf(item, position));
    case OutputType =>
      converter.ConvertAnswer(item.callId, item.output);
    case _ =>
      error := Some("unsupported input item type");
  }
}
