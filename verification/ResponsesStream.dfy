/** The stream adapter itself: mutable bookkeeping, one event written at a time
    to a client that may go away at any moment. */
module ResponsesStream {
  import opened Wrappers
  import opened SseWriter
  import opened ResponsesProtocol
  import Protocol = ResponsesProtocol
  import opened ResponsesLifecycle

  // ----- The client connection -----

  datatype Event = Event(sequence: nat, payload: Payload)

  /** The events of a log with their sequence numbers 1, 2, 3, ... */
  function Number(log: seq<Payload>): (r: seq<Event>)
    ensures |r| == |log|
  {
    seq(|log|, i requires 0 <= i < |log| => Event(i + 1, log[i]))
  }

  lemma NumberPrefix(a: seq<Payload>, b: seq<Payload>)
    requires a <= b
    ensures Number(a) <= Number(b)
  {
    forall i | 0 <= i < |a|
      ensures Number(a)[i] == Number(b)[i]
    {
      assert a[i] == b[i];
    }
  }

  type Writer = Connection<Event>

  /** The client went away with a proper prefix of the log. */
  ghost predicate CutLog(w: Writer, log: seq<Payload>)
    reads w
  {
    w.capacity == 0 && |w.log| < |log| && w.log <= Number(log)
  }

  /** The events that close an item of the given kind. */
  function DoneEvents(index: nat, kind: Kind, id: nat, text: string, item: Item): seq<Payload> {
    [ContentDone(index, kind, id, text)]
    + (if kind == CallKind then [] else [PartDone(index, kind, id, text)])
    + [ItemDone(index, item)]
  }

  // ----- The adapter state -----

  datatype ToolState = ToolState(itemID: Option<nat>, callID: CallId, name: string, args: string, outputIndex: nat)

  function ToolOf(e: Entry, k: nat): ToolState {
    ToolState(Some(e.id), e.callId, e.name, Join(e.deltas), k)
  }

  /** The fields of the adapter, as one record. */
  datatype Book = Book(
    sequence: nat,
    outputIdx: nat,
    messageOpen: bool,
    messageID: nat,
    textBuffer: string,
    reasoningOpen: bool,
    reasoningID: nat,
    reasoningIndex: nat,
    reasoningBuf: string,
    tools: map<int, ToolState>,
    toolsStarted: bool,
    outputItems: seq<Item>,
    finished: bool,
    lastFinishReason: string,
    usage: Usage,
    supply: nat)

  /** What the bookkeeping must be in a given protocol state. */
  function BookOf(s: Stream): Book {
    Book(
      |s.log|,
      if Open(s, ReasoningKind) || Open(s, MessageKind) then s.settled else |s.entries|,
      Open(s, MessageKind),
      if Open(s, MessageKind) then s.entries[s.settled].id else 0,
      if Open(s, MessageKind) then Join(s.entries[s.settled].deltas) else "",
      Open(s, ReasoningKind),
      if Open(s, ReasoningKind) then s.entries[s.settled].id else 0,
      if Open(s, ReasoningKind) then s.settled else 0,
      if Open(s, ReasoningKind) then Join(s.entries[s.settled].deltas) else "",
      ToolsOf(s),
      s.toolsStarted,
      Outputs(if s.settled <= |s.entries| then s.entries[..s.settled] else []),
      s.finished,
      s.finishReason,
      s.usage,
      s.supply)
  }

  function ToolsOf(s: Stream): map<int, ToolState> {
    map i | i in s.active && SlotOf(s, i) < |s.entries| :: ToolOf(s.entries[SlotOf(s, i)], SlotOf(s, i))
  }

  /** Close the open items when they are of the given kind. */
  function CloseIf(s: Stream, kind: Kind): (r: Stream)
    ensures s.log <= r.log
  {
    if Open(s, kind) then Settle(s) else s
  }

  class StreamState {
    var book: Book
    ghost var view: Stream

    /** The bookkeeping is that of the protocol state, and the client has received
        exactly its log. */
    ghost predicate Valid(w: Writer)
      reads this, w
    {
      OpenBlock(view) && w.log == Number(view.log) && book == BookOf(view)
    }

    /** Where a step that aimed at `target` has come to: all of it is out, or the
        client is gone and has a proper prefix. */
    ghost predicate Reached(w: Writer, target: Stream, ok: bool)
      reads this, w
    {
      if ok then Valid(w) && view == target else CutLog(w, target.log)
    }

    /** The client has exactly these events and the counter agrees. */
    ghost predicate Sent(w: Writer, log: seq<Payload>)
      reads this, w
    {
      w.log == Number(log) && book.sequence == |log|
    }

    /** The zero state, before anything is emitted. */
    constructor (usage: Usage)
      ensures book == BookOf(Start(usage)).(sequence := 0) && view == Start(usage)
    {
      book := Book(0, 0, false, 0, "", false, 0, 0, "", map[], false, [], false, "", usage, 0);
      view := Start(usage);
    }

    /** Number the next event and write it. */
    method Emit(w: Writer, p: Payload, ghost before: seq<Payload>) returns (ok: bool)
      requires w.capacity > 0 ==> Sent(w, before)
      modifies this`book, w
      ensures book == old(book).(sequence := old(book.sequence) + 1)
      ensures ok <==> old(w.capacity) > 0
      ensures ok ==> Sent(w, before + [p])
      ensures !ok ==> w.log == old(w.log) && w.capacity == 0
    {
      book := book.(sequence := book.sequence + 1);
      ok := w.WriteEvent(Event(book.sequence, p));
    }

    /** The events that open an item. */
    method EmitOpening(w: Writer, e: Entry, index: nat, ghost before: seq<Payload>) returns (ok: bool)
      requires w.capacity > 0 ==> Sent(w, before)
      modifies this`book, w
      ensures book == old(book).(sequence := book.sequence)
      ensures ok ==> Sent(w, before + Opening(e, index))
      ensures !ok && old(w.capacity) > 0 ==> CutLog(w, before + Opening(e, index))
      ensures old(w.capacity) == 0 ==> !ok && w.capacity == 0 && w.log == old(w.log)
    {
      ghost var added := before + [ItemAdded(index, e.kind, e.id, e.callId, e.announced)];
      NumberPrefix(before, before + Opening(e, index));
      ok := Emit(w, ItemAdded(index, e.kind, e.id, e.callId, e.announced), before);
      if !ok || e.kind == CallKind { return; }
      ok := Emit(w, PartAdded(index, e.kind, e.id), added);
      assert before + Opening(e, index) == added + [PartAdded(index, e.kind, e.id)];
      NumberPrefix(added, before + Opening(e, index));
    }

    /** The events that close an item. */
    method EmitClosing(w: Writer, index: nat, kind: Kind, id: nat, text: string, item: Item, ghost before: seq<Payload>)
      returns (ok: bool)
      requires w.capacity > 0 ==> Sent(w, before)
      modifies this`book, w
      ensures book == old(book).(sequence := book.sequence)
      ensures ok ==> Sent(w, before + DoneEvents(index, kind, id, text, item))
      ensures !ok && old(w.capacity) > 0 ==> CutLog(w, before + DoneEvents(index, kind, id, text, item))
      ensures old(w.capacity) == 0 ==> !ok && w.capacity == 0 && w.log == old(w.log)
    {
      ghost var goal := before + DoneEvents(index, kind, id, text, item);
      ghost var sent := before + [ContentDone(index, kind, id, text)];
      NumberPrefix(before, goal);
      NumberPrefix(sent, goal);
      ok := Emit(w, ContentDone(index, kind, id, text), before);
      if !ok { return; }
      if kind != CallKind {
        ok := Emit(w, PartDone(index, kind, id, text), sent);
        if !ok { return; }
        sent := sent + [PartDone(index, kind, id, text)];
        NumberPrefix(sent, goal);
      }
      ok := Emit(w, ItemDone(index, item), sent);
      assert sent + [ItemDone(index, item)] == goal;
    }

    method EmitCreated(w: Writer) returns (ok: bool)
      requires w.log == [] && view == Start(book.usage) && book == BookOf(view).(sequence := 0)
      modifies this, w
      ensures Reached(w, Start(old(book.usage)), ok)
    {
      assert [Created([])] + [InProgress([])] == Start(book.usage).log;
      NumberPrefix([Created([])], Start(book.usage).log);
      ok := Emit(w, Created(book.outputItems), []);
      if ok {
        ok := Emit(w, InProgress(book.outputItems), [Created([])]);
      }
    }

    method ApplyUsage(w: Writer, snap: Usage)
      requires Valid(w) || w.capacity == 0
      modifies this
      ensures old(Valid(w)) ==> Valid(w) && view == WithUsage(old(view), snap)
    {
      var u := book.usage;
      if snap.input > 0 { u := u.(input := snap.input); }
      if snap.output > 0 { u := u.(output := snap.output); }
      if snap.cacheRead > 0 { u := u.(cacheRead := snap.cacheRead); }
      if snap.cacheCreation > 0 { u := u.(cacheCreation := snap.cacheCreation); }
      if Valid(w) { BookUsage(view, u); }
      hide OpenBlock, BookOf;
      book := book.(usage := u);
      view := view.(usage := u);
    }

    method CloseReasoning(w: Writer) returns (ok: bool)
      requires Valid(w) || w.capacity == 0
      modifies this, w
      ensures old(Valid(w)) ==> Reached(w, CloseIf(old(view), ReasoningKind), ok)
      ensures old(w.capacity) == 0 ==> w.capacity == 0 && w.log == old(w.log)
    {
      if Valid(w) { ClosingReasoning(view); NumberPrefix(view.log, Settle(view).log); }
      ok := true;
      if book.reasoningOpen {
        var item := Reasoning(book.reasoningID, book.reasoningBuf);
        ok := EmitClosing(w, book.reasoningIndex, ReasoningKind, book.reasoningID, book.reasoningBuf, item, view.log);
        if ok {
          book := book.(outputItems := book.outputItems + [item], reasoningOpen := false, reasoningID := 0,
                        reasoningIndex := 0, reasoningBuf := "", outputIdx := book.outputIdx + 1);
          view := Settle(view);
        }
      }
    }

    method CloseMessage(w: Writer) returns (ok: bool)
      requires Valid(w) || w.capacity == 0
      modifies this, w
      ensures old(Valid(w)) ==> Reached(w, CloseIf(old(view), MessageKind), ok)
      ensures old(w.capacity) == 0 ==> w.capacity == 0 && w.log == old(w.log)
    {
      if Valid(w) { ClosingMessage(view); NumberPrefix(view.log, Settle(view).log); }
      ok := true;
      if book.messageOpen {
        var item := Message(book.messageID, book.textBuffer);
        ok := EmitClosing(w, book.outputIdx, MessageKind, book.messageID, book.textBuffer, item, view.log);
        if ok {
          book := book.(outputItems := book.outputItems + [item], messageOpen := false, messageID := 0,
                        textBuffer := "", outputIdx := book.outputIdx + 1);
          view := Settle(view);
        }
      }
    }

    /** Random identifiers are a fresh supply. */
    method NewID() returns (id: nat)
      modifies this`book
      ensures id == old(book.supply) && book == old(book).(supply := id + 1)
    {
      id := book.supply;
      book := book.(supply := id + 1);
    }

    method StartReasoning(w: Writer) returns (ok: bool)
      requires Valid(w) && view.settled == |view.entries|
      modifies this, w
      ensures Reached(w, BeginSoloItem(old(view), ReasoningKind), ok)
    {
      BookBeginSolo(view, ReasoningKind);
      NumberPrefix(view.log, BeginSoloItem(view, ReasoningKind).log);
      hide OpenBlock, BookOf;
      var id := NewID();
      book := book.(reasoningID := id, reasoningIndex := book.outputIdx, reasoningOpen := true);
      ok := EmitOpening(w, Entry(ReasoningKind, id, Given(""), "", "", []), book.reasoningIndex, view.log);
      view := BeginSoloItem(view, ReasoningKind);
    }

    method PushReasoning(w: Writer, delta: string) returns (ok: bool)
      requires Valid(w) && book.reasoningOpen
      modifies this, w
      ensures Reached(w, Push(old(view), |old(view).entries| - 1, delta), ok)
    {
      ghost var target := Push(view, |view.entries| - 1, delta);
      BookPushSolo(view, delta);
      NumberPrefix(view.log, target.log);
      hide OpenBlock, BookOf, Open, Push;
      book := book.(reasoningBuf := book.reasoningBuf + delta);
      ok := Emit(w, Delta(book.reasoningIndex, ReasoningKind, book.reasoningID, delta), view.log);
      view := target;
    }

    /** Everything emitReasoning does before the delta itself. */
    method OpenReasoning(w: Writer) returns (ok: bool)
      requires Valid(w) && !Open(view, ReasoningKind) && !view.toolsStarted
      modifies this, w
      ensures Reached(w, BeginSoloItem(Settle(old(view)), ReasoningKind), ok)
      ensures ok ==> book.reasoningOpen
    {
      ghost var settled, begun := Settle(view), BeginSoloItem(Settle(view), ReasoningKind);
      IdleUnlessMessage(view);
      NumberPrefix(settled.log, begun.log);
      hide OpenBlock, BeginSoloItem, Settle;
      ok := CloseMessage(w);
      if ok {
        ok := StartReasoning(w);
      }
    }

    method EmitReasoning(w: Writer, delta: string) returns (ok: bool)
      requires Valid(w)
      modifies this, w
      ensures Reached(w, AddReasoning(old(view), delta), ok)
    {
      AddReasoningCases(view, delta);
      if delta == "" {
        return true;
      }
      hide OpenBlock, BeginSoloItem, Settle, AddReasoning, Push;
      if !book.reasoningOpen {
        if book.toolsStarted {
          return true;
        }
        NumberPrefix(BeginSoloItem(Settle(view), ReasoningKind).log, AddReasoning(view, delta).log);
        ok := OpenReasoning(w);
        if !ok { return; }
      }
      ok := PushReasoning(w, delta);
    }

    method StartMessage(w: Writer) returns (ok: bool)
      requires Valid(w) && view.settled == |view.entries|
      modifies this, w
      ensures Reached(w, BeginSoloItem(old(view), MessageKind), ok)
    {
      BookBeginSolo(view, MessageKind);
      NumberPrefix(view.log, BeginSoloItem(view, MessageKind).log);
      hide OpenBlock, BookOf;
      var id := NewID();
      book := book.(messageID := id, messageOpen := true);
      ok := EmitOpening(w, Entry(MessageKind, id, Given(""), "", "", []), book.outputIdx, view.log);
      view := BeginSoloItem(view, MessageKind);
    }

    method PushMessage(w: Writer, content: string) returns (ok: bool)
      requires Valid(w) && book.messageOpen
      modifies this, w
      ensures Reached(w, Push(old(view), |old(view).entries| - 1, content), ok)
    {
      ghost var target := Push(view, |view.entries| - 1, content);
      BookPushSolo(view, content);
      NumberPrefix(view.log, target.log);
      hide OpenBlock, BookOf, Open, Push;
      book := book.(textBuffer := book.textBuffer + content);
      ok := Emit(w, Delta(book.outputIdx, MessageKind, book.messageID, content), view.log);
      view := target;
    }

    method CloseReasoningAndTools(w: Writer) returns (ok: bool)
      requires Valid(w)
      modifies this, w
      ensures Reached(w, CloseIf(CloseIf(old(view), ReasoningKind), CallKind), ok)
    {
      NumberPrefix(CloseIf(view, ReasoningKind).log, CloseIf(CloseIf(view, ReasoningKind), CallKind).log);
      ok := CloseReasoning(w);
      if ok {
        ok := CloseAllTools(w);
      }
    }

    /** Everything emitText does before the text itself. */
    method OpenMessage(w: Writer) returns (ok: bool)
      requires Valid(w)
      modifies this, w
      ensures Reached(w, MessageReady(old(view)), ok)
      ensures ok ==> book.messageOpen
    {
      SettleForText(view);
      NumberPrefix(CloseIf(CloseIf(view, ReasoningKind), CallKind).log, MessageReady(view).log);
      ok := CloseReasoningAndTools(w);
      if ok && !book.messageOpen {
        ok := StartMessage(w);
      }
    }

    method EmitText(w: Writer, content: string) returns (ok: bool)
      requires Valid(w) && content != ""
      modifies this, w
      ensures Reached(w, AddText(old(view), content), ok)
    {
      AddTextReady(view, content);
      NumberPrefix(MessageReady(view).log, AddText(view, content).log);
      hide OpenBlock, BookOf, MessageReady, AddText, Push;
      ok := OpenMessage(w);
      if ok {
        ok := PushMessage(w, content);
      }
    }

    /** Close one tool; the caller forgets it. */
    method CloseTool(w: Writer, index: int) returns (ok: bool)
      requires index in book.tools
      requires w.capacity > 0 ==> Valid(w) && book.tools[index].itemID.Some?
      modifies this`book, w
      ensures old(w.capacity) == 0 ==> w.capacity == 0 && w.log == old(w.log)
      ensures ok ==> old(w.capacity) > 0 || old(book.tools)[index].itemID.None?
      ensures index in book.tools && book.tools - {index} == old(book.tools) - {index}
      ensures old(w.capacity) > 0 ==>
        var t := old(book.tools)[index];
        var item := FunctionCall(t.itemID.value, t.callID, t.name, t.args);
        var target := view.log + DoneEvents(t.outputIndex, CallKind, t.itemID.value, t.args, item);
        if ok then Sent(w, target)
          && book == old(book).(sequence := |target|, tools := book.tools,
                                outputItems := old(book.outputItems) + [item])
        else CutLog(w, target)
    {
      var tool := book.tools[index];
      if tool.itemID.None? {
        return true;
      }
      var item := FunctionCall(tool.itemID.value, tool.callID, tool.name, tool.args);
      ok := EmitClosing(w, tool.outputIndex, CallKind, tool.itemID.value, tool.args, item, view.log);
      if ok {
        book := book.(outputItems := book.outputItems + [item], tools := book.tools[index := tool.(itemID := None)]);
      }
    }

    /** Close the open tools by ascending output index. */
    method CloseAllTools(w: Writer) returns (ok: bool)
      requires Valid(w) || w.capacity == 0
      modifies this, w
      ensures old(Valid(w)) ==> Reached(w, CloseIf(old(view), CallKind), ok)
      ensures old(w.capacity) == 0 ==> w.capacity == 0 && w.log == old(w.log)
    {
      hide OpenBlock, ToolsOf, Settle;
      ok := true;
      ghost var valid := Valid(w);
      ghost var target := CloseIf(view, CallKind);
      while book.tools.Keys != {}
        invariant ok
        invariant valid ==> Valid(w) && CloseIf(view, CallKind) == target
        invariant valid || w.capacity == 0
        invariant old(w.capacity) == 0 ==> w.capacity == 0 && w.log == old(w.log)
        decreases book.tools.Keys
      {
        ghost var lowest := LowestExists(book.tools, book.tools.Keys);
        var index :| index in book.tools && Lowest(book.tools, index);
        if valid {
          ClosingTool(view, index);
          NumberPrefix(SettleOne(view).log, target.log);
          NumberPrefix(view.log, target.log);
        }
        ok := CloseTool(w, index);
        if !ok { return; }
        book := book.(tools := book.tools - {index});
        view := SettleOne(view);
      }
      if valid { NoTools(view); }
    }

    method StartCall(w: Writer, d: ToolDelta) returns (ok: bool)
      requires Valid(w) && d.index !in view.active
      requires Open(view, CallKind) || view.settled == |view.entries|
      modifies this, w
      ensures Reached(w, BeginCallOn(old(view), d), ok)
    {
      hide OpenBlock, BookOf, BeginCallOn, Opening;
      BookBeginCall(view, d);
      BeginCallSends(view, d);
      NumberPrefix(view.log, BeginCallOn(view, d).log);
      var itemID := NewID();
      var callID := Given(d.id);
      if d.id == "" {
        var minted := NewID();
        callID := Minted(minted);
      }
      var index := book.outputIdx;
      var tool := ToolState(Some(itemID), callID, d.name, "", index);
      book := book.(outputIdx := index + 1, tools := book.tools[d.index := tool], toolsStarted := true);
      ok := EmitOpening(w, Entry(CallKind, itemID, callID, d.name, d.name, []), index, view.log);
      view := BeginCallOn(view, d);
    }

    /** A known tool index may fill in a late id or name. */
    method FillCall(w: Writer, d: ToolDelta)
      requires Valid(w) && d.index in book.tools
      modifies this
      ensures Valid(w) && view == CallReady(old(view), d)
    {
      BookCallReady(view, d);
      var tool := book.tools[d.index];
      if d.id != "" && tool.callID == Given("") { tool := tool.(callID := Given(d.id)); }
      if d.name != "" && tool.name == "" { tool := tool.(name := d.name); }
      book := book.(tools := book.tools[d.index := tool]);
      view := CallReady(view, d);
    }

    /** A new tool index closes reasoning and message and opens a call. */
    method OpenNewCall(w: Writer, d: ToolDelta) returns (ok: bool)
      requires Valid(w) && d.index !in book.tools
      modifies this, w
      ensures Reached(w, CallReady(old(view), d), ok)
    {
      BookCallReady(view, d);
      SettleForCall(view);
      NumberPrefix(CloseIf(CloseIf(view, ReasoningKind), MessageKind).log, CallReady(view, d).log);
      ok := CloseReasoningAndMessage(w);
      if ok {
        ok := StartCall(w, d);
      }
    }

    method OpenCall(w: Writer, d: ToolDelta) returns (ok: bool)
      requires Valid(w)
      modifies this, w
      ensures Reached(w, CallReady(old(view), d), ok)
      ensures ok ==> d.index in book.tools && book.tools[d.index].outputIndex == CallSlot(old(view), d)
    {
      CallReadySlot(view, d);
      ok := true;
      if d.index in book.tools {
        FillCall(w, d);
      } else {
        ok := OpenNewCall(w, d);
      }
    }

    method CloseReasoningAndMessage(w: Writer) returns (ok: bool)
      requires Valid(w)
      modifies this, w
      ensures Reached(w, CloseIf(CloseIf(old(view), ReasoningKind), MessageKind), ok)
    {
      NumberPrefix(CloseIf(view, ReasoningKind).log, CloseIf(CloseIf(view, ReasoningKind), MessageKind).log);
      ok := CloseReasoning(w);
      if ok {
        ok := CloseMessage(w);
      }
    }

    method PushArguments(w: Writer, index: int, text: string) returns (ok: bool)
      requires Valid(w) && index in book.tools
      modifies this, w
      ensures book.tools.Keys == old(book.tools.Keys)
      ensures old(book.tools)[index].outputIndex < |old(view).entries|
      ensures Reached(w, Push(old(view), old(book.tools)[index].outputIndex, text), ok)
    {
      BookPushCall(view, index, text);
      var tool := book.tools[index];
      ghost var target := Push(view, tool.outputIndex, text);
      NumberPrefix(view.log, target.log);
      book := book.(tools := book.tools[index := tool.(args := tool.args + text)]);
      ok := Emit(w, Delta(tool.outputIndex, CallKind, tool.itemID.value, text), view.log);
      view := target;
    }

    method EmitToolCall(w: Writer, d: ToolDelta) returns (ok: bool)
      requires Valid(w)
      modifies this, w
      ensures Reached(w, AddCall(old(view), d), ok)
    {
      NumberPrefix(CallReady(view, d).log, AddCall(view, d).log);
      ok := OpenCall(w, d);
      if ok && d.arguments != "" {
        ok := PushArguments(w, d.index, d.arguments);
      }
    }

    method EmitToolCalls(w: Writer, calls: seq<ToolDelta>) returns (ok: bool)
      requires Valid(w)
      modifies this, w
      ensures Reached(w, AddCalls(old(view), calls), ok)
    {
      ok := true;
      assert calls[..|calls|] == calls;
      for i := 0 to |calls|
        invariant ok && Valid(w) && view == AddCalls(old(view), calls[..i])
      {
        assert calls[..i + 1][..i] == calls[..i];
        ok := EmitToolCall(w, calls[i]);
        if !ok {
          AddCallsGrow(old(view), calls, i + 1);
          NumberPrefix(AddCalls(old(view), calls[..i + 1]).log, AddCalls(old(view), calls).log);
          return;
        }
      }
    }

    /** The best-effort closing of a failing stream: results are ignored. */
    method CloseBestEffort(w: Writer)
      requires Valid(w) || w.capacity == 0
      modifies this, w
      ensures old(Valid(w)) ==> Reached(w, Settle(old(view)), true) || CutLog(w, Settle(old(view)).log)
      ensures old(w.capacity) == 0 ==> w.capacity == 0 && w.log == old(w.log)
    {
      ghost var s1 := CloseIf(view, ReasoningKind);
      ghost var s2 := CloseIf(s1, MessageKind);
      if Valid(w) {
        SettleByKind(view);
        NumberPrefix(s1.log, Settle(view).log);
        NumberPrefix(s2.log, Settle(view).log);
      }
      var _ := CloseReasoning(w);
      var _ := CloseMessage(w);
      var _ := CloseAllTools(w);
    }

    method Fail(w: Writer, message: string) returns (ok: bool)
      requires Valid(w) || w.capacity == 0
      modifies this, w
      ensures old(Valid(w)) ==> Reached(w, Protocol.Fail(old(view), message), ok)
      ensures old(w.capacity) == 0 ==> w.capacity == 0 && w.log == old(w.log)
    {
      if book.finished {
        return true;
      }
      ghost var settled, target := Settle(view), Protocol.Fail(view, message);
      if Valid(w) { BookFail(view, message); NumberPrefix(settled.log, target.log); }
      CloseBestEffort(w);
      var text := if message == "" then "upstream error" else message;
      book := book.(finished := true);
      ok := Emit(w, Failed(book.outputItems, text), settled.log);
      view := target;
    }

    /** Close everything, stopping at the first failure. */
    method CloseAll(w: Writer) returns (ok: bool)
      requires Valid(w) || w.capacity == 0
      modifies this, w
      ensures old(Valid(w)) ==> Reached(w, Settle(old(view)), ok)
      ensures old(w.capacity) == 0 ==> w.capacity == 0 && w.log == old(w.log)
    {
      ghost var s1 := CloseIf(view, ReasoningKind);
      ghost var s2 := CloseIf(s1, MessageKind);
      if Valid(w) {
        SettleByKind(view);
        NumberPrefix(s1.log, Settle(view).log);
        NumberPrefix(s2.log, Settle(view).log);
      }
      ok := CloseReasoning(w);
      if !ok { return; }
      ok := CloseMessage(w);
      if !ok { return; }
      ok := CloseAllTools(w);
    }

    method Finish(w: Writer) returns (ok: bool)
      requires Valid(w) || w.capacity == 0
      modifies this, w
      ensures old(Valid(w)) ==> Reached(w, Protocol.Finish(old(view)), ok)
      ensures old(w.capacity) == 0 ==> w.capacity == 0 && w.log == old(w.log)
    {
      if book.finished {
        return true;
      }
      ghost var settled, target := Settle(view), Protocol.Finish(view);
      if Valid(w) { BookFinish(view); NumberPrefix(settled.log, target.log); }
      ok := CloseAll(w);
      if !ok { return; }
      book := book.(finished := true);
      var last := if IsIncompleteFinish(book.lastFinishReason)
                  then Incomplete(book.outputItems, book.usage, IncompleteReason(book.lastFinishReason))
                  else Completed(book.outputItems, book.usage);
      ok := Emit(w, last, settled.log);
      view := target;
    }

    method EmitProse(w: Writer, reasoning: string, content: string) returns (ok: bool)
      requires Valid(w)
      modifies this, w
      ensures Reached(w, AddText(AddReasoning(old(view), reasoning), content), ok)
    {
      NumberPrefix(AddReasoning(view, reasoning).log, AddText(AddReasoning(view, reasoning), content).log);
      ok := true;
      if reasoning != "" {
        ok := EmitReasoning(w, reasoning);
      }
      if ok && content != "" {
        ok := EmitText(w, content);
      }
    }

    method EmitDeltas(w: Writer, reasoning: string, content: string, calls: seq<ToolDelta>) returns (ok: bool)
      requires Valid(w)
      modifies this, w
      ensures Reached(w, AddCalls(AddText(AddReasoning(old(view), reasoning), content), calls), ok)
    {
      ghost var prose := AddText(AddReasoning(view, reasoning), content);
      NumberPrefix(prose.log, AddCalls(prose, calls).log);
      ok := EmitProse(w, reasoning, content);
      if ok && |calls| > 0 {
        ok := EmitToolCalls(w, calls);
      }
    }

    method EmitChunk(w: Writer, c: Line) returns (ok: bool)
      requires Valid(w) && c.Chunk?
      modifies this, w
      ensures Reached(w, AddChunk(old(view), c), ok)
    {
      var reasoning := if c.reasoningContent == "" then c.reasoning else c.reasoningContent;
      ok := EmitDeltas(w, reasoning, c.content, c.calls);
      if ok && c.finishReason != "" {
        BookFinishReason(view, c.finishReason);
        book := book.(lastFinishReason := c.finishReason);
        view := view.(finishReason := c.finishReason);
      }
    }

    /** Consume one decoded line; false stops the stream. */
    method ConsumeLine(w: Writer, line: Line) returns (ok: bool)
      requires Valid(w)
      modifies this, w
      ensures var target := Consume(old(view), line);
              if ok then Valid(w) && view == target
              else CutLog(w, target.log) || (Valid(w) && view == target && target.finished)
      ensures ok && !old(view).finished ==> !line.UpstreamError?
    {
      if book.finished {
        return true;
      }
      match line
      case Silent => ok := true;
      case UpstreamError(message) =>
        var _ := Fail(w, message);
        ok := false;
      case Chunk(_, _, _, _, _) =>
        ok := EmitChunk(w, line);
    }
  }

  /** The lowest open call closed, the others still open. */
  function SettleOne(s: Stream): (r: Stream)
    ensures s.log <= r.log
  {
    if s.settled < |s.entries| && |s.active| > 0
    then s.(log := s.log + Closing(s.entries[s.settled], s.settled), settled := s.settled + 1, active := s.active[1..])
    else s
  }

  predicate Lowest(tools: map<int, ToolState>, index: int)
    requires index in tools
  {
    forall i :: i in tools ==> tools[index].outputIndex <= tools[i].outputIndex
  }

  /** A stream with a message open. */
  function MessageReady(s: Stream): (r: Stream)
    ensures s.log <= r.log
  {
    if Open(s, MessageKind) then s else BeginSoloItem(Settle(s), MessageKind)
  }

  /** A solo item just opened, before its first delta. */
  function BeginSoloItem(s: Stream, kind: Kind): (r: Stream)
    ensures s.log <= r.log
  {
    Begin(s, Entry(kind, s.supply, Given(""), "", "", [])).(supply := s.supply + 1)
  }

  lemma {:induction false} AddTextReady(s: Stream, content: string)
    requires OpenBlock(s) && content != ""
    ensures var t := MessageReady(s); |t.entries| > 0 && AddText(s, content) == Push(t, |t.entries| - 1, content)
  {
  }

  lemma {:induction false} AddReasoningCases(s: Stream, delta: string)
    requires OpenBlock(s)
    ensures delta == "" ==> AddReasoning(s, delta) == s
    ensures Open(s, ReasoningKind) ==> |s.entries| > 0
    ensures delta != "" && Open(s, ReasoningKind) ==> AddReasoning(s, delta) == Push(s, |s.entries| - 1, delta)
    ensures !Open(s, ReasoningKind) && s.toolsStarted ==> AddReasoning(s, delta) == s
    ensures var t := BeginSoloItem(Settle(s), ReasoningKind);
            |t.entries| > 0 && (delta != "" && !Open(s, ReasoningKind) && !s.toolsStarted ==>
                                  AddReasoning(s, delta) == Push(t, |t.entries| - 1, delta)
                                    && t.log <= AddReasoning(s, delta).log)
  {
  }

  lemma {:induction false} BookBeginSolo(s: Stream, kind: Kind)
    requires OpenBlock(s) && s.settled == |s.entries| && kind != CallKind
    ensures var r := BeginSoloItem(s, kind); var b := BookOf(s);
            && b.outputIdx == |s.entries|
            && BookOf(r) == (if kind == ReasoningKind
                             then b.(sequence := |r.log|, supply := s.supply + 1, reasoningOpen := true,
                                     reasoningID := s.supply, reasoningIndex := b.outputIdx)
                             else b.(sequence := |r.log|, supply := s.supply + 1, messageOpen := true,
                                     messageID := s.supply))
    ensures OpenBlock(BeginSoloItem(s, kind))
  {
    var r := BeginSoloItem(s, kind);
    assert r.entries[..r.settled] == s.entries[..s.settled];
    assert s.active == [];
    assert ToolsOf(s) == map[] && ToolsOf(r) == map[];
  }

  lemma {:induction false} BookPushSolo(s: Stream, delta: string)
    requires OpenBlock(s) && (Open(s, ReasoningKind) || Open(s, MessageKind))
    ensures s.settled == |s.entries| - 1
    ensures var r := Push(s, s.settled, delta); var b := BookOf(s); var e := s.entries[s.settled];
            && r.log == s.log + [Delta(s.settled, e.kind, e.id, delta)]
            && BookOf(r) == (if Open(s, ReasoningKind)
                             then b.(sequence := b.sequence + 1, reasoningBuf := b.reasoningBuf + delta)
                             else b.(sequence := b.sequence + 1, textBuffer := b.textBuffer + delta))
    ensures OpenBlock(Push(s, s.settled, delta))
    ensures var b := BookOf(s); var e := s.entries[s.settled];
            if Open(s, ReasoningKind) then e.kind == ReasoningKind && b.reasoningIndex == s.settled
              && b.reasoningID == e.id
            else e.kind == MessageKind && b.outputIdx == s.settled && b.messageID == e.id
    ensures var b := BookOf(s);
            && b.sequence == |s.log| && b.messageOpen == !Open(s, ReasoningKind)
            && b.reasoningOpen == Open(s, ReasoningKind)
  {
    var r := Push(s, s.settled, delta);
    JoinSnoc(s.entries[s.settled].deltas, delta);
    assert r.entries[..r.settled] == s.entries[..s.settled];
    assert s.active == [];
    assert ToolsOf(s) == map[] && ToolsOf(r) == map[];
  }

  /** Without a reasoning and without tools, a message is all that can be open. */
  lemma {:induction false} IdleUnlessMessage(s: Stream)
    requires OpenBlock(s) && !Open(s, ReasoningKind) && !s.toolsStarted
    ensures CloseIf(s, MessageKind) == Settle(s) && Settle(s).settled == |s.entries|
  {
    if s.settled < |s.entries| { assert Open(s, MessageKind); }
  }

  lemma {:induction false} ClosingMessage(s: Stream)
    requires OpenBlock(s)
    ensures var b := BookOf(s);
            && b.sequence == |s.log|
            && (if b.messageOpen then
                 && CloseIf(s, MessageKind) == Settle(s)
                 && Settle(s).log == s.log
                   + DoneEvents(b.outputIdx, MessageKind, b.messageID, b.textBuffer, Message(b.messageID, b.textBuffer))
                 && BookOf(Settle(s)) == b.(sequence := |Settle(s).log|, outputIdx := b.outputIdx + 1,
                                            messageOpen := false, messageID := 0, textBuffer := "",
                                            outputItems := b.outputItems + [Message(b.messageID, b.textBuffer)])
                 && OpenBlock(Settle(s))
                 && !b.reasoningOpen
                else CloseIf(s, MessageKind) == s)
  {
    if Open(s, MessageKind) { BookSettleSolo(s); }
  }

  lemma {:induction false} ClosingReasoning(s: Stream)
    requires OpenBlock(s)
    ensures var b := BookOf(s);
            && b.sequence == |s.log|
            && (if b.reasoningOpen then
                 && CloseIf(s, ReasoningKind) == Settle(s)
                 && Settle(s).log == s.log
                   + DoneEvents(b.reasoningIndex, ReasoningKind, b.reasoningID, b.reasoningBuf,
                                Reasoning(b.reasoningID, b.reasoningBuf))
                 && BookOf(Settle(s)) == b.(sequence := |Settle(s).log|, outputIdx := b.outputIdx + 1,
                                            reasoningOpen := false, reasoningID := 0,
                                            reasoningIndex := 0, reasoningBuf := "",
                                            outputItems := b.outputItems + [Reasoning(b.reasoningID, b.reasoningBuf)])
                 && OpenBlock(Settle(s))
                 && !b.messageOpen
                else CloseIf(s, ReasoningKind) == s)
  {
    if Open(s, ReasoningKind) { BookSettleSolo(s); }
  }

  function WithUsage(s: Stream, snap: Usage): (r: Stream)
    ensures r.log == s.log
  {
    s.(usage := MergeUsage(s.usage, snap))
  }

  /** The counters a snapshot carries replace the ones seen so far. */
  function MergeUsage(u: Usage, snap: Usage): Usage {
    Usage(if snap.input > 0 then snap.input else u.input,
          if snap.output > 0 then snap.output else u.output,
          if snap.cacheRead > 0 then snap.cacheRead else u.cacheRead,
          if snap.cacheCreation > 0 then snap.cacheCreation else u.cacheCreation)
  }

  /** Settling a stream whose one open item is a reasoning or a message. */
  lemma {:induction false} BookSettleSolo(s: Stream)
    requires OpenBlock(s) && (Open(s, ReasoningKind) || Open(s, MessageKind))
    ensures var e := s.entries[s.settled]; var b := BookOf(s);
            && s.settled == |s.entries| - 1
            && Settle(s).log == s.log + DoneEvents(s.settled, e.kind, e.id, Join(e.deltas), Finished(e))
            && BookOf(Settle(s)) == b.(sequence := |Settle(s).log|, outputIdx := b.outputIdx + 1,
                                       messageOpen := false, messageID := 0, textBuffer := "",
                                       reasoningOpen := false, reasoningID := 0, reasoningIndex := 0,
                                         reasoningBuf := "",
                                       outputItems := b.outputItems + [Finished(e)])
    ensures OpenBlock(Settle(s))
  {
    assert s.active == [];
    var blocks := ClosingBlocks(s.entries, s.settled, |s.entries|);
    assert blocks == [Closing(s.entries[s.settled], s.settled)];
    assert Flatten(blocks[..0]) == [];
    assert Flatten(blocks) == [] + blocks[0];
    assert s.entries[..|s.entries|] == s.entries;
    assert Outputs(s.entries) == Outputs(s.entries[..s.settled]) + [Finished(s.entries[s.settled])];
    assert ToolsOf(s) == map[] && ToolsOf(Settle(s)) == map[];
  }

  // ----- Open calls -----

  lemma {:induction false} LowestExists(tools: map<int, ToolState>, keys: set<int>) returns (m: int)
    requires keys != {} && keys <= tools.Keys
    ensures m in keys && forall i :: i in keys ==> tools[m].outputIndex <= tools[i].outputIndex
  {
    var first := Pick(keys);
    var rest := keys - {first};
    assert keys == rest + {first};
    m := first;
    if rest != {} {
      var n := LowestExists(tools, rest);
      if tools[n].outputIndex < tools[first].outputIndex { m := n; }
      assert tools[m].outputIndex <= tools[n].outputIndex && tools[m].outputIndex <= tools[first].outputIndex;
      forall i | i in keys ensures tools[m].outputIndex <= tools[i].outputIndex {
        assert i == first || i in rest;
      }
    }
  }

  lemma {:induction false} ToolLookup(s: Stream, i: int)
    requires OpenBlock(s) && s.active != []
    ensures i in ToolsOf(s) <==> i in s.active
    ensures i in s.active ==> ToolsOf(s)[i] == ToolOf(s.entries[SlotOf(s, i)], SlotOf(s, i))
    ensures i in s.active ==> s.active[Position(s.active, i)] == i && s.settled <= SlotOf(s, i) < |s.entries|
  {
    if i in s.active { PositionFinds(s.active, i); }
  }

  lemma {:induction false} NoTools(s: Stream)
    requires OpenBlock(s)
    ensures ToolsOf(s).Keys == {} ==> CloseIf(s, CallKind) == s && s.active == []
  {
    if s.active != [] { ToolLookup(s, s.active[0]); }
  }

  /** Closing the lowest open call, then all, is closing all. */
  lemma {:induction false} ClosingTool(s: Stream, index: int)
    requires OpenBlock(s) && index in ToolsOf(s) && Lowest(ToolsOf(s), index)
    ensures var t := ToolsOf(s)[index]; var r := SettleOne(s); var b := BookOf(s);
            var item := FunctionCall(t.itemID.value, t.callID, t.name, t.args);
            && t.itemID.Some?
            && OpenBlock(r)
            && CloseIf(r, CallKind) == CloseIf(s, CallKind) == Settle(s)
            && r.log == s.log + DoneEvents(t.outputIndex, CallKind, t.itemID.value, t.args, item)
            && BookOf(r) == b.(sequence := |r.log|, tools := b.tools - {index}, outputItems := b.outputItems + [item])
  {
    assert s.active != [];
    ToolLookup(s, index);
    ToolLookup(s, s.active[0]);
    assert index == s.active[0];
    var r := SettleOne(s);
    SettleOneBlock(s);
    SettleOneTools(s);
    SettleOneShape(s);
    hide OpenBlock, ToolsOf, Settle;
    assert s.entries[..r.settled] == s.entries[..s.settled] + [s.entries[s.settled]];
    assert Outputs(s.entries[..r.settled]) == Outputs(s.entries[..s.settled]) + [Finished(s.entries[s.settled])];
  }

  lemma {:induction false} SettleOneShape(s: Stream)
    requires OpenBlock(s) && s.active != []
    ensures Open(s, CallKind) && !Open(s, ReasoningKind) && !Open(s, MessageKind)
    ensures !Open(SettleOne(s), ReasoningKind) && !Open(SettleOne(s), MessageKind)
    ensures s.settled < |s.entries| && s.entries[s.settled].kind == CallKind && s.active[0] in s.active
    ensures SlotOf(s, s.active[0]) == s.settled
  {
  }

  lemma {:induction false} SettleOneBlock(s: Stream)
    requires OpenBlock(s) && s.active != []
    ensures OpenBlock(SettleOne(s))
    ensures CloseIf(SettleOne(s), CallKind) == CloseIf(s, CallKind) == Settle(s)
  {
    var r := SettleOne(s);
    var blocks := ClosingBlocks(s.entries, s.settled, |s.entries|);
    FlattenFirst(blocks);
    assert blocks[0] == Closing(s.entries[s.settled], s.settled);
    assert blocks[1..] == ClosingBlocks(s.entries, r.settled, |s.entries|);
    assert s.log + (blocks[0] + Flatten(blocks[1..])) == r.log + Flatten(blocks[1..]);
    if |s.active| == 1 {
      assert blocks[1..] == [];
      assert r.log + Flatten([]) == r.log;
    }
  }

  lemma {:induction false} FlattenFirst(blocks: seq<seq<Payload>>)
    requires |blocks| > 0
    ensures Flatten(blocks) == blocks[0] + Flatten(blocks[1..])
  {
    var n := |blocks| - 1;
    if n == 0 {
      assert blocks[..0] == [] && blocks[1..] == [];
      assert Flatten(blocks) == [] + blocks[0];
    } else {
      FlattenFirst(blocks[..n]);
      assert blocks[..n][1..] == blocks[1..][..n - 1];
      assert blocks[1..][n - 1] == blocks[n];
      assert blocks[0] + Flatten(blocks[1..][..n - 1]) + blocks[n]
        == blocks[0] + (Flatten(blocks[1..][..n - 1]) + blocks[n]);
    }
  }

  lemma {:induction false} SettleOneFields(s: Stream)
    requires OpenBlock(s) && s.active != []
    ensures var r := SettleOne(s);
            && r.active == s.active[1..] && r.settled == s.settled + 1 && r.entries == s.entries
            && s.settled < |s.entries| && NoDuplicates(s.active)
  {
  }

  lemma {:induction false} SettleOneTool(s: Stream, i: int)
    requires OpenBlock(s) && s.active != [] && OpenBlock(SettleOne(s))
    ensures i in ToolsOf(SettleOne(s)) <==> i in ToolsOf(s) && i != s.active[0]
    ensures i in ToolsOf(SettleOne(s)) ==> ToolsOf(SettleOne(s))[i] == ToolsOf(s)[i]
  {
    hide OpenBlock, ToolsOf, SettleOne;
    var r := SettleOne(s);
    SettleOneFields(s);
    TailPosition(s.active, i);
    ToolLookup(s, i);
    if r.active != [] { ToolLookup(r, i); } else { NoToolsUnlessActive(r); }
  }

  lemma {:induction false} SettleOneTools(s: Stream)
    requires OpenBlock(s) && s.active != []
    ensures ToolsOf(SettleOne(s)) == ToolsOf(s) - {s.active[0]}
  {
    SettleOneBlock(s);
    hide OpenBlock, ToolsOf, SettleOne;
    forall i
      ensures i in ToolsOf(SettleOne(s)) <==> i in ToolsOf(s) && i != s.active[0]
      ensures i in ToolsOf(SettleOne(s)) ==> ToolsOf(SettleOne(s))[i] == ToolsOf(s)[i]
    {
      SettleOneTool(s, i);
    }
  }

  lemma {:induction false} TailPosition(xs: seq<int>, i: int)
    requires |xs| > 0 && NoDuplicates(xs)
    ensures i in xs[1..] <==> i in xs && i != xs[0]
    ensures i in xs[1..] ==> Position(xs, i) == 1 + Position(xs[1..], i)
  {
    if i in xs && i != xs[0] {
      PositionFinds(xs, i);
      assert xs[1..][Position(xs, i) - 1] == i;
    }
  }

  lemma {:induction false} PositionSnoc(xs: seq<int>, x: int, i: int)
    requires x !in xs
    ensures i in xs ==> Position(xs + [x], i) == Position(xs, i)
    ensures i == x ==> Position(xs + [x], i) == |xs|
  {
    if |xs| > 0 {
      assert (xs + [x])[1..] == xs[1..] + [x];
      if i in xs && xs[0] != i { assert i in xs[1..]; }
      PositionSnoc(xs[1..], x, i);
    }
  }

  lemma {:induction false} NoToolsUnlessActive(s: Stream)
    requires OpenBlock(s)
    ensures s.active == [] ==> ToolsOf(s) == map[]
  {
  }

  lemma {:induction false} BeginCallFields(t: Stream, d: ToolDelta)
    ensures var r := BeginCallOn(t, d);
            r.active == t.active + [d.index] && r.settled == t.settled && r.entries == t.entries + [NewCall(t, d)]
  {
  }

  lemma {:induction false} BeginCallTool(t: Stream, d: ToolDelta, i: int)
    requires OpenBlock(t) && OpenBlock(BeginCallOn(t, d)) && d.index !in t.active
             && t.settled + |t.active| == |t.entries|
    ensures var r := BeginCallOn(t, d);
            && (i in ToolsOf(r) <==> i in ToolsOf(t) || i == d.index)
            && (i in ToolsOf(t) ==> i != d.index && ToolsOf(r)[i] == ToolsOf(t)[i])
            && (i == d.index ==> i in ToolsOf(r) && ToolsOf(r)[i] == ToolOf(NewCall(t, d), |t.entries|))
  {
    hide OpenBlock, ToolsOf, BeginCallOn;
    BeginCallFields(t, d);
    PositionSnoc(t.active, d.index, i);
    ToolLookup(BeginCallOn(t, d), i);
    if t.active != [] { ToolLookup(t, i); } else { NoToolsUnlessActive(t); }
  }

  lemma {:induction false} ToolsBeginCall(t: Stream, d: ToolDelta)
    requires OpenBlock(t) && d.index !in t.active
    requires Open(t, CallKind) || t.settled == |t.entries|
    ensures var e := NewCall(t, d);
            ToolsOf(BeginCallOn(t, d)) == ToolsOf(t)[d.index := ToolOf(e, |t.entries|)]
  {
    var r := BeginCallOn(t, d);
    BeginCallBlock(t, d);
    OpenCallBlock(t);
    assert t.settled + |t.active| == |t.entries|;
    hide OpenBlock, ToolsOf, BeginCallOn;
    forall i
      ensures i in ToolsOf(r) <==> i in ToolsOf(t) || i == d.index
      ensures i in ToolsOf(t) ==> i != d.index && ToolsOf(r)[i] == ToolsOf(t)[i]
      ensures i == d.index ==> i in ToolsOf(r) && ToolsOf(r)[i] == ToolOf(NewCall(t, d), |t.entries|)
    {
      BeginCallTool(t, d, i);
    }
  }

  lemma {:induction false} BeginCallSends(t: Stream, d: ToolDelta)
    ensures var r, e := BeginCallOn(t, d), NewCall(t, d);
            && r.log == t.log + Opening(e, |t.entries|) && |t.log| < |r.log|
            && r.supply == t.supply + (if d.id == "" then 2 else 1)
    ensures BookOf(t).sequence == |t.log|
  {
  }

  lemma {:induction false} BookBeginCall(t: Stream, d: ToolDelta)
    requires OpenBlock(t) && d.index !in t.active
    requires Open(t, CallKind) || t.settled == |t.entries|
    ensures var r := BeginCallOn(t, d); var b := BookOf(t); var e := NewCall(t, d);
            && b.outputIdx == |t.entries| && b.supply == t.supply
            && BookOf(r) == b.(sequence := |r.log|, outputIdx := b.outputIdx + 1, supply := r.supply,
                               tools := b.tools[d.index := ToolState(Some(e.id), e.callId, e.name, "", b.outputIdx)],
                               toolsStarted := true)
    ensures OpenBlock(BeginCallOn(t, d))
  {
    var r := BeginCallOn(t, d);
    BeginCallBlock(t, d);
    OpenCallBlock(t);
    OpenCallBlock(r);
    ToolsBeginCall(t, d);
    assert r.entries[..r.settled] == t.entries[..t.settled];
  }

  lemma {:induction false} UpdateBlock(s: Stream, k: nat, e: Entry)
    requires OpenBlock(s) && s.active != [] && s.settled <= k < |s.entries|
    requires e.kind == CallKind && e.callId != Given("")
    ensures OpenBlock(s.(entries := s.entries[k := e]))
  {
  }

  lemma {:induction false} UpdateTool(s: Stream, r: Stream, index: int, e: Entry, i: int)
    requires OpenBlock(s) && OpenBlock(r) && index in s.active && SlotOf(s, index) < |s.entries|
    requires r == s.(entries := s.entries[SlotOf(s, index) := e])
    ensures i in ToolsOf(r) <==> i in ToolsOf(s)
    ensures i in ToolsOf(s) ==> ToolsOf(r)[i] == if i == index then ToolOf(e, SlotOf(s, index)) else ToolsOf(s)[i]
  {
    hide OpenBlock, ToolsOf;
    ToolLookup(s, index);
    ToolLookup(s, i);
    ToolLookup(r, i);
  }

  /** Changing the open call of an index changes its tool and no other. */
  lemma {:induction false} ToolsUpdate(s: Stream, index: int, e: Entry)
    requires OpenBlock(s) && index in s.active && SlotOf(s, index) < |s.entries|
    requires e.kind == CallKind && e.callId != Given("")
    ensures var k := SlotOf(s, index); var r := s.(entries := s.entries[k := e]);
            OpenBlock(r) && ToolsOf(r) == ToolsOf(s)[index := ToolOf(e, k)]
              && r.entries[..s.settled] == s.entries[..s.settled]
  {
    hide OpenBlock, ToolsOf;
    var k := SlotOf(s, index);
    var r := s.(entries := s.entries[k := e]);
    ToolLookup(s, index);
    UpdateBlock(s, k, e);
    forall i
      ensures i in ToolsOf(r) <==> i in ToolsOf(s)
      ensures i in ToolsOf(s) ==> ToolsOf(r)[i] == if i == index then ToolOf(e, k) else ToolsOf(s)[i]
    {
      UpdateTool(s, r, index, e, i);
    }
  }

  lemma {:induction false} BookCallReady(s: Stream, d: ToolDelta)
    requires OpenBlock(s)
    ensures d.index in ToolsOf(s) <==> Known(s, d) 
    ensures Known(s, d) <==> d.index in s.active
    ensures Known(s, d) ==>
      var k := SlotOf(s, d.index); var r := CallReady(s, d); var e := Backfill(s.entries[k], d); var b := BookOf(s);
      && b.tools[d.index] == ToolOf(s.entries[k], k)
      && BookOf(r) == b.(tools := b.tools[d.index := ToolState(Some(e.id), e.callId, e.name, Join(e.deltas), k)])
      && OpenBlock(r)
  {
    if d.index in s.active {
      ToolLookup(s, d.index);
      OpenCallBlock(s);
      var k := SlotOf(s, d.index);
      ToolsUpdate(s, d.index, Backfill(s.entries[k], d));
      OpenCallBlock(CallReady(s, d));
    }
  }

  lemma {:induction false} CallReadySlot(s: Stream, d: ToolDelta)
    requires OpenBlock(s)
    ensures var r := CallReady(s, d); d.index in ToolsOf(r) && ToolsOf(r)[d.index].outputIndex == CallSlot(s, d)
  {
    BookCallReady(s, d);
    if !Known(s, d) {
      OpenCallBlock(s);
      ToolsBeginCall(if Open(s, CallKind) then s else Settle(s), d);
    }
  }

  lemma {:induction false} BookPushCall(s: Stream, index: int, text: string)
    requires OpenBlock(s) && index in ToolsOf(s)
    ensures var t := ToolsOf(s)[index]; var b := BookOf(s);
            && t.outputIndex < |s.entries| && t.itemID.Some?
            && (var r := Push(s, t.outputIndex, text);
                && r.log == s.log + [Delta(t.outputIndex, CallKind, t.itemID.value, text)]
                && BookOf(r) == b.(sequence := b.sequence + 1, tools := b.tools[index := t.(args := t.args + text)])
                && OpenBlock(r))
  {
    ToolLookup(s, index);
    OpenCallBlock(s);
    var k := SlotOf(s, index);
    var e := s.entries[k];
    var f := e.(deltas := e.deltas + [text]);
    JoinSnoc(e.deltas, text);
    ToolsUpdate(s, index, f);
    var r := Push(s, k, text);
    var u := s.(entries := s.entries[k := f]);
    assert ToolsOf(r) == ToolsOf(u);
    OpenCallBlock(u);
    OpenCallBlock(r);
  }

  lemma {:induction false} AddCallsGrow(s: Stream, calls: seq<ToolDelta>, n: nat)
    requires n <= |calls|
    ensures AddCalls(s, calls[..n]).log <= AddCalls(s, calls).log
    decreases |calls| - n
  {
    if n == |calls| {
      assert calls[..n] == calls;
    } else {
      assert calls[..n + 1][..n] == calls[..n];
      AddCallsGrow(s, calls, n + 1);
    }
  }

  /** The close calls before a new tool settle the stream unless calls are open. */
  lemma {:induction false} SettleForCall(s: Stream)
    requires OpenBlock(s)
    ensures var r := CloseIf(CloseIf(s, ReasoningKind), MessageKind);
            if Open(s, CallKind) then r == s else r == Settle(s) && r.settled == |r.entries| && r.active == []
  {
  }

  /** Closing kind by kind is settling. */
  lemma {:induction false} SettleByKind(s: Stream)
    requires OpenBlock(s)
    ensures CloseIf(CloseIf(CloseIf(s, ReasoningKind), MessageKind), CallKind) == Settle(s)
  {
  }

  /** The close calls before a text settle the stream unless a message is open. */
  lemma {:induction false} SettleForText(s: Stream)
    requires OpenBlock(s)
    ensures var r := CloseIf(CloseIf(s, ReasoningKind), CallKind);
            if Open(s, MessageKind) then r == s && CloseIf(s, ReasoningKind) == s
            else
              && r == Settle(s) && r.settled == |r.entries| && r.log == Settle(s).log
              && CloseIf(s, ReasoningKind).log <= r.log
  {
  }

  lemma {:induction false} BookFinishReason(s: Stream, reason: string)
    requires OpenBlock(s)
    ensures var r := s.(finishReason := reason);
            BookOf(r) == BookOf(s).(lastFinishReason := reason) && OpenBlock(r)
  {
    var r := s.(finishReason := reason);
    assert ToolsOf(r) == ToolsOf(s);
  }

  lemma {:induction false} BookUsage(s: Stream, usage: Usage)
    requires OpenBlock(s)
    ensures var r := s.(usage := usage);
            BookOf(r) == BookOf(s).(usage := usage) && OpenBlock(r)
  {
    var r := s.(usage := usage);
    assert ToolsOf(r) == ToolsOf(s);
  }

  lemma {:induction false} BookFail(s: Stream, message: string)
    requires OpenBlock(s) && !s.finished
    ensures var r := Protocol.Fail(s, message); var b := BookOf(Settle(s));
            && r.finished
            && r.log == Settle(s).log + [Failed(b.outputItems, if message == "" then "upstream error" else message)]
            && BookOf(r) == b.(sequence := b.sequence + 1, finished := true) && OpenBlock(r)
  {
    SettledBlock(s);
    assert ToolsOf(Protocol.Fail(s, message)) == map[] == ToolsOf(Settle(s));
  }

  lemma {:induction false} BookFinish(s: Stream)
    requires OpenBlock(s) && !s.finished
    ensures var r := Protocol.Finish(s); var b := BookOf(Settle(s));
            && r.finished
            && r.log == Settle(s).log + [if IsIncompleteFinish(b.lastFinishReason)
                                         then Incomplete(b.outputItems, b.usage, IncompleteReason(b.lastFinishReason))
                                         else Completed(b.outputItems, b.usage)]
            && BookOf(r) == b.(sequence := b.sequence + 1, finished := true) && OpenBlock(r)
  {
    SettledBlock(s);
    assert ToolsOf(Protocol.Finish(s)) == map[] == ToolsOf(Settle(s));
  }

  lemma {:induction false} SettledBlock(s: Stream)
    requires OpenBlock(s)
    ensures var t := Settle(s);
            && t.settled == |t.entries| && t.active == [] && OpenBlock(t)
            && t.entries[..t.settled] == t.entries
  {
    if s.settled < |s.entries| {
    } else {
      assert s.active == [];
    }
  }
}
