/** The Anthropic stream adapter: mutable bookkeeping, one event written at a time
    to a client that may go away at any moment. */
module AnthropicStream {
  import opened Wrappers
  import opened SseWriter
  import opened AnthropicProtocol
  import opened UpstreamLines
  import Upstream = ResponsesProtocol

  type Writer = Connection<Event>

  class StreamState {
    var usage: Upstream.Usage
    var finished: bool
    var lastFinishReason: string
    var thinkingOpen: bool
    var thinkingIndex: nat
    var textOpen: bool
    var textIndex: nat
    var nextBlock: nat
    var toolBlocks: map<int, nat>
    var toolOpen: set<nat>
    var toolNames: map<nat, string>
    var toolIDs: map<nat, Upstream.CallId>
    var supply: nat

    ghost function View(w: Writer): State
      reads this, w
    {
      State(w.log, if thinkingOpen then Some(thinkingIndex) else None, if textOpen then Some(textIndex) else None,
            nextBlock, toolBlocks, toolOpen, toolNames, toolIDs, usage, finished, lastFinishReason, supply)
    }

    /** Where a step that aimed at `target` has come to: all of it is out, or the client
        is gone and has a proper prefix. */
    ghost predicate Reached(w: Writer, target: State, ok: bool)
      reads this, w
    {
      if ok then View(w) == target else w.capacity == 0 && |w.log| < |target.log| && w.log <= target.log
    }

    constructor (inputTokens: int)
      ensures thinkingOpen == textOpen == finished == false && nextBlock == supply == 0
      ensures toolBlocks == map[] && toolOpen == {} && toolNames == map[] && toolIDs == map[]
      ensures usage == Upstream.Usage(inputTokens, 0, 0, 0) && lastFinishReason == ""
    {
      usage, finished, lastFinishReason := Upstream.Usage(inputTokens, 0, 0, 0), false, "";
      thinkingOpen, thinkingIndex, textOpen, textIndex, nextBlock := false, 0, false, 0, 0;
      toolBlocks, toolOpen, toolNames, toolIDs, supply := map[], {}, map[], map[], 0;
    }

    method ApplyUsage(snap: Upstream.Usage, ghost w: Writer)
      modifies this`usage
      ensures View(w) == AnthropicProtocol.ApplyUsage(old(View(w)), snap)
    {
      if snap.input > 0 { usage := usage.(input := snap.input); }
      if snap.output > 0 { usage := usage.(output := snap.output); }
      usage := usage.(cacheRead := snap.cacheRead, cacheCreation := snap.cacheCreation);
    }

    method CloseThinking(w: Writer) returns (ok: bool)
      requires w as object != this
      modifies this`thinkingOpen, w
      ensures Reached(w, AnthropicProtocol.CloseThinking(old(View(w))), ok)
      ensures old(w.capacity) == 0 ==> w.log == old(w.log) && w.capacity == 0
    {
      if !thinkingOpen { return true; }
      ok := w.WriteEvent(BlockStop(thinkingIndex));
      if ok { thinkingOpen := false; }
    }

    method CloseText(w: Writer) returns (ok: bool)
      requires w as object != this
      modifies this`textOpen, w
      ensures Reached(w, AnthropicProtocol.CloseText(old(View(w))), ok)
      ensures old(w.capacity) == 0 ==> w.log == old(w.log) && w.capacity == 0
    {
      if !textOpen { return true; }
      ok := w.WriteEvent(BlockStop(textIndex));
      if ok { textOpen := false; }
    }

    /** Stop every open tool block, in index order. */
    method CloseOpenTools(w: Writer) returns (ok: bool)
      requires w as object != this
      modifies this`toolOpen, w
      ensures Reached(w, CloseTools(old(View(w))), ok)
      ensures old(w.capacity) == 0 ==> w.log == old(w.log) && w.capacity == 0
    {
      ghost var s := View(w);
      var open := toolOpen;
      for idx := 0 to nextBlock
        invariant View(w) == CloseToolsBelow(s, idx)
        invariant old(w.capacity) == 0 ==> w.log == old(w.log) && w.capacity == 0
      {
        if idx in open {
          var sent := w.WriteEvent(BlockStop(idx));
          if !sent {
            CloseToolsGrow(s, idx + 1, s.next);
            return false;
          }
          toolOpen := toolOpen - {idx};
        }
      }
      ok := true;
    }

    method StartThinking(w: Writer) returns (ok: bool)
      requires w as object != this && !thinkingOpen
      modifies this`thinkingOpen, this`thinkingIndex, this`nextBlock, w
      ensures Reached(w, AnthropicProtocol.StartThinking(old(View(w))), ok)
    {
      thinkingIndex, nextBlock := nextBlock, nextBlock + 1;
      ok := w.WriteEvent(BlockStart(thinkingIndex, Thinking, Upstream.Given(""), ""));
      if ok { thinkingOpen := true; }
    }

    method StartText(w: Writer) returns (ok: bool)
      requires w as object != this && !textOpen
      modifies this`textOpen, this`textIndex, this`nextBlock, w
      ensures Reached(w, AnthropicProtocol.StartText(old(View(w))), ok)
    {
      textIndex, nextBlock := nextBlock, nextBlock + 1;
      ok := w.WriteEvent(BlockStart(textIndex, Text, Upstream.Given(""), ""));
      if ok { textOpen := true; }
    }

    method EmitDelta(w: Writer, index: nat, block: Block, text: string) returns (ok: bool)
      requires w as object != this
      modifies this`usage, w
      ensures Reached(w, Delta(old(View(w)), index, block, text), ok)
    {
      ok := w.WriteEvent(BlockDelta(index, block, text));
      if ok { usage := usage.(output := usage.output + (|text| + 3) / 4); }
    }

    method EmitReasoning(w: Writer, text: string) returns (ok: bool)
      requires w as object != this
      modifies this, w
      ensures Reached(w, Muse(old(View(w)), text), ok)
    {
      if text == "" { return true; }
      if !thinkingOpen {
        if toolBlocks != map[] { return true; }
        ghost var closed := AnthropicProtocol.CloseText(View(w));
        ok := CloseText(w);
        if !ok { return; }
        ok := StartThinking(w);
        if !ok { return; }
      }
      ok := EmitDelta(w, thinkingIndex, Thinking, text);
    }

    method EmitText(w: Writer, content: string) returns (ok: bool)
      requires w as object != this
      modifies this, w
      ensures Reached(w, Talk(old(View(w)), content), ok)
    {
      if content == "" { return true; }
      if !textOpen {
        ok := CloseOpenTools(w);
        if !ok { return; }
        ok := CloseThinking(w);
        if !ok { return; }
        ok := StartText(w);
        if !ok { return; }
      }
      ok := EmitDelta(w, textIndex, Text, content);
    }

    method StartToolUse(w: Writer, d: Upstream.ToolDelta) returns (ok: bool)
      requires w as object != this
      modifies this, w
      ensures Reached(w, StartTool(old(View(w)), d), ok)
    {
      ghost var target := StartTool(View(w), d);
      var blockIdx := nextBlock;
      var toolID := RegisterTool(d);
      assert View(w) == target.(log := w.log);
      ok := w.WriteEvent(BlockStart(blockIdx, Tool, toolID, d.name));
    }

    /** The block of a new tool, before it is announced. */
    method RegisterTool(d: Upstream.ToolDelta) returns (toolID: Upstream.CallId)
      modifies this`nextBlock, this`toolBlocks, this`toolOpen, this`toolIDs, this`toolNames, this`supply
      ensures toolID == (if d.id == "" then Upstream.Minted(old(supply)) else Upstream.Given(d.id))
      ensures supply == (if d.id == "" then old(supply) + 1 else old(supply)) && nextBlock == old(nextBlock) + 1
      ensures toolBlocks == old(toolBlocks)[d.index := old(nextBlock)] && toolOpen == old(toolOpen) + {old(nextBlock)}
      ensures toolIDs == old(toolIDs)[old(nextBlock) := toolID] && toolNames == old(toolNames)[old(nextBlock) := d.name]
    {
      var blockIdx := nextBlock;
      nextBlock := nextBlock + 1;
      toolBlocks, toolOpen := toolBlocks[d.index := blockIdx], toolOpen + {blockIdx};
      toolID := NewToolUseID(d.id);
      toolIDs, toolNames := toolIDs[blockIdx := toolID], toolNames[blockIdx := d.name];
    }

    /** Random identifiers are a fresh supply. */
    method NewToolUseID(id: string) returns (toolID: Upstream.CallId)
      modifies this`supply
      ensures toolID == (if id == "" then Upstream.Minted(old(supply)) else Upstream.Given(id))
      ensures supply == (if id == "" then old(supply) + 1 else old(supply))
    {
      toolID := Upstream.Given(id);
      if id == "" {
        toolID := Upstream.Minted(supply);
        supply := supply + 1;
      }
    }

    /** A late id is kept; a late name is announced by starting the block again. */
    method BackfillTool(w: Writer, blockIdx: nat, d: Upstream.ToolDelta) returns (ok: bool)
      requires w as object != this
      modifies this, w
      ensures Reached(w, Backfill(old(View(w)), blockIdx, d), ok)
    {
      ok := true;
      if d.id != "" && (if blockIdx in toolIDs then toolIDs[blockIdx] else Upstream.Given("")) == Upstream.Given("") {
        toolIDs := toolIDs[blockIdx := Upstream.Given(d.id)];
      }
      if d.name != "" && (if blockIdx in toolNames then toolNames[blockIdx] else "") == "" {
        toolNames := toolNames[blockIdx := d.name];
        var toolID := if blockIdx in toolIDs then toolIDs[blockIdx] else Upstream.Given("");
        if toolID == Upstream.Given("") { toolID := Upstream.Given(d.id); }
        ok := w.WriteEvent(BlockStart(blockIdx, Tool, toolID, d.name));
      }
    }

    method EmitToolCall(w: Writer, d: Upstream.ToolDelta) returns (ok: bool)
      requires w as object != this
      modifies this, w
      ensures Reached(w, Call(old(View(w)), d), ok)
    {
      hide Backfill, StartTool, Delta, AnthropicProtocol.CloseThinking, AnthropicProtocol.CloseText;
      var blockIdx := nextBlock;
      if d.index in toolBlocks {
        blockIdx := toolBlocks[d.index];
        ok := BackfillTool(w, blockIdx, d);
        if !ok { return; }
      } else {
        ClosingKeepsNext(View(w));
        ok := CloseThinking(w);
        if !ok { return; }
        ok := CloseText(w);
        if !ok { return; }
        ok := StartToolUse(w, d);
        if !ok { return; }
      }
      if d.arguments != "" {
        ok := EmitDelta(w, blockIdx, Tool, d.arguments);
      }
    }

    method EmitToolCalls(w: Writer, calls: seq<Upstream.ToolDelta>) returns (ok: bool)
      requires w as object != this
      modifies this, w
      ensures Reached(w, ActAll(old(View(w)), Callings(calls)), ok)
    {
      hide Call, Callings;
      ghost var s, all := View(w), Callings(calls);
      for i := 0 to |calls|
        invariant View(w) == ActAll(s, all[..i])
      {
        assert all[..i + 1][..i] == all[..i];
        CallingAt(calls, i);
        ok := EmitToolCall(w, calls[i]);
        if !ok {
          ActAllGrows(s, all, i + 1);
          return;
        }
      }
      assert all[..|calls|] == all;
      ok := true;
    }

    /** Close whatever is open; a failure does not stop the later closes from trying. */
    method CloseAllBlocks(w: Writer, stopAtFailure: bool) returns (ok: bool)
      requires w as object != this
      modifies this`thinkingOpen, this`textOpen, this`toolOpen, w
      ensures Reached(w, CloseAll(old(View(w))), ok)
      ensures old(w.capacity) == 0 ==> w.log == old(w.log) && w.capacity == 0
    {
      var thinking := CloseThinking(w);
      if !thinking && stopAtFailure { return false; }
      var text := CloseText(w);
      if !text && stopAtFailure { return false; }
      var tools := CloseOpenTools(w);
      ok := thinking && text && tools;
    }

    method EmitErrorAndStop(w: Writer, message: string) returns (ok: bool)
      requires w as object != this
      modifies this, w
      ensures Reached(w, Fail(old(View(w)), message), ok)
      ensures old(w.capacity) == 0 ==> w.log == old(w.log) && w.capacity == 0
    {
      hide CloseAll;
      if finished { return true; }
      var closed := CloseAllBlocks(w, false);
      finished := true;
      ok := w.WriteEvent(ErrorEvent(if message == "" then "upstream error" else message));
      if !ok { return; }
      ok := w.WriteEvent(MessageStop);
    }

    method Finish(w: Writer, finishReason: string) returns (ok: bool)
      requires w as object != this && finishReason == (if lastFinishReason == "" then "stop" else lastFinishReason)
      modifies this, w
      ensures Reached(w, AnthropicProtocol.Finish(old(View(w))), ok)
      ensures old(w.capacity) == 0 ==> w.log == old(w.log) && w.capacity == 0
    {
      hide CloseAll, StopReason;
      if finished { return true; }
      ghost var s := View(w);
      finished := true;
      ok := CloseAllBlocks(w, true);
      ClosingSame(s);
      if !ok { return; }
      ok := w.WriteEvent(MessageDelta(StopReason(finishReason), usage));
      if !ok { return; }
      ok := w.WriteEvent(MessageStop);
    }

    method FinishIfNeeded(w: Writer)
      requires w as object != this
      modifies this, w
      ensures w.log == AnthropicProtocol.Finish(old(View(w))).log || Gone(w, AnthropicProtocol.Finish(old(View(w))).log)
      ensures old(w.capacity) == 0 ==> w.log == old(w.log) && w.capacity == 0
    {
      if !finished {
        var ok := Finish(w, if lastFinishReason == "" then "stop" else lastFinishReason);
      }
    }

    /** One decoded line; an upstream error ends the stream and the loop. */
    method ConsumeLine(w: Writer, line: Upstream.Line) returns (ok: bool)
      requires w as object != this
      modifies this, w
      ensures ok ==> View(w) == Consume(old(View(w)), line) && finished == old(finished)
      ensures !ok ==> Gone(w, Consume(old(View(w)), line).log)
                      || (View(w) == Consume(old(View(w)), line) && finished)
    {
      hide ActAll, Muse, Talk, Fail;
      if finished { return true; }
      match line
      case Silent => ok := true;
      case UpstreamError(message) =>
        var sent := EmitErrorAndStop(w, message);
        FailFinishes(old(View(w)), message);
        ok := false;
      case Chunk(_, _, content, calls, finishReason) =>
        ActsGoOn(View(w), ActionsOf(line));
        ok := EmitChunk(w, line);
        if ok && finishReason != "" { lastFinishReason := finishReason; }
    }

    method EmitChunk(w: Writer, line: Upstream.Line) returns (ok: bool)
      requires w as object != this && line.Chunk?
      modifies this, w
      ensures Reached(w, ActAll(old(View(w)), ActionsOf(line)), ok)
    {
      hide Muse, Talk, ActAll;
      ghost var s := View(w);
      ActPieces(s, line);
      ok := EmitReasoning(w, Upstream.ReasoningOf(line));
      if !ok { return; }
      ok := EmitText(w, line.content);
      if !ok { return; }
      ok := EmitToolCalls(w, line.calls);
    }
  }

  /** The client went away with a proper prefix of the log. */
  ghost predicate Gone(w: Writer, log: seq<Event>)
    reads w
  {
    w.capacity == 0 && |w.log| < |log| && w.log <= log
  }

  lemma {:induction false} CloseTextSame(s: State)
    ensures AnthropicProtocol.CloseText(s.(finished := true)) == AnthropicProtocol.CloseText(s).(finished := true)
    ensures AnthropicProtocol.CloseText(s).usage == s.usage && AnthropicProtocol.CloseText(s).reason == s.reason
    ensures AnthropicProtocol.CloseText(s).next == s.next
  {
  }

  lemma {:induction false} CloseThinkingSame(s: State)
    ensures AnthropicProtocol.CloseThinking(s.(finished := true)) ==
            AnthropicProtocol.CloseThinking(s).(finished := true)
    ensures AnthropicProtocol.CloseThinking(s).usage == s.usage && AnthropicProtocol.CloseThinking(s).reason == s.reason
    ensures AnthropicProtocol.CloseThinking(s).next == s.next
  {
  }

  /** Closing neither looks at nor changes the rest of the state. */
  lemma {:induction false} ClosingSame(s: State)
    ensures CloseAll(s.(finished := true)) == CloseAll(s).(finished := true)
    ensures CloseAll(s).usage == s.usage && CloseAll(s).reason == s.reason
  {
    hide AnthropicProtocol.CloseText, AnthropicProtocol.CloseThinking;
    var t := AnthropicProtocol.CloseThinking(s);
    CloseThinkingSame(s);
    CloseTextSame(t);
    var u := AnthropicProtocol.CloseText(t);
    CloseToolsSame(u, u.next);
  }

  lemma {:induction false} CloseToolsSame(s: State, n: nat)
    ensures CloseToolsBelow(s.(finished := true), n) == CloseToolsBelow(s, n).(finished := true)
  {
    if n > 0 { CloseToolsSame(s, n - 1); }
  }

  // ----- The adapter loop -----

  /** The stream is over for the loop: the client is gone, or nothing more will change. */
  ghost predicate Stopped(state: StreamState, w: Writer, target: State)
    reads state, w
  {
    Gone(w, target.log) || (state.View(w) == target && target.finished)
  }

  lemma {:induction false} FinishedConsumed(s: State, lines: seq<Upstream.Line>)
    requires s.finished
    ensures ConsumeAll(s, lines) == s
  {
    if |lines| > 0 { FinishedConsumed(s, lines[..|lines| - 1]); }
  }

  lemma {:induction false} ConsumeAllAppend(s: State, a: seq<Upstream.Line>, b: seq<Upstream.Line>)
    ensures ConsumeAll(s, a + b) == ConsumeAll(ConsumeAll(s, a), b)
  {
    if |b| == 0 {
      assert a + b == a;
    } else {
      assert (a + b)[..|a + b| - 1] == a + b[..|b| - 1];
      ConsumeAllAppend(s, a, b[..|b| - 1]);
    }
  }

  /** What stopped after a part of the lines has stopped after all of them. */
  lemma {:induction false} StopsEarly(state: StreamState, w: Writer, here: State, target: State)
    requires Stopped(state, w, here) && here.log <= target.log && (here.finished ==> target == here)
    ensures Stopped(state, w, target)
  {
  }

  method ConsumeEvent(state: StreamState, w: Writer, lines: seq<Upstream.Line>) returns (ok: bool)
    requires w as object != state && !state.finished
    modifies state, w
    ensures var target := ConsumeAll(old(state.View(w)), lines);
            if ok then state.View(w) == target && !target.finished else Stopped(state, w, target)
  {
    ghost var s := state.View(w);
    for i := 0 to |lines|
      invariant state.View(w) == ConsumeAll(s, lines[..i]) && !state.finished
    {
      assert lines[..i + 1][..i] == lines[..i];
      ok := state.ConsumeLine(w, lines[i]);
      if !ok {
        ghost var here := ConsumeAll(s, lines[..i + 1]);
        assert lines[..i + 1] + lines[i + 1..] == lines;
        ConsumeAllAppend(s, lines[..i + 1], lines[i + 1..]);
        if here.finished { FinishedConsumed(here, lines[i + 1..]); }
        StopsEarly(state, w, here, ConsumeAll(s, lines));
        return;
      }
    }
    assert lines[..|lines|] == lines;
    ok := true;
  }

  method Observe(state: StreamState, snap: Upstream.Usage, ghost w: Writer)
    modifies state`usage
    ensures state.View(w) == Overlay(old(state.View(w)), snap)
  {
    if snap != NO_USAGE {
      state.ApplyUsage(snap, w);
    }
  }

  lemma {:induction false} MuseGoesOn(s: State, text: string)
    ensures Muse(s, text).finished == s.finished
  {
    hide Delta;
    if s.thinking.Some? {
      DeltaGoesOn(s, s.thinking.value, Thinking, text);
    } else {
      var t := AnthropicProtocol.CloseText(s);
      assert t.finished == s.finished;
      DeltaGoesOn(AnthropicProtocol.StartThinking(t), t.next, Thinking, text);
    }
  }

  lemma {:induction false} TalkGoesOn(s: State, text: string)
    ensures Talk(s, text).finished == s.finished
  {
  }

  lemma {:induction false} CallGoesOn(s: State, d: Upstream.ToolDelta)
    ensures Call(s, d).finished == s.finished
  {
    hide Backfill, StartTool, Delta;
    var t := AnthropicProtocol.CloseText(AnthropicProtocol.CloseThinking(s));
    assert t.finished == s.finished;
    StartToolGoesOn(t, d);
    if d.index in s.blocks {
      var b := s.blocks[d.index];
      BackfillGoesOn(s, b, d);
      DeltaGoesOn(Backfill(s, b, d), b, Tool, d.arguments);
    } else {
      DeltaGoesOn(StartTool(t, d), s.next, Tool, d.arguments);
    }
  }

  lemma {:induction false} StartToolGoesOn(s: State, d: Upstream.ToolDelta)
    ensures StartTool(s, d).finished == s.finished
  {
  }

  lemma {:induction false} BackfillGoesOn(s: State, b: nat, d: Upstream.ToolDelta)
    ensures Backfill(s, b, d).finished == s.finished
  {
  }

  lemma {:induction false} DeltaGoesOn(s: State, index: nat, block: Block, text: string)
    ensures Delta(s, index, block, text).finished == s.finished
  {
  }

  /** No piece of a chunk ends the stream. */
  lemma {:induction false} ActsGoOn(s: State, actions: seq<Action>)
    ensures ActAll(s, actions).finished == s.finished
  {
    if |actions| > 0 {
      hide Muse, Talk, Call;
      ActsGoOn(s, actions[..|actions| - 1]);
      var t := ActAll(s, actions[..|actions| - 1]);
      match actions[|actions| - 1]
      case Musing(text) => MuseGoesOn(t, text);
      case Talking(text) => TalkGoesOn(t, text);
      case Calling(d) => CallGoesOn(t, d);
    }
  }

  lemma {:induction false} FailFinishes(s: State, message: string)
    ensures Fail(s, message).finished
  {
  }

  /** A chunk acts as its reasoning, then its text, then its calls. */
  lemma {:induction false} ActPieces(s: State, line: Upstream.Line)
    requires line.Chunk?
    ensures var m := Muse(s, Upstream.ReasoningOf(line)); var t := Talk(m, line.content);
            ActAll(s, ActionsOf(line)) == ActAll(t, Callings(line.calls))
              && m.log <= t.log <= ActAll(s, ActionsOf(line)).log
  {
    var head := [Musing(Upstream.ReasoningOf(line)), Talking(line.content)];
    assert head[..1] == [Musing(Upstream.ReasoningOf(line))] && head[..1][..0] == [];
    assert ActAll(s, head[..1]) == Muse(s, Upstream.ReasoningOf(line));
    ActAllAppend(s, head, Callings(line.calls));
  }

  lemma {:induction false} ActAllAppend(s: State, a: seq<Action>, b: seq<Action>)
    ensures ActAll(s, a + b) == ActAll(ActAll(s, a), b)
  {
    if |b| == 0 {
      assert a + b == a;
    } else {
      assert (a + b)[..|a + b| - 1] == a + b[..|b| - 1];
      ActAllAppend(s, a, b[..|b| - 1]);
    }
  }

  lemma {:induction false} ClosingKeepsNext(s: State)
    ensures AnthropicProtocol.CloseText(AnthropicProtocol.CloseThinking(s)).next == s.next
  {
    hide AnthropicProtocol.CloseText, AnthropicProtocol.CloseThinking;
    CloseThinkingSame(s);
    CloseTextSame(AnthropicProtocol.CloseThinking(s));
  }

  lemma {:induction false} CallingAt(calls: seq<Upstream.ToolDelta>, i: nat)
    requires i < |calls|
    ensures Callings(calls)[i] == Calling(calls[i])
  {
  }

  lemma {:induction false} ActAllGrows(s: State, actions: seq<Action>, i: nat)
    requires i <= |actions|
    ensures ActAll(s, actions[..i]).log <= ActAll(s, actions).log
    decreases |actions| - i
  {
    if i < |actions| {
      assert actions[..i + 1][..i] == actions[..i];
      ActAllGrows(s, actions, i + 1);
    } else {
      assert actions[..i] == actions;
    }
  }

  lemma {:induction false} CloseToolsGrow(s: State, m: nat, n: nat)
    requires m <= n
    ensures CloseToolsBelow(s, m).log <= CloseToolsBelow(s, n).log
  {
    if m < n { CloseToolsGrow(s, m, n - 1); }
  }
}
