/** The Anthropic Messages adapter: its steps on values, and the client that checks
    what it sends. */
module AnthropicProtocol {
  import opened Wrappers
  import opened ResponsesProtocol
  import opened UpstreamLines

  datatype Block = Thinking | Text | Tool

  datatype Event =
    | MessageStart(input: int)
    | BlockStart(index: nat, block: Block, id: CallId, name: string)
    | BlockDelta(index: nat, block: Block, text: string)
    | BlockStop(index: nat)
    | ErrorEvent(message: string)
    | MessageDelta(reason: string, usage: Usage)
    | MessageStop

  /** `blocks` maps upstream tool indexes to block indexes and is never cleared; `open`
      are the tool blocks not stopped yet. */
  datatype State = State(
    log: seq<Event>,
    thinking: Option<nat>,
    text: Option<nat>,
    next: nat,
    blocks: map<int, nat>,
    open: set<nat>,
    names: map<nat, string>,
    ids: map<nat, CallId>,
    usage: Usage,
    finished: bool,
    reason: string,
    supply: nat)

  // ----- Steps -----

  function Sent(s: State, e: Event): (r: State)
    ensures s.log <= r.log
  {
    s.(log := s.log + [e])
  }

  function CloseThinking(s: State): (r: State)
    ensures s.log <= r.log
  {
    if s.thinking.Some? then Sent(s, BlockStop(s.thinking.value)).(thinking := None) else s
  }

  function CloseText(s: State): (r: State)
    ensures s.log <= r.log
  {
    if s.text.Some? then Sent(s, BlockStop(s.text.value)).(text := None) else s
  }

  /** Open tool blocks stop in index order. */
  function CloseToolsBelow(s: State, n: nat): (r: State)
    ensures s.log <= r.log
    ensures r == s.(log := r.log, open := r.open)
  {
    if n == 0 then s
    else
      var t := CloseToolsBelow(s, n - 1);
      if n - 1 in s.open then Sent(t, BlockStop(n - 1)).(open := t.open - {n - 1}) else t
  }

  function CloseTools(s: State): (r: State)
    ensures s.log <= r.log
  {
    CloseToolsBelow(s, s.next)
  }

  function CloseAll(s: State): (r: State)
    ensures s.log <= r.log
  {
    CloseTools(CloseText(CloseThinking(s)))
  }

  /** A rough token count for text the upstream did not count, from its length in bytes. */
  function Tokens(text: string): nat { (|text| + 3) / 4 }

  function Delta(s: State, index: nat, block: Block, text: string): (r: State)
    ensures s.log <= r.log
  {
    Sent(s, BlockDelta(index, block, text)).(usage := s.usage.(output := s.usage.output + Tokens(text)))
  }

  function StartThinking(s: State): (r: State)
    ensures s.log <= r.log
  {
    Sent(s, BlockStart(s.next, Thinking, Given(""), "")).(thinking := Some(s.next), next := s.next + 1)
  }

  function StartText(s: State): (r: State)
    ensures s.log <= r.log
  {
    Sent(s, BlockStart(s.next, Text, Given(""), "")).(text := Some(s.next), next := s.next + 1)
  }

  /** Reasoning is dropped once a tool has started. */
  function Muse(s: State, text: string): (r: State)
    ensures s.log <= r.log
  {
    if text == "" then s
    else if s.thinking.Some? then Delta(s, s.thinking.value, Thinking, text)
    else if s.blocks != map[] then s
    else
      var t := StartThinking(CloseText(s));
      Delta(t, t.thinking.value, Thinking, text)
  }

  function Talk(s: State, text: string): (r: State)
    ensures s.log <= r.log
  {
    if text == "" then s
    else
      var t := if s.text.Some? then s else StartText(CloseThinking(CloseTools(s)));
      Delta(t, t.text.value, Text, text)
  }

  function IdFor(s: State, d: ToolDelta): CallId { if d.id == "" then Minted(s.supply) else Given(d.id) }

  function StartTool(s: State, d: ToolDelta): (r: State)
    ensures s.log <= r.log
  {
    Sent(s, BlockStart(s.next, Tool, IdFor(s, d), d.name)).(
      next := s.next + 1, blocks := s.blocks[d.index := s.next], open := s.open + {s.next},
      ids := s.ids[s.next := IdFor(s, d)], names := s.names[s.next := d.name],
      supply := if d.id == "" then s.supply + 1 else s.supply)
  }

  function NameOf(s: State, b: nat): string { if b in s.names then s.names[b] else "" }

  function IdOf(s: State, b: nat): CallId { if b in s.ids then s.ids[b] else Given("") }

  function LateId(s: State, b: nat, d: ToolDelta): State {
    if d.id != "" && IdOf(s, b) == Given("") then s.(ids := s.ids[b := Given(d.id)]) else s
  }

  /** The repeated start of a block whose name came late. */
  function Repeat(s: State, b: nat, d: ToolDelta): Event {
    BlockStart(b, Tool, if IdOf(s, b) == Given("") then Given(d.id) else IdOf(s, b), d.name)
  }

  predicate NameIsLate(s: State, b: nat, d: ToolDelta) { d.name != "" && NameOf(s, b) == "" }

  /** A late name repeats the start of the block. */
  function Backfill(s: State, b: nat, d: ToolDelta): (r: State)
    ensures s.log <= r.log
  {
    var t := LateId(s, b, d);
    if NameIsLate(s, b, d) then Sent(t, Repeat(t, b, d)).(names := t.names[b := d.name]) else t
  }

  function Call(s: State, d: ToolDelta): (r: State)
    ensures s.log <= r.log
  {
    var known := d.index in s.blocks;
    var b := if known then s.blocks[d.index] else s.next;
    var t := if known then Backfill(s, b, d) else StartTool(CloseText(CloseThinking(s)), d);
    if d.arguments == "" then t else Delta(t, b, Tool, d.arguments)
  }

  /** What one chunk brings, piece by piece. */
  datatype Action = Musing(text: string) | Talking(text: string) | Calling(d: ToolDelta)

  function Act(s: State, a: Action): (r: State)
    ensures s.log <= r.log
  {
    match a
    case Musing(text) => Muse(s, text)
    case Talking(text) => Talk(s, text)
    case Calling(d) => Call(s, d)
  }

  function ActAll(s: State, actions: seq<Action>): (r: State)
    ensures s.log <= r.log
  {
    if |actions| == 0 then s else Act(ActAll(s, actions[..|actions| - 1]), actions[|actions| - 1])
  }

  function Callings(calls: seq<ToolDelta>): (r: seq<Action>)
    ensures |r| == |calls|
  {
    seq(|calls|, i requires 0 <= i < |calls| => Calling(calls[i]))
  }

  function ActionsOf(c: Line): seq<Action>
    requires c.Chunk?
  {
    [Musing(ReasoningOf(c)), Talking(c.content)] + Callings(c.calls)
  }

  function Fail(s: State, message: string): (r: State)
    ensures s.log <= r.log
  {
    if s.finished then s
    else Sent(Sent(CloseAll(s), ErrorEvent(if message == "" then "upstream error" else message)),
              MessageStop).(finished := true)
  }

  function StopReason(reason: string): string {
    if reason == "tool_calls" then "tool_use"
    else if reason == "length" then "max_tokens"
    else "end_turn"
  }

  function Finish(s: State): (r: State)
    ensures s.log <= r.log
  {
    if s.finished then s
    else Sent(Sent(CloseAll(s), MessageDelta(StopReason(if s.reason == "" then "stop" else s.reason), s.usage)),
              MessageStop).(finished := true)
  }

  function Consume(s: State, line: Line): (r: State)
    ensures s.log <= r.log
  {
    if s.finished then s
    else match line
      case Silent => s
      case UpstreamError(message) => Fail(s, message)
      case Chunk(_, _, _, _, _) =>
        var t := ActAll(s, ActionsOf(line));
        if line.finishReason != "" then t.(reason := line.finishReason) else t
  }

  // ----- Usage and whole runs -----

  function ApplyUsage(s: State, snap: Usage): State {
    s.(usage := Usage(if snap.input > 0 then snap.input else s.usage.input,
                      if snap.output > 0 then snap.output else s.usage.output,
                      snap.cacheRead, snap.cacheCreation))
  }

  /** A zero snapshot is not applied. */
  function Overlay(s: State, snap: Usage): State {
    if snap == NO_USAGE then s else ApplyUsage(s, snap)
  }

  /** A decoded line with the usage snapshot scanned so far. */
  datatype Scanned = Scanned(line: Line, snap: Usage)

  function NewState(inputTokens: int): State {
    State([], None, None, 0, map[], {}, map[], map[], Usage(inputTokens, 0, 0, 0), false, "", 0)
  }

  function Begin(inputTokens: int, snap: Usage): State {
    var s := Overlay(NewState(inputTokens), snap);
    Sent(s, MessageStart(s.usage.input))
  }

  function ConsumeAll(s: State, lines: seq<Line>): (r: State)
    ensures s.log <= r.log
  {
    if |lines| == 0 then s else Consume(ConsumeAll(s, lines[..|lines| - 1]), lines[|lines| - 1])
  }

  /** A finished stream takes no more usage. */
  function Fed(s: State, x: Scanned): (r: State)
    ensures s.log <= r.log
  {
    if s.finished then s else Consume(Overlay(s, x.snap), x.line)
  }

  function FedAll(s: State, lines: seq<Scanned>): (r: State)
    ensures s.log <= r.log
  {
    if |lines| == 0 then s else Fed(FedAll(s, lines[..|lines| - 1]), lines[|lines| - 1])
  }

  function LastSnap(first: Usage, rest: seq<Scanned>, last: Option<Scanned>): Usage {
    if last.Some? then last.value.snap else if |rest| == 0 then first else rest[|rest| - 1].snap
  }

  /** A whole run: the lines of the first event with its snapshot, the later lines, the
      unterminated last line if there is one, the end.  The usage of the last line is
      only taken at the end. */
  function Run(inputTokens: int, first: seq<Line>, snap: Usage, rest: seq<Scanned>, last: Option<Scanned>): State {
    var s := FedAll(ConsumeAll(Begin(inputTokens, snap), first), rest);
    var t := if last.Some? then Consume(s, last.value.line) else s;
    if t.finished then t else Finish(Overlay(t, LastSnap(snap, rest, last)))
  }

  // ----- The client -----

  datatype Phase = Waiting | Streaming | Ending | Ended

  /** What a client knows: the kind of each block started so far, and which are open. */
  datatype Client = Client(kinds: seq<Block>, open: set<nat>, phase: Phase)

  const NEW_CLIENT := Client([], {}, Waiting)

  /** A client takes an event or objects.  Blocks are numbered 0, 1, 2, ...; thinking
      and text open only alone and tools only beside tools; deltas name an open block of
      their kind; only an open block stops; the end comes with nothing open, then
      message_stop and nothing more.  A lenient client also takes deltas and
      repeated starts of tool blocks that have stopped. */
  function Receive(c: Client, e: Event, strict: bool): Option<Client> {
    match e
    case MessageStart(_) => if c.phase == Waiting then Some(c.(phase := Streaming)) else None
    case BlockStart(i, block, _, _) =>
      if c.phase != Streaming then None
      else if i == |c.kinds| then
        if c.open == {} || (block == Tool && forall j :: j in c.open ==> j < |c.kinds| && c.kinds[j] == Tool)
        then Some(c.(kinds := c.kinds + [block], open := c.open + {i})) else None
      else if i < |c.kinds| && block == Tool && c.kinds[i] == Tool && (i in c.open || !strict) then Some(c)
      else None
    case BlockDelta(i, block, _) =>
      if c.phase == Streaming && i < |c.kinds| && c.kinds[i] == block
         && (i in c.open || (!strict && block == Tool))
      then Some(c) else None
    case BlockStop(i) => if c.phase == Streaming && i in c.open then Some(c.(open := c.open - {i})) else None
    case ErrorEvent(_) => if c.phase == Streaming && c.open == {} then Some(c.(phase := Ending)) else None
    case MessageDelta(_, _) => if c.phase == Streaming && c.open == {} then Some(c.(phase := Ending)) else None
    case MessageStop => if c.phase == Ending then Some(c.(phase := Ended)) else None
  }

  function ReceiveAll(log: seq<Event>, strict: bool): Option<Client> {
    if |log| == 0 then Some(NEW_CLIENT)
    else
      match ReceiveAll(log[..|log| - 1], strict)
      case None => None
      case Some(c) => Receive(c, log[|log| - 1], strict)
  }

  // ----- What acceptance means -----

  function Starts(log: seq<Event>, i: nat): nat {
    if |log| == 0 then 0
    else Starts(log[..|log| - 1], i) + if log[|log| - 1].BlockStart? && log[|log| - 1].index == i then 1 else 0
  }

  function Stops(log: seq<Event>, i: nat): nat {
    if |log| == 0 then 0
    else Stops(log[..|log| - 1], i) + if log[|log| - 1].BlockStop? && log[|log| - 1].index == i then 1 else 0
  }

  /** A client that took the log saw each block started, more than once only for a tool,
      and stopped exactly once or still open. */
  lemma {:induction false} AcceptedCounts(log: seq<Event>, strict: bool, i: nat)
    requires ReceiveAll(log, strict).Some?
    ensures var c := ReceiveAll(log, strict).value;
            && (i < |c.kinds| ==> Starts(log, i) >= 1 && (c.kinds[i] != Tool ==> Starts(log, i) == 1))
            && (i >= |c.kinds| ==> Starts(log, i) == 0 && i !in c.open)
            && Stops(log, i) == if i < |c.kinds| && i !in c.open then 1 else 0
  {
    if |log| > 0 { AcceptedCounts(log[..|log| - 1], strict, i); }
  }

  /** After message_stop a client takes nothing. */
  lemma {:induction false} StopIsLast(log: seq<Event>, strict: bool, i: nat)
    requires ReceiveAll(log, strict).Some? && i < |log| && log[i] == MessageStop
    ensures i == |log| - 1 && ReceiveAll(log, strict).value.phase == Ended
  {
    var n := |log| - 1;
    if i < n {
      assert log[..n][i] == MessageStop;
      StopIsLast(log[..n], strict, i);
    }
  }
}
