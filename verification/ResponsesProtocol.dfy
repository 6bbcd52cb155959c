/** The Responses event protocol: what the adapter is for, stated without its
    bookkeeping.  A stream is a growing list of entries, one for each output
    index, and the log of events sent so far. */
module ResponsesProtocol {
  import opened Wrappers

  /** A tool call id: sent by the upstream or minted by the gateway. */
  datatype CallId = Given(text: string) | Minted(serial: nat)

  /** A finished output item. */
  datatype Item =
    | Reasoning(id: nat, text: string)
    | Message(id: nat, text: string)
    | FunctionCall(id: nat, callId: CallId, name: string, arguments: string)

  datatype Kind = ReasoningKind | MessageKind | CallKind

  /** An output item under construction; its position in the list of entries is
      its output index.  `announced` is the name sent when the item was added. */
  datatype Entry = Entry(kind: Kind, id: nat, callId: CallId, announced: string, name: string, deltas: seq<string>)

  datatype Usage = Usage(input: int, output: int, cacheRead: int, cacheCreation: int)

  datatype Payload =
    | Created(output: seq<Item>)
    | InProgress(output: seq<Item>)
    | ItemAdded(index: nat, kind: Kind, id: nat, callId: CallId, name: string)
    | PartAdded(index: nat, kind: Kind, id: nat)
    | Delta(index: nat, kind: Kind, id: nat, text: string)
    | ContentDone(index: nat, kind: Kind, id: nat, text: string)
    | PartDone(index: nat, kind: Kind, id: nat, text: string)
    | ItemDone(index: nat, item: Item)
    | Completed(output: seq<Item>, usage: Usage)
    | Incomplete(output: seq<Item>, usage: Usage, reason: string)
    | Failed(output: seq<Item>, message: string)

  predicate Terminal(p: Payload) { p.Completed? || p.Incomplete? || p.Failed? }

  predicate Preamble(p: Payload) { p.Created? || p.InProgress? }

  /** The events about output index k, in order. */
  function Project(log: seq<Payload>, k: nat): seq<Payload> {
    if |log| == 0 then []
    else
      var last := log[|log| - 1];
      Project(log[..|log| - 1], k) + if !Preamble(last) && !Terminal(last) && last.index == k then [last] else []
  }

  function Finished(e: Entry): Item {
    match e.kind
    case ReasoningKind => Reasoning(e.id, Join(e.deltas))
    case MessageKind => Message(e.id, Join(e.deltas))
    case CallKind => FunctionCall(e.id, e.callId, e.name, Join(e.deltas))
  }

  function Outputs(entries: seq<Entry>): (items: seq<Item>)
    ensures |items| == |entries|
  {
    seq(|entries|, i requires 0 <= i < |entries| => Finished(entries[i]))
  }

  function Opening(e: Entry, k: nat): seq<Payload> {
    [ItemAdded(k, e.kind, e.id, e.callId, e.announced)]
      + if e.kind == CallKind then [] else [PartAdded(k, e.kind, e.id)]
  }

  function Deltas(e: Entry, k: nat): seq<Payload> {
    seq(|e.deltas|, i requires 0 <= i < |e.deltas| => Delta(k, e.kind, e.id, e.deltas[i]))
  }

  function Closing(e: Entry, k: nat): seq<Payload> {
    [ContentDone(k, e.kind, e.id, Join(e.deltas))]
    + (if e.kind == CallKind then [] else [PartDone(k, e.kind, e.id, Join(e.deltas))])
    + [ItemDone(k, Finished(e))]
  }

  /** Everything a client may see about one output index: added once, then its
      deltas, then (once closed) the done events carrying their concatenation. */
  function Trace(e: Entry, k: nat, closed: bool): seq<Payload> {
    Opening(e, k) + Deltas(e, k) + if closed then Closing(e, k) else []
  }

  /** The whole life of a stream, as its client sees it. */
  ghost predicate Lifecycle(log: seq<Payload>, entries: seq<Entry>) {
    && |log| >= 3
    && log[0] == Created([]) && log[1] == InProgress([])
    && (forall i :: 2 <= i < |log| ==> !Preamble(log[i]))
    && (forall i :: 0 <= i < |log| ==> (Terminal(log[i]) <==> i == |log| - 1))
    && log[|log| - 1].output == Outputs(entries)
    && (forall k: nat :: k < |entries| ==> Project(log, k) == Trace(entries[k], k, true))
    && (forall k: nat :: |entries| <= k ==> Project(log, k) == [])
  }

  // ----- The protocol state and its steps -----

  /** `entries[settled..]` are the items still open: one reasoning, one message,
      or a block of calls whose upstream tool indexes are `active`, in order. */
  datatype Stream = Stream(
    log: seq<Payload>,
    entries: seq<Entry>,
    settled: nat,
    active: seq<int>,
    toolsStarted: bool,
    supply: nat,
    finishReason: string,
    usage: Usage,
    finished: bool)

  predicate Open(s: Stream, kind: Kind) {
    s.settled < |s.entries| && s.entries[s.settled].kind == kind
  }

  function Flatten(blocks: seq<seq<Payload>>): seq<Payload> {
    if |blocks| == 0 then [] else Flatten(blocks[..|blocks| - 1]) + blocks[|blocks| - 1]
  }

  /** The closing events of entries from..to, one block for each. */
  function ClosingBlocks(entries: seq<Entry>, from: nat, to: nat): (r: seq<seq<Payload>>)
    requires from <= to <= |entries|
    ensures |r| == to - from
  {
    seq(to - from, i requires 0 <= i < to - from => Closing(entries[from + i], from + i))
  }

  /** Close every open item, in output-index order. */
  function Settle(s: Stream): (r: Stream)
    ensures s.log <= r.log
  {
    if s.settled >= |s.entries| then s
    else s.(log := s.log + Flatten(ClosingBlocks(s.entries, s.settled, |s.entries|)), settled := |s.entries|,
            active := [])
  }

  function Begin(s: Stream, e: Entry): (r: Stream)
    ensures s.log <= r.log
  {
    s.(log := s.log + Opening(e, |s.entries|), entries := s.entries + [e])
  }

  function Push(s: Stream, k: nat, text: string): (r: Stream)
    requires k < |s.entries|
    ensures s.log <= r.log
  {
    var e := s.entries[k];
    s.(log := s.log + [Delta(k, e.kind, e.id, text)], entries := s.entries[k := e.(deltas := e.deltas + [text])])
  }

  /** Start an item that is open alone, with its first delta. */
  function BeginSolo(s: Stream, kind: Kind, text: string): (r: Stream)
    ensures s.log <= r.log
  {
    var b := Begin(s, Entry(kind, s.supply, Given(""), "", "", [])).(supply := s.supply + 1);
    Push(b, |b.entries| - 1, text)
  }

  function AddReasoning(s: Stream, delta: string): (r: Stream)
    ensures s.log <= r.log
  {
    if delta == "" then s
    else if Open(s, ReasoningKind) then Push(s, |s.entries| - 1, delta)
    else if s.toolsStarted then s
    else BeginSolo(Settle(s), ReasoningKind, delta)
  }

  function AddText(s: Stream, content: string): (r: Stream)
    ensures s.log <= r.log
  {
    if content == "" then s
    else if Open(s, MessageKind) then Push(s, |s.entries| - 1, content)
    else BeginSolo(Settle(s), MessageKind, content)
  }

  datatype ToolDelta = ToolDelta(index: int, id: string, name: string, arguments: string)

  /** The call id and name an already open call ends up with after a late delta. */
  function Backfill(e: Entry, d: ToolDelta): Entry {
    e.(callId := if d.id != "" && e.callId == Given("") then Given(d.id) else e.callId,
       name := if d.name != "" && e.name == "" then d.name else e.name)
  }

  /** Open calls stay open beside a new one; anything else is closed first. */
  function BeginCall(s: Stream, d: ToolDelta): (r: Stream)
    ensures s.log <= r.log
  {
    BeginCallOn(if Open(s, CallKind) then s else Settle(s), d)
  }

  function BeginCallOn(s: Stream, d: ToolDelta): (r: Stream)
    ensures s.log <= r.log
  {
    Begin(s, NewCall(s, d)).(supply := s.supply + if d.id == "" then 2 else 1,
                             active := s.active + [d.index], toolsStarted := true)
  }

  function NewCall(s: Stream, d: ToolDelta): Entry {
    Entry(CallKind, s.supply, if d.id == "" then Minted(s.supply + 1) else Given(d.id), d.name, d.name, [])
  }

  function Position(xs: seq<int>, x: int): (p: nat)
    ensures p <= |xs|
  {
    if |xs| == 0 || xs[0] == x then 0 else 1 + Position(xs[1..], x)
  }

  /** The output index of the open call with this upstream tool index. */
  function SlotOf(s: Stream, index: int): nat {
    s.settled + Position(s.active, index)
  }

  predicate Known(s: Stream, d: ToolDelta) {
    d.index in s.active && SlotOf(s, d.index) < |s.entries|
  }

  /** The stream with the call of this delta open and its name filled in. */
  function CallReady(s: Stream, d: ToolDelta): (r: Stream)
    ensures s.log <= r.log
    ensures CallSlot(s, d) < |r.entries|
  {
    if Known(s, d) then
      var k := SlotOf(s, d.index);
      s.(entries := s.entries[k := Backfill(s.entries[k], d)])
    else
      BeginCall(s, d)
  }

  function CallSlot(s: Stream, d: ToolDelta): nat {
    if Known(s, d) then SlotOf(s, d.index) else |s.entries|
  }

  function AddCall(s: Stream, d: ToolDelta): (r: Stream)
    ensures s.log <= r.log
  {
    if d.arguments == "" then CallReady(s, d) else Push(CallReady(s, d), CallSlot(s, d), d.arguments)
  }

  function AddCalls(s: Stream, calls: seq<ToolDelta>): (r: Stream)
    ensures s.log <= r.log
  {
    if |calls| == 0 then s else AddCall(AddCalls(s, calls[..|calls| - 1]), calls[|calls| - 1])
  }

  /** One decoded upstream line.  `Silent` covers every line that carries no
      choice: no data field, empty, [DONE], not JSON, or no choices. */
  datatype Line =
    | Silent
    | UpstreamError(message: string)
    | Chunk(reasoningContent: string, reasoning: string, content: string, calls: seq<ToolDelta>, finishReason: string)

  function ReasoningOf(c: Line): string
    requires c.Chunk?
  {
    if c.reasoningContent == "" then c.reasoning else c.reasoningContent
  }

  function AddChunk(s: Stream, c: Line): (r: Stream)
    requires c.Chunk?
    ensures s.log <= r.log
  {
    var r := AddCalls(AddText(AddReasoning(s, ReasoningOf(c)), c.content), c.calls);
    if c.finishReason != "" then r.(finishReason := c.finishReason) else r
  }

  function Fail(s: Stream, message: string): (r: Stream)
    ensures s.log <= r.log
  {
    if s.finished then s
    else
      var t := Settle(s);
      var text := if message == "" then "upstream error" else message;
      t.(log := t.log + [Failed(Outputs(t.entries), text)], finished := true)
  }

  function FinishEvent(s: Stream): Payload {
    if IsIncompleteFinish(s.finishReason)
    then Incomplete(Outputs(s.entries), s.usage, IncompleteReason(s.finishReason))
    else Completed(Outputs(s.entries), s.usage)
  }

  function Finish(s: Stream): (r: Stream)
    ensures s.log <= r.log
  {
    if s.finished then s
    else
      var t := Settle(s);
      t.(log := t.log + [FinishEvent(t)], finished := true)
  }

  function Consume(s: Stream, line: Line): (r: Stream)
    ensures s.log <= r.log
  {
    if s.finished then s
    else match line
      case Silent => s
      case UpstreamError(message) => Fail(s, message)
      case Chunk(_, _, _, _, _) => AddChunk(s, line)
  }

  function ConsumeAll(s: Stream, lines: seq<Line>): (r: Stream)
    ensures s.log <= r.log
  {
    if |lines| == 0 then s else Consume(ConsumeAll(s, lines[..|lines| - 1]), lines[|lines| - 1])
  }

  /** The stream right after its headers: created and in_progress are out. */
  function Start(usage: Usage): Stream {
    Stream([Created([]), InProgress([])], [], 0, [], false, 0, "", usage, false)
  }

  // ----- Finish reasons -----

  function Lower(s: string): string {
    seq(|s|, i requires 0 <= i < |s| => if 'A' <= s[i] <= 'Z' then s[i] - 'A' + 'a' else s[i])
  }

  predicate IsIncompleteFinish(reason: string) {
    var r := Lower(TrimSpace(reason));
    r == "length" || r == "content_filter"
  }

  function IncompleteReason(reason: string): string {
    var r := Lower(TrimSpace(reason));
    if r == "length" then "max_output_tokens"
    else if r == "content_filter" then "content_filter"
    else reason
  }

  /** The same word, whatever its case and the white space around it. */
  predicate IsWord(text: string, word: string) {
    var t := TrimSpace(text);
    && |t| == |word|
    && forall i :: 0 <= i < |t| ==> t[i] == word[i] || ('A' <= t[i] <= 'Z' && t[i] as int + 32 == word[i] as int)
  }

  lemma {:induction false} LowerIsWord(text: string, word: string)
    requires forall i :: 0 <= i < |word| ==> !('A' <= word[i] <= 'Z')
    ensures Lower(TrimSpace(text)) == word <==> IsWord(text, word)
  {
    hide TrimSpace;
    var t, l := TrimSpace(text), Lower(TrimSpace(text));
    assert |l| == |t|;
    forall i | 0 <= i < |t| && i < |word|
      ensures l[i] == word[i] <==>
              t[i] == word[i] || ('A' <= t[i] <= 'Z' && t[i] as int + 32 == word[i] as int)
    {
    }
  }
}
