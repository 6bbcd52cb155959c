/** What a Responses stream says: exactly what its upstream said, in whatever order the lines
    bring reasoning, content and calls. */
module ResponsesContent {
  import opened Wrappers
  import opened SseLines
  import opened ResponsesProtocol
  import opened UpstreamLines
  import opened ChatStory
  import opened ResponsesLifecycle
  import opened ResponsesStream
  import opened ResponsesWriteStream
  import Protocol = ResponsesProtocol
  import Response = ResponsesResponse

  // ----- Entries and parts -----

  /** The entry has the kind, the id and the names of the part, and its text in pieces. */
  predicate Matches(e: Entry, p: Part) {
    && Join(e.deltas) == p.text
    && match p
       case Thought(_) => e.kind == ReasoningKind
       case Speech(_) => e.kind == MessageKind
       case Tool(_, id, opening, name, _) =>
         && e.kind == CallKind && e.announced == opening && e.name == name
         && (if id == "" then e.callId.Minted? else e.callId == Given(id))
  }

  predicate MatchesAll(entries: seq<Entry>, parts: seq<Part>) {
    |entries| == |parts| && forall k :: 0 <= k < |parts| ==> Matches(entries[k], parts[k])
  }

  /** Where the open items begin: the last part, or the calls at the end. */
  function OpenFrom(parts: seq<Part>): nat {
    if |parts| > 0 && !parts[|parts| - 1].Tool? then |parts| - 1 else Trail(parts)
  }

  /** The indexes of the calls at the end. */
  function Active(parts: seq<Part>): (r: seq<int>)
    ensures |r| == |parts| - Trail(parts)
  {
    var from := Trail(parts);
    seq(|parts| - from, i requires 0 <= i < |parts| - from => parts[from + i].index)
  }

  /** The stream carries these parts so far. */
  ghost predicate Carries(s: Stream, parts: seq<Part>) {
    && !s.finished && MatchesAll(s.entries, parts) && (s.toolsStarted <==> AnyTool(parts))
    && s.settled == OpenFrom(parts) && s.active == Active(parts)
  }

  lemma {:induction false} AppendCarries(s: Stream, parts: seq<Part>, r: Stream, e: Entry, p: Part)
    requires MatchesAll(s.entries, parts) && Matches(e, p) && r.entries == s.entries + [e] && !r.finished
    requires r.toolsStarted <==> AnyTool(parts) || p.Tool?
    requires if p.Tool? then r.settled == Trail(parts) && r.active == Active(parts) + [p.index]
             else r.settled == |parts| && r.active == []
    ensures Carries(r, parts + [p])
  {
    hide Matches;
    TrailSnoc(parts, p);
    AnyToolSnoc(parts, p);
    var all := parts + [p];
    assert all[|parts|] == p && forall k :: 0 <= k < |parts| ==> all[k] == parts[k];
  }

  lemma {:induction false} ReplaceCarries(s: Stream, parts: seq<Part>, k: nat, r: Stream, e: Entry, p: Part)
    requires Carries(s, parts) && k < |parts| && Matches(e, p) && r.entries == s.entries[k := e] && !r.finished
    requires r.settled == s.settled && r.active == s.active && r.toolsStarted == s.toolsStarted
    requires if p.Tool? then parts[k].Tool? && p.index == parts[k].index else k == |parts| - 1 && !parts[k].Tool?
    ensures Carries(r, parts[k := p])
  {
    hide Matches, AnyTool, Trail;
    ReplaceKeeps(parts, k, p);
  }

  lemma {:induction false} ReplaceKeeps(parts: seq<Part>, k: nat, p: Part)
    requires k < |parts|
    requires if p.Tool? then parts[k].Tool? && p.index == parts[k].index else k == |parts| - 1 && !parts[k].Tool?
    ensures var all := parts[k := p];
            && (AnyTool(all) <==> AnyTool(parts)) && Trail(all) == Trail(parts) && Active(all) == Active(parts)
            && OpenFrom(all) == OpenFrom(parts)
  {
    hide AnyTool, Active;
    var all := parts[k := p];
    ToolsKeep(parts, k, p);
    if p.Tool? { TrailKeeps(parts, k, p); }
    hide Trail;
    ActiveKeeps(parts, k, p);
  }

  lemma {:induction false} ToolsKeep(parts: seq<Part>, k: nat, p: Part)
    requires k < |parts| && (parts[k].Tool? <==> p.Tool?)
    ensures AnyTool(parts[k := p]) <==> AnyTool(parts)
  {
    var all := parts[k := p];
    assert forall j :: 0 <= j < |parts| ==> (all[j].Tool? <==> parts[j].Tool?);
  }

  lemma {:induction false} ActiveKeeps(parts: seq<Part>, k: nat, p: Part)
    requires k < |parts| && Trail(parts[k := p]) == Trail(parts)
    requires if p.Tool? then parts[k].Tool? && p.index == parts[k].index else k < Trail(parts)
    ensures Active(parts[k := p]) == Active(parts)
  {
    hide Trail;
  }

  lemma {:induction false} OneDelta(e: Entry, text: string)
    requires e.deltas == []
    ensures Join(e.(deltas := [] + [text]).deltas) == text
  {
    JoinSnoc([], text);
    assert "" + text == text;
  }

  /** What is open tells the last part. */
  lemma {:induction false} OpenIsLast(s: Stream, parts: seq<Part>)
    requires Carries(s, parts)
    ensures Open(s, ReasoningKind) <==> |parts| > 0 && parts[|parts| - 1].Thought?
    ensures Open(s, MessageKind) <==> |parts| > 0 && parts[|parts| - 1].Speech?
    ensures Open(s, CallKind) <==> |parts| > 0 && parts[|parts| - 1].Tool?
    ensures |parts| > 0 && parts[|parts| - 1].Tool? ==> s.settled == Trail(parts)
    ensures |parts| > 0 && !parts[|parts| - 1].Tool? ==> s.settled == |parts| - 1 && s.active == []
    ensures |s.entries| == |parts| && (|parts| == 0 ==> s.settled == 0 && s.active == [])
  {
    if |parts| > 0 { assert Matches(s.entries[s.settled], parts[s.settled]); }
  }

  lemma {:induction false} Settled(s: Stream)
    requires s.settled <= |s.entries|
    ensures var r := Settle(s);
            && r.entries == s.entries && r.settled == |s.entries| && r.finished == s.finished
            && r.toolsStarted == s.toolsStarted && (s.settled < |s.entries| ==> r.active == [])
            && (s.settled == |s.entries| ==> r == s)
            && r.supply == s.supply && r.finishReason == s.finishReason && r.usage == s.usage
  {
  }

  lemma {:induction false} SoloCarries(s: Stream, parts: seq<Part>, kind: Kind, text: string, p: Part)
    requires Carries(s, parts) && !p.Tool? && p.text == text && (p.Thought? <==> kind == ReasoningKind)
    requires p.Speech? <==> kind == MessageKind
    ensures Carries(BeginSolo(Settle(s), kind, text), parts + [p])
  {
    hide Settle, BeginSolo, Carries, MatchesAll, OpenFrom, Trail, Active, AnyTool;
    OpenIsLast(s, parts);
    CarriesMatches(s, parts);
    Settled(s);
    var e := Entry(kind, Settle(s).supply, Given(""), "", "", []);
    OneDelta(e, text);
    SoloBegun(Settle(s), kind, text);
    AppendCarries(s, parts, BeginSolo(Settle(s), kind, text), e.(deltas := [] + [text]), p);
  }

  lemma {:induction false} SoloBegun(s: Stream, kind: Kind, text: string)
    ensures var r := BeginSolo(s, kind, text);
            && r.entries == s.entries + [Entry(kind, s.supply, Given(""), "", "", [] + [text])]
            && r.settled == s.settled && r.active == s.active && r.toolsStarted == s.toolsStarted
            && r.finished == s.finished && r.finishReason == s.finishReason
  {
    hide Opening;
  }

  lemma {:induction false} CarriesMatches(s: Stream, parts: seq<Part>)
    requires Carries(s, parts)
    ensures MatchesAll(s.entries, parts) && (s.toolsStarted <==> AnyTool(parts)) && s.settled <= |s.entries| == |parts|
    ensures !s.finished && s.active == Active(parts) && s.settled == OpenFrom(parts)
  {
  }

  lemma {:induction false} PushCarries(s: Stream, parts: seq<Part>, k: nat, text: string, p: Part)
    requires Carries(s, parts) && k < |parts| && p.text == parts[k].text + text
    requires Matches(s.entries[k].(deltas := []), p.(text := "")) && |s.entries| == |parts|
    requires if p.Tool? then parts[k].Tool? && p.index == parts[k].index else k == |parts| - 1 && !parts[k].Tool?
    ensures Carries(Push(s, k, text), parts[k := p])
  {
    hide Carries;
    CarriesMatches(s, parts);
    var e := s.entries[k];
    assert Matches(e, parts[k]);
    JoinSnoc(e.deltas, text);
    ReplaceCarries(s, parts, k, Push(s, k, text), e.(deltas := e.deltas + [text]), p);
  }

  lemma {:induction false} ReasoningCarries(s: Stream, parts: seq<Part>, text: string)
    requires Carries(s, parts)
    ensures Carries(AddReasoning(s, text), Thinking(parts, text))
  {
    hide Carries, BeginSolo, Settle, Push;
    OpenIsLast(s, parts);
    CarriesMatches(s, parts);
    var n := |parts|;
    if text != "" && n > 0 && parts[n - 1].Thought? {
      assert Matches(s.entries[n - 1], parts[n - 1]);
      PushCarries(s, parts, n - 1, text, Thought(parts[n - 1].text + text));
    } else if text != "" && !AnyTool(parts) {
      SoloCarries(s, parts, ReasoningKind, text, Thought(text));
    }
  }

  lemma {:induction false} TextCarries(s: Stream, parts: seq<Part>, text: string)
    requires Carries(s, parts)
    ensures Carries(AddText(s, text), Speaking(parts, text))
  {
    hide Carries, BeginSolo, Settle, Push;
    OpenIsLast(s, parts);
    CarriesMatches(s, parts);
    var n := |parts|;
    if text != "" && n > 0 && parts[n - 1].Speech? {
      assert Matches(s.entries[n - 1], parts[n - 1]);
      PushCarries(s, parts, n - 1, text, Speech(parts[n - 1].text + text));
    } else if text != "" {
      SoloCarries(s, parts, MessageKind, text, Speech(text));
    }
  }

  // ----- Calls -----

  /** Looking an index up among the calls at the end. */
  lemma {:induction false} FindIsPosition(parts: seq<Part>, from: nat, index: int)
    requires from <= |parts| && forall j :: from <= j < |parts| ==> parts[j].Tool?
    ensures var xs := seq(|parts| - from, i requires 0 <= i < |parts| - from => parts[from + i].index);
            Find(parts, from, index) == from + Position(xs, index)
            && (index in xs <==> Find(parts, from, index) < |parts|)
    decreases |parts| - from
  {
    if from < |parts| {
      var xs := seq(|parts| - from, i requires 0 <= i < |parts| - from => parts[from + i].index);
      var ys := seq(|parts| - from - 1, i requires 0 <= i < |parts| - from - 1 => parts[from + 1 + i].index);
      assert xs[0] == parts[from].index && xs[1..] == ys;
      assert index in xs <==> xs[0] == index || index in ys;
      FindIsPosition(parts, from + 1, index);
    }
  }

  lemma {:induction false} KnownIsFound(s: Stream, parts: seq<Part>, d: ToolDelta)
    requires Carries(s, parts)
    ensures var k := Find(parts, Trail(parts), d.index);
            (Known(s, d) <==> k < |parts|) && (Known(s, d) ==> SlotOf(s, d.index) == k)
  {
    hide Carries, Trail, Find, Position;
    FindIsPosition(parts, Trail(parts), d.index);
    OpenIsLast(s, parts);
    CarriesMatches(s, parts);
  }

  lemma {:induction false} NewCarries(s: Stream, parts: seq<Part>, d: ToolDelta)
    requires Carries(s, parts) && !Known(s, d)
    ensures Carries(AddCall(s, d), parts + [Tool(d.index, d.id, d.name, d.name, d.arguments)])
  {
    hide Carries, Settle, MatchesAll, Known, Trail;
    OpenIsLast(s, parts);
    CarriesMatches(s, parts);
    Settled(s);
    var b := if Open(s, CallKind) then s else Settle(s);
    var e := NewCall(b, d);
    var f := if d.arguments == "" then e else e.(deltas := [] + [d.arguments]);
    OneDelta(e, d.arguments);
    var r := AddCall(s, d);
    assert r.entries == s.entries + [f];
    AppendCarries(s, parts, r, f, Tool(d.index, d.id, d.name, d.name, d.arguments));
  }

  lemma {:induction false} BackfillMatches(e: Entry, p: Part, d: ToolDelta)
    requires Matches(e, p) && p.Tool?
    ensures Matches(Backfill(e, d), p.(name := if p.name == "" then d.name else p.name))
  {
  }

  lemma {:induction false} KnownCarries(s: Stream, parts: seq<Part>, d: ToolDelta, k: nat)
    requires Carries(s, parts) && Known(s, d) && SlotOf(s, d.index) == k < |parts|
    requires parts[k].Tool? && parts[k].index == d.index && |s.entries| == |parts|
    ensures var p := parts[k];
            Carries(AddCall(s, d), parts[k := Tool(p.index, p.id, p.opening, if p.name == "" then d.name else p.name,
                                                   p.text + d.arguments)])
  {
    hide Carries, Known, SlotOf, Backfill;
    CarriesMatches(s, parts);
    var p := parts[k].(name := if parts[k].name == "" then d.name else parts[k].name);
    var e := s.entries[k];
    BackfillMatches(e, parts[k], d);
    var ready := s.(entries := s.entries[k := Backfill(e, d)]);
    assert CallReady(s, d) == ready && CallSlot(s, d) == k;
    ReplaceCarries(s, parts, k, ready, Backfill(e, d), p);
    if d.arguments != "" {
      var q := p.(text := p.text + d.arguments);
      PushCarries(ready, parts[k := p], k, d.arguments, q);
      assert parts[k := p][k := q] == parts[k := q];
    } else {
      assert p.text + d.arguments == p.text;
    }
  }

  lemma {:induction false} CallCarries(s: Stream, parts: seq<Part>, d: ToolDelta)
    requires Carries(s, parts)
    ensures Carries(AddCall(s, d), Calling(parts, d, false))
  {
    hide Carries, AddCall, Known, SlotOf, Trail;
    KnownIsFound(s, parts, d);
    CarriesMatches(s, parts);
    var k := Find(parts, Trail(parts), d.index);
    if k < |parts| { KnownCarries(s, parts, d, k); } else { NewCarries(s, parts, d); }
  }

  lemma {:induction false} CallsCarry(s: Stream, parts: seq<Part>, calls: seq<ToolDelta>)
    requires Carries(s, parts)
    ensures Carries(AddCalls(s, calls), CallingAll(parts, calls, false))
  {
    if |calls| > 0 {
      hide Carries, AddCall, Calling;
      var n := |calls| - 1;
      CallsCarry(s, parts, calls[..n]);
      CallCarries(AddCalls(s, calls[..n]), CallingAll(parts, calls[..n], false), calls[n]);
    }
  }

  // ----- Lines -----

  /** What a client is told when the upstream fails. */
  function ErrorText(lines: seq<Line>): string
    requires Errs(lines)
  {
    if FirstError(lines) == "" then "upstream error" else FirstError(lines)
  }

  /** The stream after these lines: it carries what they tell, or has failed with it. */
  ghost predicate Heard(s: Stream, lines: seq<Line>) {
    if Errs(lines) then
      && s.finished && MatchesAll(s.entries, Told(lines, false))
      && |s.log| > 0 && s.log[|s.log| - 1].Failed? && s.log[|s.log| - 1].message == ErrorText(lines)
    else Carries(s, Told(lines, false)) && s.finishReason == LastReason(lines)
  }

  lemma {:induction false} LinesSnoc(lines: seq<Line>, line: Line)
    ensures var all := lines + [line];
            && all[..|lines|] == lines && all[|lines|] == line && (Errs(all) <==> Errs(lines) || line.UpstreamError?)
            && (Counts(all) <==> line.Chunk? && !Errs(lines))
            && (Errs(lines) ==> FirstError(all) == FirstError(lines))
            && (!Errs(lines) && line.UpstreamError? ==> FirstError(all) == line.message)
            && (!Counts(all) ==> Told(all, false) == Told(lines, false) && LastReason(all) == LastReason(lines))
  {
    var all := lines + [line];
    assert all[..|lines|] == lines && all[|lines|] == line;
    assert forall i :: 0 <= i < |lines| ==> all[i] == lines[i];
  }

  lemma {:induction false} AddKeepsReason(s: Stream, c: Line)
    requires c.Chunk?
    ensures var r := AddCalls(AddText(AddReasoning(s, ReasoningOf(c)), c.content), c.calls);
            r.finishReason == s.finishReason && r.usage == s.usage
  {
    hide AddReasoning, AddText;
    ReasoningKeepsReason(s, ReasoningOf(c));
    TextKeepsReason(AddReasoning(s, ReasoningOf(c)), c.content);
    CallsKeepReason(AddText(AddReasoning(s, ReasoningOf(c)), c.content), c.calls);
  }

  lemma {:induction false} ReasoningKeepsReason(s: Stream, text: string)
    ensures var r := AddReasoning(s, text); r.finishReason == s.finishReason && r.usage == s.usage
  {
  }

  lemma {:induction false} TextKeepsReason(s: Stream, text: string)
    ensures var r := AddText(s, text); r.finishReason == s.finishReason && r.usage == s.usage
  {
  }

  lemma {:induction false} CallKeepsReason(s: Stream, d: ToolDelta)
    ensures var r := AddCall(s, d); r.finishReason == s.finishReason && r.usage == s.usage
  {
  }

  lemma {:induction false} CallsKeepReason(s: Stream, calls: seq<ToolDelta>)
    ensures var r := AddCalls(s, calls); r.finishReason == s.finishReason && r.usage == s.usage
  {
    if |calls| > 0 {
      hide AddCall;
      CallsKeepReason(s, calls[..|calls| - 1]);
      CallKeepsReason(AddCalls(s, calls[..|calls| - 1]), calls[|calls| - 1]);
    }
  }

  lemma {:induction false} ChunkCarries(s: Stream, parts: seq<Part>, c: Line)
    requires Carries(s, parts) && c.Chunk?
    ensures var reasoning := if c.reasoningContent != "" then c.reasoningContent else c.reasoning;
            Carries(AddChunk(s, c), CallingAll(Speaking(Thinking(parts, reasoning), c.content), c.calls, false))
    ensures AddChunk(s, c).finishReason == if c.finishReason != "" then c.finishReason else s.finishReason
    ensures AddChunk(s, c).usage == s.usage
  {
    hide AddReasoning, AddText, AddCalls, Thinking, Speaking, CallingAll, Carries;
    var reasoning := if c.reasoningContent != "" then c.reasoningContent else c.reasoning;
    ReasoningCarries(s, parts, reasoning);
    TextCarries(AddReasoning(s, reasoning), Thinking(parts, reasoning), c.content);
    CallsCarry(AddText(AddReasoning(s, reasoning), c.content), Speaking(Thinking(parts, reasoning), c.content),
               c.calls);
    AddKeepsReason(s, c);
    var r := AddCalls(AddText(AddReasoning(s, reasoning), c.content), c.calls);
    SameCarries(r, AddChunk(s, c), CallingAll(Speaking(Thinking(parts, reasoning), c.content), c.calls, false));
  }

  lemma {:induction false} SameCarries(s: Stream, r: Stream, parts: seq<Part>)
    requires Carries(s, parts) && r == s.(finishReason := r.finishReason, usage := r.usage)
    ensures Carries(r, parts)
  {
  }

  lemma {:induction false} LineHeard(s: Stream, lines: seq<Line>, line: Line)
    requires Heard(s, lines)
    ensures Heard(Consume(s, line), lines + [line])
  {
    hide AddChunk, Carries, MatchesAll, Told, Counts, LastReason, Errs, Settle;
    LinesSnoc(lines, line);
    if !Errs(lines) {
      CarriesMatches(s, Told(lines, false));
      if line.Chunk? {
        ChunkCarries(s, Told(lines, false), line);
        ToldSnoc(lines, line);
      } else if line.UpstreamError? {
        Settled(s);
      }
    }
  }

  lemma {:induction false} ToldSnoc(lines: seq<Line>, line: Line)
    requires line.Chunk? && !Errs(lines)
    ensures var reasoning := if line.reasoningContent != "" then line.reasoningContent else line.reasoning;
            var all, before := lines + [line], Told(lines, false);
            && Told(all, false) == CallingAll(Speaking(Thinking(before, reasoning), line.content), line.calls, false)
            && LastReason(all) == if line.finishReason != "" then line.finishReason else LastReason(lines)
  {
    hide Thinking, Speaking, CallingAll;
    LinesSnoc(lines, line);
  }

  lemma {:induction false} ConsumeSnoc(s: Stream, lines: seq<Line>)
    ensures var n := |lines| - 1;
            ConsumeAll(s, lines) == if n < 0 then s else Consume(ConsumeAll(s, lines[..n]), lines[n])
  {
    hide Consume;
  }

  lemma {:induction false} LinesHeard(s: Stream, before: seq<Line>, lines: seq<Line>)
    requires Heard(s, before)
    ensures Heard(ConsumeAll(s, lines), before + lines)
  {
    hide Heard, Consume, ConsumeAll;
    ConsumeSnoc(s, lines);
    if |lines| == 0 {
      assert before + lines == before;
    } else {
      var n := |lines| - 1;
      LinesHeard(s, before, lines[..n]);
      LineHeard(ConsumeAll(s, lines[..n]), before + lines[..n], lines[n]);
      assert before + lines == before + lines[..n] + [lines[n]];
    }
  }

  lemma {:induction false} UsageHeard(s: Stream, lines: seq<Line>, snap: Usage)
    requires Heard(s, lines) && !s.finished
    ensures Heard(WithUsage(s, snap), lines) && !Errs(lines)
  {
    hide Carries, Told, LastReason, Errs;
    if !Errs(lines) { SameCarries(s, WithUsage(s, snap), Told(lines, false)); }
  }

  lemma {:induction false} FeedHeard(d: Decoder, f: Feed, before: seq<Line>, line: Bytes)
    requires Heard(f.stream, before)
    ensures Heard(FeedLine(d, f, line).stream, before + [d.decode(line)])
  {
    hide Heard, Consume;
    if f.stream.finished {
      FinishedHeard(f.stream, before, d.decode(line));
    } else {
      UsageHeard(f.stream, before, d.scan(line, f.snap));
      LineHeard(WithUsage(f.stream, d.scan(line, f.snap)), before, d.decode(line));
    }
  }

  lemma {:induction false} FinishedHeard(s: Stream, lines: seq<Line>, line: Line)
    requires Heard(s, lines) && s.finished
    ensures Heard(s, lines + [line])
  {
    hide Carries, MatchesAll, Told, Counts, LastReason, Errs;
    LinesSnoc(lines, line);
    if !Errs(lines) { CarriesMatches(s, Told(lines, false)); }
  }

  lemma {:induction false} FeedsHeard(d: Decoder, f: Feed, before: seq<Line>, lines: seq<Bytes>)
    requires Heard(f.stream, before)
    ensures Heard(FeedLines(d, f, lines).stream, before + DecodeAll(d, lines))
  {
    if |lines| == 0 {
      assert before + DecodeAll(d, lines) == before;
    } else {
      hide Heard, FeedLine;
      var n := |lines| - 1;
      FeedsHeard(d, f, before, lines[..n]);
      FeedHeard(d, FeedLines(d, f, lines[..n]), before + DecodeAll(d, lines[..n]), lines[n]);
      DecodeSnoc(d, lines);
      assert before + DecodeAll(d, lines) == before + DecodeAll(d, lines[..n]) + [d.decode(lines[n])];
    }
  }

  lemma {:induction false} StartHeard(usage: Usage)
    ensures Heard(Start(usage), [])
  {
    assert !AnyTool([]);
  }

  /** The stream of a body just before its terminal event, unless an error ended it. */
  function Fed(d: Decoder, body: Bytes, ending: Ending): Feed {
    var event := FirstEvent(body);
    var rest := body[|event|..];
    FeedLines(d, FeedLines(d, Opened(d, event), Lines(rest)), Remainder(Rest(rest), ending))
  }

  lemma {:induction false} FedHeard(d: Decoder, body: Bytes, ending: Ending)
    ensures Heard(Fed(d, body, ending).stream, BodyLines(d, body, ending))
    ensures var f := Fed(d, body, ending);
            Transcript(d, body, ending).stream ==
            if f.stream.finished then f.stream
            else if ending.Eof? then Protocol.Finish(WithUsage(f.stream, f.snap))
            else Protocol.Fail(WithUsage(f.stream, f.snap), "upstream stream interrupted")
  {
    hide Heard, FeedLine, FirstEvent, Lines, Rest, TrimBytes, Consume, Protocol.Finish, Protocol.Fail;
    var event := FirstEvent(body);
    var rest := body[|event|..];
    var first, start := DecodeAll(d, EventLines(event)), Start(MergeUsage(NO_USAGE, EventUsage(d, event)));
    StartHeard(MergeUsage(NO_USAGE, EventUsage(d, event)));
    LinesHeard(start, [], first);
    assert [] + first == first;
    FeedsHeard(d, Opened(d, event), first, Lines(rest));
    var f := FeedLines(d, Opened(d, event), Lines(rest));
    FeedsHeard(d, f, first + DecodeAll(d, Lines(rest)), Remainder(Rest(rest), ending));
    OneLineFed(d, f, TrimBytes(Rest(rest)));
  }

  lemma {:induction false} OneLineFed(d: Decoder, f: Feed, line: Bytes)
    ensures FeedLines(d, f, [line]) == FeedLine(d, f, line) && FeedLines(d, f, []) == f
  {
    hide FeedLine;
    assert [line][..0] == [];
  }

  // ----- The terminal event -----

  /** The item says what the part says. */
  predicate Says(item: Item, p: Part) {
    match p
    case Thought(text) => item.Reasoning? && item.text == text
    case Speech(text) => item.Message? && item.text == text
    case Tool(_, id, _, name, text) =>
      && item.FunctionCall? && item.name == name && item.arguments == text
      && (if id == "" then item.callId.Minted? else item.callId == Given(id))
  }

  predicate SaysAll(items: seq<Item>, parts: seq<Part>) {
    |items| == |parts| && forall k :: 0 <= k < |parts| ==> Says(items[k], parts[k])
  }

  /** The kind of the last event: failed with the upstream's first error or because the body
      broke off, else by the last finish reason. */
  predicate EndsFor(last: Payload, lines: seq<Line>, ending: Ending) {
    if Errs(lines) then last.Failed? && last.message == ErrorText(lines)
    else if ending == Interrupted then last.Failed? && last.message == "upstream stream interrupted"
    else if IsWord(LastReason(lines), "length") then last.Incomplete? && last.reason == "max_output_tokens"
    else if IsWord(LastReason(lines), "content_filter") then last.Incomplete? && last.reason == "content_filter"
    else last.Completed?
  }

  lemma {:induction false} FinishEnds(s: Stream, lines: seq<Line>)
    requires s.finishReason == LastReason(lines) && !Errs(lines)
    ensures EndsFor(FinishEvent(s), lines, Eof)
  {
    hide TrimSpace, Lower, LastReason, IsWord, Outputs;
    LowerIsWord(s.finishReason, "length");
    LowerIsWord(s.finishReason, "content_filter");
  }

  lemma {:induction false} MatchesSay(entries: seq<Entry>, parts: seq<Part>)
    requires MatchesAll(entries, parts)
    ensures SaysAll(Outputs(entries), parts)
  {
    forall k | 0 <= k < |parts| ensures Says(Outputs(entries)[k], parts[k]) { assert Matches(entries[k], parts[k]); }
  }

  /** The output that a terminal event at the end carries. */
  function FinalOutput(log: seq<Protocol.Payload>): seq<Item> {
    if |log| > 0 && Terminal(log[|log| - 1]) then log[|log| - 1].output else []
  }

  /** For every body and ending: the output of the terminal event says, item by item, what all
      the lines before the first error tell, and the event is the one they call for. */
  lemma {:induction false} TranscriptSays(d: Decoder, body: Bytes, ending: Ending)
    ensures var log, lines := Transcript(d, body, ending).stream.log, BodyLines(d, body, ending);
            && |log| > 0 && Terminal(log[|log| - 1])
            && SaysAll(FinalOutput(log), Told(lines, false)) && EndsFor(log[|log| - 1], lines, ending)
  {
    hide Transcript, Fed, BodyLines, Told, Errs, LastReason, IsWord, Settle, Outputs, SaysAll, MatchesAll, Carries,
      IsIncompleteFinish;
    var f, lines := Fed(d, body, ending), BodyLines(d, body, ending);
    FedHeard(d, body, ending);
    TranscriptLifecycle(d, body, ending);
    LifecycleEnds(Transcript(d, body, ending).stream.log, Transcript(d, body, ending).stream.entries);
    if !f.stream.finished {
      var s := WithUsage(f.stream, f.snap);
      UsageHeard(f.stream, lines, f.snap);
      CarriesMatches(f.stream, Told(lines, false));
      Settled(s);
      FinishEnds(Settle(s), lines);
    } else if !Errs(lines) {
      CarriesMatches(f.stream, Told(lines, false));
    }
    MatchesSay(Transcript(d, body, ending).stream.entries, Told(lines, false));
  }

  lemma {:induction false} LifecycleEnds(log: seq<Payload>, entries: seq<Entry>)
    requires Lifecycle(log, entries)
    ensures |log| > 0 && Terminal(log[|log| - 1]) && FinalOutput(log) == Outputs(entries)
  {
  }

  // ----- What that means for the texts -----

  /** The texts of the message items, joined. */
  function MessageTexts(items: seq<Item>): string {
    if |items| == 0 then ""
    else MessageTexts(items[..|items| - 1]) + if items[|items| - 1].Message? then items[|items| - 1].text else ""
  }

  function ReasoningTexts(items: seq<Item>): string {
    if |items| == 0 then ""
    else ReasoningTexts(items[..|items| - 1]) + if items[|items| - 1].Reasoning? then items[|items| - 1].text else ""
  }

  lemma {:induction false} TextsSaid(items: seq<Item>, parts: seq<Part>)
    requires SaysAll(items, parts)
    ensures MessageTexts(items) == TextOf(parts, IsSpeech) && ReasoningTexts(items) == TextOf(parts, IsThought)
  {
    if |parts| > 0 {
      var n := |parts| - 1;
      assert Says(items[n], parts[n]);
      TextsSaid(items[..n], parts[..n]);
    }
  }

  /** In whatever order lines bring it: the message items of the terminal output join to the
      content of all chunks before the first error, and its reasoning items to their
      reasoning, that of chunks after a call left out. */
  lemma {:induction false} ContentKept(d: Decoder, body: Bytes, ending: Ending)
    ensures var log, lines := Transcript(d, body, ending).stream.log, BodyLines(d, body, ending);
            && |log| > 0 && Terminal(log[|log| - 1])
            && MessageTexts(FinalOutput(log)) == AllContent(lines)
            && ReasoningTexts(FinalOutput(log)) == AllReasoning(lines)
  {
    hide Transcript, BodyLines, Told, SaysAll, EndsFor, TextOf, AllContent, AllReasoning;
    var lines := BodyLines(d, body, ending);
    TranscriptSays(d, body, ending);
    var log := Transcript(d, body, ending).stream.log;
    TextsSaid(FinalOutput(log), Told(lines, false));
    ToldKeeps(lines, false, 0);
  }

  /** Where the calls with this index stand. */
  function PlacesOf(parts: seq<Part>, index: int): (r: seq<nat>)
    ensures forall i :: 0 <= i < |r| ==> r[i] < |parts|
  {
    if |parts| == 0 then []
    else
      var n := |parts| - 1;
      PlacesOf(parts[..n], index) + if parts[n].Tool? && parts[n].index == index then [n] else []
  }

  lemma {:induction false} PlacesHold(parts: seq<Part>, index: int)
    ensures var places, calls := PlacesOf(parts, index), CallsOf(parts, index);
            && |places| == |calls| && (forall i :: 0 <= i < |calls| ==> parts[places[i]] == calls[i])
            && (forall i, j :: 0 <= i < j < |places| ==> places[i] < places[j])
    ensures forall k :: 0 <= k < |parts| && parts[k].Tool? && parts[k].index == index ==> k in PlacesOf(parts, index)
  {
    if |parts| > 0 { PlacesHold(parts[..|parts| - 1], index); }
  }

  /** The item is the call these deltas make up. */
  predicate CallOfDeltas(item: Item, group: seq<ToolDelta>) {
    && item.FunctionCall? && |group| > 0
    && item.name == FirstName(group) && item.arguments == Arguments(group)
    && (if group[0].id == "" then item.callId.Minted? else item.callId == Given(group[0].id))
  }

  /** The deltas of an upstream tool index before the first error, cut into consecutive
      groups, make up calls of the terminal output in order: each has the joined
      arguments of its group, the first name given, and the id of its first delta. */
  lemma {:induction false} CallsKept(d: Decoder, body: Bytes, ending: Ending, index: int)
    returns (places: seq<nat>, groups: seq<seq<ToolDelta>>)
    ensures var log, lines := Transcript(d, body, ending).stream.log, BodyLines(d, body, ending);
            && |log| > 0 && Terminal(log[|log| - 1]) && |places| == |groups| && Flat(groups) == DeltasOf(lines, index)
            && (forall i, j :: 0 <= i < j < |places| ==> places[i] < places[j])
            && (forall i :: 0 <= i < |places| ==>
                  places[i] < |FinalOutput(log)| && CallOfDeltas(FinalOutput(log)[places[i]], groups[i]))
  {
    hide Transcript, BodyLines, Told, EndsFor, CallsOf, Flat, DeltasOf, CallOfDeltas, Makes, Says;
    var lines := BodyLines(d, body, ending);
    var parts := Told(lines, false);
    TranscriptSays(d, body, ending);
    groups := CallsAreGroups(lines, false, index);
    places := PlacesOf(parts, index);
    PlacesHold(parts, index);
    var log := Transcript(d, body, ending).stream.log;
    forall i | 0 <= i < |places|
      ensures CallOfDeltas(FinalOutput(log)[places[i]], groups[i])
    {
      assert Makes(groups[i], parts[places[i]]);
      SaysDeltas(FinalOutput(log)[places[i]], parts[places[i]], groups[i]);
    }
  }

  lemma {:induction false} SaysDeltas(item: Item, p: Part, group: seq<ToolDelta>)
    requires Says(item, p) && Makes(group, p)
    ensures CallOfDeltas(item, group)
  {
  }

  // ----- Identifiers -----

  /** The identifiers generated for these entries. */
  function Ids(entries: seq<Entry>): seq<nat> {
    if |entries| == 0 then []
    else
      var e := entries[|entries| - 1];
      Ids(entries[..|entries| - 1]) + [e.id] + if e.kind == CallKind && e.callId.Minted? then [e.callId.serial] else []
  }

  lemma {:induction false} IdsSnoc(entries: seq<Entry>, e: Entry)
    ensures Ids(entries + [e])
            == Ids(entries) + [e.id] + if e.kind == CallKind && e.callId.Minted? then [e.callId.serial] else []
  {
    assert (entries + [e])[..|entries|] == entries;
  }

  lemma {:induction false} IdsSame(entries: seq<Entry>, k: nat, e: Entry)
    requires k < |entries| && e.id == entries[k].id && e.kind == entries[k].kind && e.callId == entries[k].callId
    ensures Ids(entries[k := e]) == Ids(entries)
  {
    var n := |entries| - 1;
    if k == n {
      assert entries[n := e][..n] == entries[..n];
    } else {
      assert entries[k := e][..n] == entries[..n][k := e];
      IdsSame(entries[..n], k, e);
    }
  }

  /** They ascend, and the supply is past them; a call has its id. */
  ghost predicate Fresh(s: Stream) {
    && Response.UsedUp(Ids(s.entries), s.supply)
    && forall k :: 0 <= k < |s.entries| && s.entries[k].kind == CallKind ==> s.entries[k].callId != Given("")
  }

  lemma {:induction false} FreshSame(s: Stream, r: Stream)
    requires Fresh(s) && r.entries == s.entries && r.supply == s.supply
    ensures Fresh(r)
  {
  }

  lemma {:induction false} FreshPush(s: Stream, k: nat, text: string)
    requires Fresh(s) && k < |s.entries|
    ensures Fresh(Push(s, k, text))
  {
    var e := s.entries[k];
    IdsSame(s.entries, k, e.(deltas := e.deltas + [text]));
  }

  lemma {:induction false} FreshSnoc(s: Stream, r: Stream, e: Entry)
    requires Fresh(s) && r.entries == s.entries + [e] && e.id == s.supply < r.supply
    requires e.kind == CallKind ==> e.callId != Given("")
    requires e.kind == CallKind && e.callId.Minted? ==> s.supply < e.callId.serial < r.supply
    ensures Fresh(r)
  {
    IdsSnoc(s.entries, e);
    var ids, more := Ids(s.entries), [e.id] + if e.kind == CallKind && e.callId.Minted? then [e.callId.serial] else [];
    assert Ids(r.entries) == ids + more;
    forall i, j | 0 <= i < j < |ids + more| ensures (ids + more)[i] < (ids + more)[j] {
      if i < |ids| { assert ids[i] in ids; }
    }
    forall id | id in ids + more ensures id < r.supply { assert id in ids || id in more; }
  }

  lemma {:induction false} FreshSolo(s: Stream, kind: Kind, text: string)
    requires Fresh(s) && kind != CallKind
    ensures Fresh(BeginSolo(s, kind, text))
  {
    hide Fresh, Opening;
    var e := Entry(kind, s.supply, Given(""), "", "", []);
    var b := Protocol.Begin(s, e).(supply := s.supply + 1);
    FreshSnoc(s, b, e);
    FreshPush(b, |s.entries|, text);
  }

  lemma {:induction false} FreshSettle(s: Stream)
    requires Fresh(s)
    ensures Fresh(Settle(s))
  {
    FreshSame(s, Settle(s));
  }

  lemma {:induction false} FreshBackfill(s: Stream, k: nat, d: ToolDelta)
    requires Fresh(s) && k < |s.entries| && s.entries[k].kind == CallKind
    ensures Fresh(s.(entries := s.entries[k := Backfill(s.entries[k], d)]))
  {
    IdsSame(s.entries, k, Backfill(s.entries[k], d));
  }

  lemma {:induction false} FreshReady(s: Stream, d: ToolDelta)
    requires Fresh(s) && (Known(s, d) ==> s.entries[SlotOf(s, d.index)].kind == CallKind)
    ensures Fresh(CallReady(s, d))
  {
    hide Fresh, Settle, Backfill;
    if Known(s, d) {
      FreshBackfill(s, CallSlot(s, d), d);
    } else {
      FreshSettle(s);
      var b := if Open(s, CallKind) then s else Settle(s);
      FreshSnoc(b, BeginCallOn(b, d), NewCall(b, d));
    }
  }

  lemma {:induction false} FreshCall(s: Stream, parts: seq<Part>, d: ToolDelta)
    requires Fresh(s) && Carries(s, parts)
    ensures Fresh(AddCall(s, d))
  {
    hide Fresh, Carries, CallReady, Known, SlotOf, Trail, Find;
    KnownIsFound(s, parts, d);
    CarriesMatches(s, parts);
    var k := Find(parts, Trail(parts), d.index);
    if k < |parts| { assert Matches(s.entries[k], parts[k]); }
    FreshReady(s, d);
    if d.arguments != "" { FreshPush(CallReady(s, d), CallSlot(s, d), d.arguments); }
  }

  lemma {:induction false} FreshCalls(s: Stream, parts: seq<Part>, calls: seq<ToolDelta>)
    requires Fresh(s) && Carries(s, parts)
    ensures Fresh(AddCalls(s, calls))
  {
    if |calls| > 0 {
      hide Fresh, Carries, AddCall;
      var n := |calls| - 1;
      FreshCalls(s, parts, calls[..n]);
      CallsCarry(s, parts, calls[..n]);
      FreshCall(AddCalls(s, calls[..n]), CallingAll(parts, calls[..n], false), calls[n]);
    }
  }

  lemma {:induction false} FreshText(s: Stream, parts: seq<Part>, reasoning: string, content: string)
    requires Fresh(s) && Carries(s, parts)
    ensures Fresh(AddText(AddReasoning(s, reasoning), content))
  {
    hide Fresh, Carries, Settle, BeginSolo, Push;
    OpenIsLast(s, parts);
    CarriesMatches(s, parts);
    FreshSettle(s);
    if Open(s, ReasoningKind) { FreshPush(s, |s.entries| - 1, reasoning); }
    FreshSolo(Settle(s), ReasoningKind, reasoning);
    var t := AddReasoning(s, reasoning);
    assert Fresh(t);
    ReasoningCarries(s, parts, reasoning);
    OpenIsLast(t, Thinking(parts, reasoning));
    FreshSettle(t);
    if Open(t, MessageKind) { FreshPush(t, |t.entries| - 1, content); }
    FreshSolo(Settle(t), MessageKind, content);
  }

  lemma {:induction false} FreshLine(s: Stream, lines: seq<Line>, line: Line)
    requires Fresh(s) && Heard(s, lines)
    ensures Fresh(Consume(s, line))
  {
    hide Fresh, Carries, AddReasoning, AddText, AddCalls, Settle, Told, Errs, MatchesAll, LastReason;
    if !s.finished && line.Chunk? {
      var parts := Told(lines, false);
      FreshText(s, parts, ReasoningOf(line), line.content);
      ReasoningCarries(s, parts, ReasoningOf(line));
      var t := AddReasoning(s, ReasoningOf(line));
      TextCarries(t, Thinking(parts, ReasoningOf(line)), line.content);
      FreshCalls(AddText(t, line.content), Speaking(Thinking(parts, ReasoningOf(line)), line.content), line.calls);
      FreshSame(AddCalls(AddText(t, line.content), line.calls), Consume(s, line));
    } else if !s.finished && line.UpstreamError? {
      FreshSettle(s);
      FreshSame(Settle(s), Consume(s, line));
    }
  }

  lemma {:induction false} FreshLines(s: Stream, before: seq<Line>, lines: seq<Line>)
    requires Fresh(s) && Heard(s, before)
    ensures Fresh(ConsumeAll(s, lines))
  {
    if |lines| > 0 {
      hide Fresh, Heard, Consume;
      var n := |lines| - 1;
      FreshLines(s, before, lines[..n]);
      LinesHeard(s, before, lines[..n]);
      FreshLine(ConsumeAll(s, lines[..n]), before + lines[..n], lines[n]);
    }
  }

  lemma {:induction false} FreshFeeds(d: Decoder, f: Feed, before: seq<Line>, lines: seq<Bytes>)
    requires Fresh(f.stream) && Heard(f.stream, before)
    ensures Fresh(FeedLines(d, f, lines).stream)
  {
    if |lines| > 0 {
      hide Fresh, Heard, Consume;
      var n := |lines| - 1;
      FreshFeeds(d, f, before, lines[..n]);
      FeedsHeard(d, f, before, lines[..n]);
      var g := FeedLines(d, f, lines[..n]);
      if !g.stream.finished {
        var s := WithUsage(g.stream, d.scan(lines[n], g.snap));
        FreshSame(g.stream, s);
        UsageHeard(g.stream, before + DecodeAll(d, lines[..n]), d.scan(lines[n], g.snap));
        FreshLine(s, before + DecodeAll(d, lines[..n]), d.decode(lines[n]));
      }
    }
  }

  lemma {:induction false} IdsGenerated(entries: seq<Entry>)
    ensures Response.Generated(Outputs(entries)) == Ids(entries)
  {
    if |entries| > 0 {
      var n := |entries| - 1;
      IdsGenerated(entries[..n]);
      assert Outputs(entries)[..n] == Outputs(entries[..n]);
    }
  }

  /** All identifiers in the terminal output, those minted for calls included, are different. */
  lemma {:induction false} TranscriptIds(d: Decoder, body: Bytes, ending: Ending)
    ensures var log := Transcript(d, body, ending).stream.log;
            && |log| > 0 && Terminal(log[|log| - 1]) && Response.Ascending(Response.Generated(FinalOutput(log)))
  {
    hide Heard, FeedLine, FirstEvent, Lines, Rest, TrimBytes, Consume, Settle, Transcript, Ids, Outputs, BodyLines;
    var event := FirstEvent(body);
    var rest := body[|event|..];
    var first, start := DecodeAll(d, EventLines(event)), Start(MergeUsage(NO_USAGE, EventUsage(d, event)));
    StartHeard(MergeUsage(NO_USAGE, EventUsage(d, event)));
    StartFresh(start);
    LinesHeard(start, [], first);
    FreshLines(start, [], first);
    FeedsHeard(d, Opened(d, event), [] + first, Lines(rest));
    FreshFeeds(d, Opened(d, event), [] + first, Lines(rest));
    var f := FeedLines(d, Opened(d, event), Lines(rest));
    FreshFeeds(d, f, [] + first + DecodeAll(d, Lines(rest)), Remainder(Rest(rest), ending));
    FedHeard(d, body, ending);
    var g := Fed(d, body, ending).stream;
    FreshSettle(WithUsage(g, Fed(d, body, ending).snap));
    TranscriptLifecycle(d, body, ending);
    LifecycleEnds(Transcript(d, body, ending).stream.log, Transcript(d, body, ending).stream.entries);
    IdsGenerated(Transcript(d, body, ending).stream.entries);
  }

  lemma {:induction false} StartFresh(s: Stream)
    requires s.entries == []
    ensures Fresh(s)
  {
  }

  // ----- Usage -----

  /** The usage snapshots after each of these lines. */
  function Snaps(d: Decoder, snap: Usage, lines: seq<Bytes>): (r: seq<Usage>)
    ensures |r| == |lines|
  {
    if |lines| == 0 then []
    else
      var n := |lines| - 1;
      var before := Snaps(d, snap, lines[..n]);
      before + [d.scan(lines[n], if n == 0 then snap else before[n - 1])]
  }

  /** All snapshots of a body: that of its first event, then one for each later line. */
  function BodySnaps(d: Decoder, body: Bytes, ending: Ending): seq<Usage> {
    var event := FirstEvent(body);
    var rest := body[|event|..];
    [EventUsage(d, event)] + Snaps(d, EventUsage(d, event), Lines(rest) + Remainder(Rest(rest), ending))
  }

  /** The last positive count among the snapshots, or zero. */
  function Latest(snaps: seq<Usage>, count: Usage -> int): int {
    if |snaps| == 0 then 0
    else if count(snaps[|snaps| - 1]) > 0 then count(snaps[|snaps| - 1])
    else Latest(snaps[..|snaps| - 1], count)
  }

  function InputOf(u: Usage): int { u.input }

  function OutputOf(u: Usage): int { u.output }

  function CacheReadOf(u: Usage): int { u.cacheRead }

  function CacheCreationOf(u: Usage): int { u.cacheCreation }

  /** Each counter is the latest one the upstream gave. */
  predicate IsLatest(u: Usage, snaps: seq<Usage>) {
    && u.input == Latest(snaps, InputOf) && u.output == Latest(snaps, OutputOf)
    && u.cacheRead == Latest(snaps, CacheReadOf) && u.cacheCreation == Latest(snaps, CacheCreationOf)
  }

  lemma {:induction false} MergeLatest(u: Usage, snaps: seq<Usage>, snap: Usage)
    requires IsLatest(u, snaps)
    ensures IsLatest(MergeUsage(u, snap), snaps + [snap])
    ensures |snaps| > 0 && snap == snaps[|snaps| - 1] ==> IsLatest(MergeUsage(u, snap), snaps)
  {
    var all := snaps + [snap];
    assert all[|snaps|] == snap && all[..|snaps|] == snaps;
  }

  lemma {:induction false} UnheardUsage(s: Stream, lines: seq<Line>, line: Line)
    requires Heard(s, lines) && !Errs(lines) && !line.UpstreamError?
    ensures Consume(s, line).usage == s.usage && !s.finished
  {
    hide Carries, AddChunk, Told, LastReason;
    CarriesMatches(s, Told(lines, false));
    if line.Chunk? { ChunkCarries(s, Told(lines, false), line); }
  }

  lemma {:induction false} FeedsLatest(d: Decoder, f: Feed, before: seq<Line>, snaps: seq<Usage>, lines: seq<Bytes>)
    requires Heard(f.stream, before) && !Errs(before + DecodeAll(d, lines))
    requires |snaps| > 0 && f.snap == snaps[|snaps| - 1] && IsLatest(f.stream.usage, snaps)
    ensures var r, all := FeedLines(d, f, lines), snaps + Snaps(d, f.snap, lines);
            IsLatest(r.stream.usage, all) && r.snap == all[|all| - 1]
  {
    if |lines| == 0 {
      assert snaps + Snaps(d, f.snap, lines) == snaps;
    } else {
      hide Heard, Consume, IsLatest, Errs;
      var n := |lines| - 1;
      DecodeSnoc(d, lines);
      var so, line := before + DecodeAll(d, lines[..n]), d.decode(lines[n]);
      assert before + DecodeAll(d, lines) == so + [line];
      LinesSnoc(so, line);
      FeedsHeard(d, f, before, lines[..n]);
      FeedsLatest(d, f, before, snaps, lines[..n]);
      var g := FeedLines(d, f, lines[..n]);
      var snap := d.scan(lines[n], g.snap);
      NotFinished(g.stream, so);
      UsageHeard(g.stream, so, snap);
      MergeLatest(g.stream.usage, snaps + Snaps(d, f.snap, lines[..n]), snap);
      UnheardUsage(WithUsage(g.stream, snap), so, line);
      assert Snaps(d, f.snap, lines)[..n] == Snaps(d, f.snap, lines[..n]);
      assert snaps + Snaps(d, f.snap, lines) == snaps + Snaps(d, f.snap, lines[..n]) + [snap];
    }
  }

  lemma {:induction false} NotFinished(s: Stream, lines: seq<Line>)
    requires Heard(s, lines) && !Errs(lines)
    ensures !s.finished
  {
    CarriesMatches(s, Told(lines, false));
  }

  lemma {:induction false} LinesUsage(s: Stream, before: seq<Line>, lines: seq<Line>)
    requires Heard(s, before) && !Errs(before + lines)
    ensures ConsumeAll(s, lines).usage == s.usage
  {
    hide Heard, Consume, ConsumeAll, Errs;
    ConsumeSnoc(s, lines);
    if |lines| > 0 {
      var n := |lines| - 1;
      assert before + lines == before + lines[..n] + [lines[n]];
      LinesSnoc(before + lines[..n], lines[n]);
      LinesUsage(s, before, lines[..n]);
      LinesHeard(s, before, lines[..n]);
      UnheardUsage(ConsumeAll(s, lines[..n]), before + lines[..n], lines[n]);
    }
  }

  lemma {:induction false} ErrsPrefix(a: seq<Line>, b: seq<Line>)
    requires !Errs(a + b)
    ensures !Errs(a)
  {
    forall i | 0 <= i < |a| ensures !a[i].UpstreamError? { assert (a + b)[i] == a[i]; }
  }

  lemma {:induction false} SnapsAppend(d: Decoder, snap: Usage, a: seq<Bytes>, b: seq<Bytes>)
    ensures var first := Snaps(d, snap, a);
            Snaps(d, snap, a + b) == first + Snaps(d, if |a| == 0 then snap else first[|a| - 1], b)
  {
    if |b| == 0 {
      assert a + b == a;
    } else {
      var n := |b| - 1;
      assert (a + b)[..|a + b| - 1] == a + b[..n] && (a + b)[|a + b| - 1] == b[n];
      SnapsAppend(d, snap, a, b[..n]);
    }
  }

  /** Without an error each counter of the terminal event is the last positive one among the
      snapshots of the body. */
  lemma {:induction false} UsageKept(d: Decoder, body: Bytes)
    requires !Errs(BodyLines(d, body, Eof))
    ensures var log := Transcript(d, body, Eof).stream.log;
            && |log| > 0 && !log[|log| - 1].Failed? && Terminal(log[|log| - 1])
            && IsLatest(log[|log| - 1].usage, BodySnaps(d, body, Eof))
  {
    hide Heard, FeedLine, FirstEvent, Lines, Rest, TrimBytes, Consume, Settle, IsLatest, Errs, Outputs, EventUsage,
      Told, IsWord, LastReason, SaysAll, Snaps, RawLines;
    var event := FirstEvent(body);
    var rest, snap := body[|event|..], EventUsage(d, event);
    var first, start := DecodeAll(d, EventLines(event)), Start(MergeUsage(NO_USAGE, snap));
    var later, last := Lines(rest), Remainder(Rest(rest), Eof);
    assert BodyLines(d, body, Eof) == first + DecodeAll(d, later) + DecodeAll(d, last);
    ErrsPrefix(first + DecodeAll(d, later), DecodeAll(d, last));
    ErrsPrefix(first, DecodeAll(d, later));
    assert [] + first == first && [] + [snap] == [snap];
    StartHeard(MergeUsage(NO_USAGE, snap));
    LinesHeard(start, [], first);
    LinesUsage(start, [], first);
    MergeLatest(NO_USAGE, [], snap) by { NoneLatest(); }
    FeedsHeard(d, Opened(d, event), first, later);
    FeedsLatest(d, Opened(d, event), first, [snap], later);
    var f := FeedLines(d, Opened(d, event), later);
    FeedsLatest(d, f, first + DecodeAll(d, later), [snap] + Snaps(d, snap, later), last);
    SnapsAppend(d, snap, later, last);
    var g, snaps := Fed(d, body, Eof), BodySnaps(d, body, Eof);
    assert snaps == [snap] + Snaps(d, snap, later) + Snaps(d, f.snap, last);
    FedHeard(d, body, Eof);
    NotFinished(g.stream, BodyLines(d, body, Eof));
    MergeLatest(g.stream.usage, snaps, g.snap);
    TranscriptSays(d, body, Eof);
    SettleKeepsUsage(WithUsage(g.stream, g.snap));
  }

  lemma {:induction false} NoneLatest()
    ensures IsLatest(NO_USAGE, [])
  {
  }

  lemma {:induction false} SettleKeepsUsage(s: Stream)
    requires !s.finished
    ensures var r := Protocol.Finish(s); |r.log| > 0 && var e := r.log[|r.log| - 1]; !e.Failed? && e.usage == s.usage
  {
    hide IsIncompleteFinish, Outputs;
  }
}
