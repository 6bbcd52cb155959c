/** What an upstream says over all its lines, told without either adapter: the parts of the
    answer in the order they began, each with everything that was said of it. */
module ChatStory {
  import opened Wrappers
  import opened ResponsesProtocol
  import opened UpstreamLines

  // ----- The lines by themselves -----

  /** The last line is a chunk, and no error came before it. */
  predicate Counts(lines: seq<Line>) {
    |lines| > 0 && lines[|lines| - 1].Chunk? && !Errs(lines[..|lines| - 1])
  }

  /** The content of the chunks before the first error, joined. */
  function AllContent(lines: seq<Line>): string {
    if |lines| == 0 then ""
    else AllContent(lines[..|lines| - 1]) + if Counts(lines) then lines[|lines| - 1].content else ""
  }

  /** One of these chunks has a tool call. */
  predicate AnyCall(lines: seq<Line>) {
    |lines| > 0 && (AnyCall(lines[..|lines| - 1]) || (Counts(lines) && lines[|lines| - 1].calls != []))
  }

  /** Their reasoning, which no longer counts once an earlier chunk had a call. */
  function AllReasoning(lines: seq<Line>): string {
    if |lines| == 0 then ""
    else
      var front, last := lines[..|lines| - 1], lines[|lines| - 1];
      AllReasoning(front) +
      if !Counts(lines) || AnyCall(front) then ""
      else if last.reasoningContent != "" then last.reasoningContent else last.reasoning
  }

  /** The tool deltas of this index. */
  function Only(calls: seq<ToolDelta>, index: int): seq<ToolDelta> {
    if |calls| == 0 then []
    else
      var last := calls[|calls| - 1];
      Only(calls[..|calls| - 1], index) + if last.index == index then [last] else []
  }

  function DeltasOf(lines: seq<Line>, index: int): seq<ToolDelta> {
    if |lines| == 0 then []
    else DeltasOf(lines[..|lines| - 1], index) + if Counts(lines) then Only(lines[|lines| - 1].calls, index) else []
  }

  function Arguments(deltas: seq<ToolDelta>): string {
    if |deltas| == 0 then "" else Arguments(deltas[..|deltas| - 1]) + deltas[|deltas| - 1].arguments
  }

  /** The first name that is not empty. */
  function FirstName(deltas: seq<ToolDelta>): string {
    if |deltas| == 0 then "" else if deltas[0].name != "" then deltas[0].name else FirstName(deltas[1..])
  }

  /** The last finish reason given. */
  function LastReason(lines: seq<Line>): string {
    if |lines| == 0 then ""
    else if Counts(lines) && lines[|lines| - 1].finishReason != "" then lines[|lines| - 1].finishReason
    else LastReason(lines[..|lines| - 1])
  }

  /** The message of the first error. */
  function FirstError(lines: seq<Line>): string
    requires Errs(lines)
  {
    var front, last := lines[..|lines| - 1], lines[|lines| - 1];
    if Errs(front) then FirstError(front)
    else
      assert last.UpstreamError?;
      last.message
  }

  // ----- The parts of the answer -----

  /** A call keeps the id and name it began with, and a name that came later. */
  datatype Part =
    | Thought(text: string)
    | Speech(text: string)
    | Tool(index: int, id: string, opening: string, name: string, text: string)

  function WithText(p: Part, text: string): Part {
    match p
    case Thought(_) => Thought(text)
    case Speech(_) => Speech(text)
    case Tool(index, id, opening, name, _) => Tool(index, id, opening, name, text)
  }

  function Longer(p: Part, more: string): Part { WithText(p, p.text + more) }

  predicate AnyTool(parts: seq<Part>) {
    exists k :: 0 <= k < |parts| && parts[k].Tool?
  }

  /** Where the tools at the end begin. */
  function Trail(parts: seq<Part>): (k: nat)
    ensures k <= |parts| && forall j :: k <= j < |parts| ==> parts[j].Tool?
    ensures k > 0 ==> k < |parts| ==> !parts[k - 1].Tool?
  {
    if |parts| == 0 || !parts[|parts| - 1].Tool? then |parts| else Trail(parts[..|parts| - 1])
  }

  /** The first tool with this index from here on, or the length. */
  function Find(parts: seq<Part>, from: nat, index: int): (k: nat)
    requires from <= |parts|
    ensures from <= k <= |parts|
    ensures k < |parts| ==> parts[k].Tool? && parts[k].index == index
    ensures forall j :: from <= j < k ==> !(parts[j].Tool? && parts[j].index == index)
    decreases |parts| - from
  {
    if from == |parts| then from
    else if parts[from].Tool? && parts[from].index == index then from
    else Find(parts, from + 1, index)
  }

  function Thinking(parts: seq<Part>, text: string): seq<Part> {
    var n := |parts|;
    if text == "" then parts
    else if n > 0 && parts[n - 1].Thought? then parts[n - 1 := Thought(parts[n - 1].text + text)]
    else if AnyTool(parts) then parts
    else parts + [Thought(text)]
  }

  function Speaking(parts: seq<Part>, text: string): seq<Part> {
    var n := |parts|;
    if text == "" then parts
    else if n > 0 && parts[n - 1].Speech? then parts[n - 1 := Speech(parts[n - 1].text + text)]
    else parts + [Speech(text)]
  }

  /** A tool index means the same call for good, or only until something else is said. */
  function Calling(parts: seq<Part>, d: ToolDelta, forGood: bool): seq<Part> {
    var k := Find(parts, if forGood then 0 else Trail(parts), d.index);
    if k == |parts| then parts + [Tool(d.index, d.id, d.name, d.name, d.arguments)]
    else
      var p := parts[k];
      parts[k := Tool(p.index, p.id, p.opening, if p.name == "" then d.name else p.name, p.text + d.arguments)]
  }

  function CallingAll(parts: seq<Part>, calls: seq<ToolDelta>, forGood: bool): seq<Part> {
    if |calls| == 0 then parts
    else Calling(CallingAll(parts, calls[..|calls| - 1], forGood), calls[|calls| - 1], forGood)
  }

  /** The parts that all these lines tell. */
  function Told(lines: seq<Line>, forGood: bool): seq<Part> {
    if |lines| == 0 then []
    else
      var before, last := Told(lines[..|lines| - 1], forGood), lines[|lines| - 1];
      if !Counts(lines) then before
      else
        var reasoning := if last.reasoningContent != "" then last.reasoningContent else last.reasoning;
        CallingAll(Speaking(Thinking(before, reasoning), last.content), last.calls, forGood)
  }

  // ----- Nothing said is lost, doubled or moved to another part -----

  /** The texts of these parts, joined. */
  function TextOf(parts: seq<Part>, these: Part -> bool): string {
    if |parts| == 0 then ""
    else TextOf(parts[..|parts| - 1], these) + if these(parts[|parts| - 1]) then parts[|parts| - 1].text else ""
  }

  predicate IsThought(p: Part) { p.Thought? }

  predicate IsSpeech(p: Part) { p.Speech? }

  function CallOf(index: int): Part -> bool { (p: Part) => p.Tool? && p.index == index }

  lemma {:induction false} OnePartMore(parts: seq<Part>, p: Part, these: Part -> bool)
    ensures TextOf(parts + [p], these) == TextOf(parts, these) + if these(p) then p.text else ""
  {
    assert (parts + [p])[..|parts|] == parts;
  }

  /** When the last of these parts grows, so does their text. */
  lemma {:induction false} LongerPart(parts: seq<Part>, k: nat, p: Part, more: string, these: Part -> bool)
    requires k < |parts| && p.text == parts[k].text + more && these(p) == these(parts[k])
    requires these(p) ==> forall j :: k < j < |parts| ==> !these(parts[j])
    ensures TextOf(parts[k := p], these) == TextOf(parts, these) + if these(p) then more else ""
  {
    var n := |parts| - 1;
    if k == n {
      assert parts[n := p] == parts[..n] + [p];
      OnePartMore(parts[..n], p, these);
      Regroup(TextOf(parts[..n], these), parts[n].text, more);
    } else {
      assert parts[k := p][..n] == parts[..n][k := p];
      LongerPart(parts[..n], k, p, more, these);
    }
  }

  /** No thought follows a call. */
  predicate ThoughtsFirst(parts: seq<Part>) {
    forall i, j :: 0 <= i < j < |parts| && parts[i].Tool? ==> !parts[j].Thought?
  }

  /** No two calls with one index, or only with something else said between them. */
  predicate CallsApart(parts: seq<Part>, forGood: bool) {
    forall i, j :: 0 <= i < j < |parts| && parts[i].Tool? && parts[j].Tool? && parts[i].index == parts[j].index ==>
      !forGood && i < Trail(parts)
  }

  lemma {:induction false} TrailSnoc(parts: seq<Part>, p: Part)
    ensures Trail(parts + [p]) == if p.Tool? then Trail(parts) else |parts| + 1
  {
    assert (parts + [p])[..|parts|] == parts;
  }

  /** Both, as every list of lines keeps them. */
  predicate Shaped(parts: seq<Part>, forGood: bool) { ThoughtsFirst(parts) && CallsApart(parts, forGood) }

  /** What a step adds to the thoughts, the speeches and the calls of an index. */
  ghost predicate Adds(before: seq<Part>, after: seq<Part>, thought: string, speech: string, arguments: string,
                       index: int) {
    && TextOf(after, IsThought) == TextOf(before, IsThought) + thought
    && TextOf(after, IsSpeech) == TextOf(before, IsSpeech) + speech
    && TextOf(after, CallOf(index)) == TextOf(before, CallOf(index)) + arguments
  }

  lemma {:induction false} AddsNothing(parts: seq<Part>, index: int)
    ensures Adds(parts, parts, "", "", "", index)
  {
    hide TextOf;
  }

  lemma {:induction false} AddsPart(parts: seq<Part>, p: Part, index: int)
    ensures Adds(parts, parts + [p], if p.Thought? then p.text else "", if p.Speech? then p.text else "",
                 if CallOf(index)(p) then p.text else "", index)
  {
    hide TextOf;
    OnePartMore(parts, p, IsThought);
    OnePartMore(parts, p, IsSpeech);
    OnePartMore(parts, p, CallOf(index));
  }

  lemma {:induction false} AddsMore(parts: seq<Part>, k: nat, p: Part, more: string, index: int)
    requires k < |parts| && p.text == parts[k].text + more
    requires if p.Tool? then parts[k].Tool? && p.index == parts[k].index else k == |parts| - 1
    requires p.Thought? == parts[k].Thought? && p.Speech? == parts[k].Speech?
    requires p.Tool? ==> forall j :: k < j < |parts| && parts[j].Tool? ==> parts[j].index != p.index
    ensures Adds(parts, parts[k := p], if p.Thought? then more else "", if p.Speech? then more else "",
                 if CallOf(index)(p) then more else "", index)
  {
    hide TextOf;
    LongerPart(parts, k, p, more, IsThought);
    LongerPart(parts, k, p, more, IsSpeech);
    LongerPart(parts, k, p, more, CallOf(index));
  }

  lemma {:induction false} AddsTwice(a: seq<Part>, b: seq<Part>, c: seq<Part>, t: string, s: string, x: string,
                                     u: string, v: string, y: string, index: int)
    requires Adds(a, b, t, s, x, index) && Adds(b, c, u, v, y, index)
    ensures Adds(a, c, t + u, s + v, x + y, index)
  {
    hide TextOf;
  }

  lemma {:induction false} ShapedSnoc(parts: seq<Part>, p: Part, forGood: bool)
    requires Shaped(parts, forGood) && (p.Thought? ==> !AnyTool(parts))
    requires p.Tool? ==> Find(parts, if forGood then 0 else Trail(parts), p.index) == |parts|
    ensures Shaped(parts + [p], forGood)
  {
    TrailSnoc(parts, p);
  }

  lemma {:induction false} ShapedMore(parts: seq<Part>, k: nat, p: Part, forGood: bool)
    requires Shaped(parts, forGood) && k < |parts|
    requires if p.Tool? then parts[k].Tool? && p.index == parts[k].index else k == |parts| - 1
    requires p.Thought? == parts[k].Thought? && p.Speech? == parts[k].Speech?
    ensures Shaped(parts[k := p], forGood) && (AnyTool(parts[k := p]) <==> AnyTool(parts))
  {
    if p.Tool? { TrailKeeps(parts, k, p); }
    var r := parts[k := p];
    assert forall j :: 0 <= j < |parts| ==> (r[j].Tool? <==> parts[j].Tool?) && (r[j].Thought? <==> parts[j].Thought?);
  }

  lemma {:induction false} ThinkingTells(parts: seq<Part>, text: string, forGood: bool, index: int)
    requires Shaped(parts, forGood)
    ensures var r := Thinking(parts, text);
            && Adds(parts, r, if AnyTool(parts) then "" else text, "", "", index)
            && Shaped(r, forGood) && (AnyTool(r) <==> AnyTool(parts))
  {
    hide Adds;
    var n := |parts|;
    AddsNothing(parts, index);
    if text != "" && n > 0 && parts[n - 1].Thought? {
      var p := Thought(parts[n - 1].text + text);
      AddsMore(parts, n - 1, p, text, index);
      ShapedMore(parts, n - 1, p, forGood);
    } else if text != "" && !AnyTool(parts) {
      AddsPart(parts, Thought(text), index);
      ShapedSnoc(parts, Thought(text), forGood);
    }
  }

  lemma {:induction false} AnyToolSnoc(parts: seq<Part>, p: Part)
    ensures AnyTool(parts + [p]) <==> AnyTool(parts) || p.Tool?
  {
    var r := parts + [p];
    assert r[|parts|] == p && forall k :: 0 <= k < |parts| ==> r[k] == parts[k];
  }

  lemma {:induction false} SpeakingTells(parts: seq<Part>, text: string, forGood: bool, index: int)
    requires Shaped(parts, forGood)
    ensures var r := Speaking(parts, text);
            && Adds(parts, r, "", text, "", index) && Shaped(r, forGood) && (AnyTool(r) <==> AnyTool(parts))
  {
    hide Adds, Shaped, AnyTool;
    var n := |parts|;
    AddsNothing(parts, index);
    if text != "" && n > 0 && parts[n - 1].Speech? {
      var p := Speech(parts[n - 1].text + text);
      AddsMore(parts, n - 1, p, text, index);
      ShapedMore(parts, n - 1, p, forGood);
    } else if text != "" {
      AddsPart(parts, Speech(text), index);
      ShapedSnoc(parts, Speech(text), forGood);
      AnyToolSnoc(parts, Speech(text));
    }
  }

  /** Growing a call changes no end. */
  lemma {:induction false} TrailKeeps(parts: seq<Part>, k: nat, p: Part)
    requires k < |parts| && p.Tool? && parts[k].Tool?
    ensures Trail(parts[k := p]) == Trail(parts)
  {
    var n := |parts| - 1;
    if parts[n].Tool? {
      if k < n {
        assert parts[k := p][..n] == parts[..n][k := p];
        TrailKeeps(parts[..n], k, p);
      } else {
        assert parts[k := p][..n] == parts[..n];
      }
    }
  }

  lemma {:induction false} CallingTells(parts: seq<Part>, d: ToolDelta, forGood: bool, index: int)
    requires Shaped(parts, forGood)
    ensures var r := Calling(parts, d, forGood);
            && Adds(parts, r, "", "", if d.index == index then d.arguments else "", index)
            && Shaped(r, forGood) && AnyTool(r)
  {
    hide Adds, Trail, AnyTool;
    var k := Find(parts, if forGood then 0 else Trail(parts), d.index);
    if k == |parts| {
      var p := Tool(d.index, d.id, d.name, d.name, d.arguments);
      AddsPart(parts, p, index);
      ShapedSnoc(parts, p, forGood);
      AnyToolSnoc(parts, p);
    } else {
      var p := Calling(parts, d, forGood)[k];
      AddsMore(parts, k, p, d.arguments, index);
      ShapedMore(parts, k, p, forGood);
      HasTool(parts, k);
    }
  }

  lemma {:induction false} HasTool(parts: seq<Part>, k: nat)
    requires k < |parts| && parts[k].Tool?
    ensures AnyTool(parts)
  {
  }

  lemma {:induction false} CallingAllTells(parts: seq<Part>, calls: seq<ToolDelta>, forGood: bool, index: int)
    requires Shaped(parts, forGood)
    ensures var r := CallingAll(parts, calls, forGood);
            && Adds(parts, r, "", "", Arguments(Only(calls, index)), index)
            && Shaped(r, forGood) && (AnyTool(r) <==> AnyTool(parts) || calls != [])
  {
    hide Calling, Adds, Shaped, AnyTool, Arguments, Only, CallingAll, TextOf, Find, Trail, DeltasOf, CallOf;
    if |calls| == 0 {
      NoCalls(parts, forGood, index);
      assert calls == [];
    } else {
      var front, last := calls[..|calls| - 1], calls[|calls| - 1];
      var before := CallingAll(parts, front, forGood);
      CallingAllSnoc(parts, calls, forGood);
      CallingAllTells(parts, front, forGood, index);
      CallingTells(before, last, forGood, index);
      AddsCalls(parts, before, Calling(before, last, forGood), Arguments(Only(front, index)),
                if last.index == index then last.arguments else "", index);
      OnlySnoc(front, last, index);
      assert calls == front + [last];
    }
  }

  lemma {:induction false} NoCalls(parts: seq<Part>, forGood: bool, index: int)
    ensures CallingAll(parts, [], forGood) == parts && Adds(parts, parts, "", "", Arguments(Only([], index)), index)
  {
    AddsNothing(parts, index);
  }

  lemma {:induction false} AddsCalls(a: seq<Part>, b: seq<Part>, c: seq<Part>, x: string, y: string, index: int)
    requires Adds(a, b, "", "", x, index) && Adds(b, c, "", "", y, index)
    ensures Adds(a, c, "", "", x + y, index)
  {
    hide Adds;
    AddsTwice(a, b, c, "", "", x, "", "", y, index);
    var nothing: string := "";
    assert nothing + nothing == nothing;
  }

  lemma {:induction false} CallingAllSnoc(parts: seq<Part>, calls: seq<ToolDelta>, forGood: bool)
    requires |calls| > 0
    ensures var n := |calls| - 1;
            CallingAll(parts, calls, forGood) == Calling(CallingAll(parts, calls[..n], forGood), calls[n], forGood)
  {
    hide Calling;
  }

  lemma {:induction false} OnlySnoc(calls: seq<ToolDelta>, d: ToolDelta, index: int)
    ensures Arguments(Only(calls + [d], index)) ==
            Arguments(Only(calls, index)) + if d.index == index then d.arguments else ""
  {
    assert (calls + [d])[..|calls|] == calls;
    if d.index == index { assert (Only(calls, index) + [d])[..|Only(calls, index)|] == Only(calls, index); }
    assert Only(calls, index) + [] == Only(calls, index);
  }

  lemma {:induction false} ArgumentsAppend(a: seq<ToolDelta>, b: seq<ToolDelta>)
    ensures Arguments(a + b) == Arguments(a) + Arguments(b)
  {
    if |b| == 0 {
      assert a + b == a;
    } else {
      var n := |b| - 1;
      assert (a + b)[..|a + b| - 1] == a + b[..n];
      ArgumentsAppend(a, b[..n]);
    }
  }

  /** What a chunk that counts adds. */
  lemma {:induction false} ChunkTells(before: seq<Part>, c: Line, forGood: bool, index: int)
    requires c.Chunk? && Shaped(before, forGood)
    ensures var reasoning := if c.reasoningContent != "" then c.reasoningContent else c.reasoning;
            var r := CallingAll(Speaking(Thinking(before, reasoning), c.content), c.calls, forGood);
            && Adds(before, r, if AnyTool(before) then "" else reasoning, c.content, Arguments(Only(c.calls, index)),
                    index)
            && Shaped(r, forGood) && (AnyTool(r) <==> AnyTool(before) || c.calls != [])
  {
    hide Thinking, Speaking, CallingAll, Adds, Shaped, AnyTool, Only, Arguments;
    var reasoning := if c.reasoningContent != "" then c.reasoningContent else c.reasoning;
    var thought := if AnyTool(before) then "" else reasoning;
    var one, two := Thinking(before, reasoning), Speaking(Thinking(before, reasoning), c.content);
    var nothing: string, arguments := "", Arguments(Only(c.calls, index));
    assert thought + nothing == thought && c.content + nothing == c.content && nothing + c.content == c.content;
    assert nothing + nothing == nothing && nothing + arguments == arguments;
    ThinkingTells(before, reasoning, forGood, index);
    SpeakingTells(one, c.content, forGood, index);
    CallingAllTells(two, c.calls, forGood, index);
    AddsTwice(before, one, two, thought, "", "", "", c.content, "", index);
    AddsTwice(before, two, CallingAll(two, c.calls, forGood), thought, c.content, "", "", "", arguments, index);
  }

  /** For every list of lines, in whatever order: the speeches are the content, the thoughts
      are the reasoning, and the calls of an index are its arguments, each joined; and no
      call begins twice unless something else was said in between. */
  lemma {:induction false} ToldKeeps(lines: seq<Line>, forGood: bool, index: int)
    ensures var r := Told(lines, forGood);
            && TextOf(r, IsSpeech) == AllContent(lines) && TextOf(r, IsThought) == AllReasoning(lines)
            && TextOf(r, CallOf(index)) == Arguments(DeltasOf(lines, index))
            && ThoughtsFirst(r) && CallsApart(r, forGood) && (AnyTool(r) <==> AnyCall(lines))
  {
    if |lines| > 0 {
      hide Thinking, Speaking, CallingAll, TextOf, ThoughtsFirst, CallsApart, AnyTool, Counts, Only, Arguments;
      var front, last := lines[..|lines| - 1], lines[|lines| - 1];
      ToldKeeps(front, forGood, index);
      if Counts(lines) {
        CountsIsChunk(lines);
        ChunkTells(Told(front, forGood), last, forGood, index);
        ArgumentsAppend(DeltasOf(front, index), Only(last.calls, index));
      } else {
        assert DeltasOf(front, index) + [] == DeltasOf(front, index);
      }
    }
  }

  lemma {:induction false} CountsIsChunk(lines: seq<Line>)
    requires Counts(lines)
    ensures |lines| > 0 && lines[|lines| - 1].Chunk?
  {
  }

  // ----- Which deltas make up a call -----

  /** The calls with this index. */
  function CallsOf(parts: seq<Part>, index: int): seq<Part> {
    if |parts| == 0 then []
    else
      var last := parts[|parts| - 1];
      CallsOf(parts[..|parts| - 1], index) + if last.Tool? && last.index == index then [last] else []
  }

  function Flat(groups: seq<seq<ToolDelta>>): seq<ToolDelta> {
    if |groups| == 0 then [] else Flat(groups[..|groups| - 1]) + groups[|groups| - 1]
  }

  /** The id of a call and the name it is announced with are those of its first delta; the
      name it ends up with is the first one given. */
  predicate Makes(group: seq<ToolDelta>, p: Part) {
    && p.Tool? && |group| > 0 && p.id == group[0].id && p.opening == group[0].name && p.name == FirstName(group)
    && p.text == Arguments(group)
  }

  ghost predicate Grouped(parts: seq<Part>, index: int, groups: seq<seq<ToolDelta>>) {
    var calls := CallsOf(parts, index);
    |groups| == |calls| && forall i :: 0 <= i < |calls| ==> Makes(groups[i], calls[i])
  }

  lemma {:induction false} CallsSnoc(parts: seq<Part>, p: Part, index: int)
    ensures CallsOf(parts + [p], index) == CallsOf(parts, index) + if p.Tool? && p.index == index then [p] else []
  {
    assert (parts + [p])[..|parts|] == parts;
  }

  /** Changing the last call of an index, or a part that is none. */
  lemma {:induction false} CallsChange(parts: seq<Part>, k: nat, p: Part, index: int)
    requires k < |parts| && (if p.Tool? then parts[k].Tool? && p.index == parts[k].index else !parts[k].Tool?)
    requires p.Tool? ==> forall j :: k < j < |parts| && parts[j].Tool? ==> parts[j].index != p.index
    ensures var before, after := CallsOf(parts, index), CallsOf(parts[k := p], index);
            if p.Tool? && p.index == index
            then |before| > 0 && before[|before| - 1] == parts[k] && after == before[|before| - 1 := p]
            else after == before
  {
    var n := |parts| - 1;
    if k == n {
      assert parts[n := p] == parts[..n] + [p];
      CallsSnoc(parts[..n], p, index);
    } else {
      assert parts[k := p][..n] == parts[..n][k := p];
      CallsChange(parts[..n], k, p, index);
    }
  }

  lemma {:induction false} FirstNameSnoc(group: seq<ToolDelta>, d: ToolDelta)
    ensures FirstName(group + [d]) == if FirstName(group) == "" then d.name else FirstName(group)
  {
    if |group| == 0 {
      assert ([] + [d])[0] == d && ([] + [d])[1..] == [];
    } else {
      assert (group + [d])[0] == group[0] && (group + [d])[1..] == group[1..] + [d];
      if group[0].name == "" { FirstNameSnoc(group[1..], d); }
    }
  }

  lemma {:induction false} MakesMore(group: seq<ToolDelta>, p: Part, d: ToolDelta)
    requires Makes(group, p)
    ensures Makes(group + [d], Tool(p.index, p.id, p.opening, if p.name == "" then d.name else p.name,
                                    p.text + d.arguments))
  {
    FirstNameSnoc(group, d);
    assert (group + [d])[..|group|] == group;
  }

  lemma {:induction false} MakesNew(d: ToolDelta)
    ensures Makes([d], Tool(d.index, d.id, d.name, d.name, d.arguments))
  {
    assert [d][..0] == [] && "" + d.arguments == d.arguments;
  }

  lemma {:induction false} FlatMore(groups: seq<seq<ToolDelta>>, d: ToolDelta)
    ensures Flat(groups + [[d]]) == Flat(groups) + [d]
    ensures |groups| > 0 ==> var n := |groups| - 1; Flat(groups[n := groups[n] + [d]]) == Flat(groups) + [d]
  {
    assert (groups + [[d]])[..|groups|] == groups;
    if |groups| > 0 {
      var n := |groups| - 1;
      assert groups[n := groups[n] + [d]][..n] == groups[..n];
      Regroup(Flat(groups[..n]), groups[n], [d]);
    }
  }

  lemma {:induction false} CallingGroups(parts: seq<Part>, d: ToolDelta, forGood: bool, index: int,
                                         groups: seq<seq<ToolDelta>>)
    returns (next: seq<seq<ToolDelta>>)
    requires Shaped(parts, forGood) && Grouped(parts, index, groups)
    ensures Grouped(Calling(parts, d, forGood), index, next)
    ensures Flat(next) == Flat(groups) + if d.index == index then [d] else []
  {
    hide Makes, Flat, Trail, CallsOf;
    var k, r := Find(parts, if forGood then 0 else Trail(parts), d.index), Calling(parts, d, forGood);
    next := groups;
    FlatMore(groups, d);
    if k == |parts| {
      CallsSnoc(parts, r[k], index);
      if d.index == index {
        MakesNew(d);
        next := groups + [[d]];
      }
    } else {
      CallsChange(parts, k, r[k], index);
      if d.index == index {
        var n := |groups| - 1;
        MakesMore(groups[n], parts[k], d);
        next := groups[n := groups[n] + [d]];
      }
    }
  }

  lemma {:induction false} CallingAllGroups(parts: seq<Part>, calls: seq<ToolDelta>, forGood: bool, index: int,
                                            groups: seq<seq<ToolDelta>>)
    returns (next: seq<seq<ToolDelta>>)
    requires Shaped(parts, forGood) && Grouped(parts, index, groups)
    ensures Grouped(CallingAll(parts, calls, forGood), index, next) && Flat(next) == Flat(groups) + Only(calls, index)
  {
    hide Calling, Shaped, Grouped, Flat;
    next := groups;
    if |calls| > 0 {
      var front, last := calls[..|calls| - 1], calls[|calls| - 1];
      next := CallingAllGroups(parts, front, forGood, index, groups);
      CallingAllTells(parts, front, forGood, index);
      var before := next;
      next := CallingGroups(CallingAll(parts, front, forGood), last, forGood, index, before);
      Regroup(Flat(groups), Only(front, index), if last.index == index then [last] else []);
    }
  }

  lemma {:induction false} SpokenGroups(parts: seq<Part>, reasoning: string, content: string, index: int)
    ensures CallsOf(Speaking(Thinking(parts, reasoning), content), index) == CallsOf(parts, index)
  {
    ThinkingCalls(parts, reasoning, index);
    hide Thinking;
    SpeakingCalls(Thinking(parts, reasoning), content, index);
  }

  lemma {:induction false} ThinkingCalls(parts: seq<Part>, text: string, index: int)
    ensures CallsOf(Thinking(parts, text), index) == CallsOf(parts, index)
  {
    var n := |parts|;
    CallsSnoc(parts, Thought(text), index);
    if n > 0 && parts[n - 1].Thought? { CallsChange(parts, n - 1, Thought(parts[n - 1].text + text), index); }
  }

  lemma {:induction false} SpeakingCalls(parts: seq<Part>, text: string, index: int)
    ensures CallsOf(Speaking(parts, text), index) == CallsOf(parts, index)
  {
    var n := |parts|;
    CallsSnoc(parts, Speech(text), index);
    if n > 0 && parts[n - 1].Speech? { CallsChange(parts, n - 1, Speech(parts[n - 1].text + text), index); }
  }

  /** The deltas of an index, cut into consecutive groups, make up its calls one by one; for
      good, there is one group at most. */
  lemma {:induction false} CallsAreGroups(lines: seq<Line>, forGood: bool, index: int)
    returns (groups: seq<seq<ToolDelta>>)
    ensures Grouped(Told(lines, forGood), index, groups) && Flat(groups) == DeltasOf(lines, index)
    ensures forGood ==> |groups| <= 1
  {
    groups := [];
    if |lines| > 0 {
      hide Thinking, Speaking, CallingAll, Makes, Shaped, CallsOf, Counts, Flat, Only;
      var front, last := lines[..|lines| - 1], lines[|lines| - 1];
      var before := Told(front, forGood);
      groups := CallsAreGroups(front, forGood, index);
      if Counts(lines) {
        CountsIsChunk(lines);
        var reasoning := if last.reasoningContent != "" then last.reasoningContent else last.reasoning;
        ToldShaped(front, forGood);
        SpokenShaped(before, reasoning, last.content, forGood);
        SpokenGroups(before, reasoning, last.content, index);
        groups := CallingAllGroups(Speaking(Thinking(before, reasoning), last.content), last.calls, forGood, index,
                                   groups);
      } else {
        assert DeltasOf(front, index) + [] == DeltasOf(front, index);
      }
      ToldShaped(lines, forGood);
    }
    if forGood { OneCall(Told(lines, true), index); }
  }

  lemma {:induction false} ToldShaped(lines: seq<Line>, forGood: bool)
    ensures Shaped(Told(lines, forGood), forGood)
  {
    ToldKeeps(lines, forGood, 0);
  }

  lemma {:induction false} SpokenShaped(parts: seq<Part>, reasoning: string, content: string, forGood: bool)
    requires Shaped(parts, forGood)
    ensures Shaped(Speaking(Thinking(parts, reasoning), content), forGood)
  {
    ThinkingTells(parts, reasoning, forGood, 0);
    SpeakingTells(Thinking(parts, reasoning), content, forGood, 0);
  }

  lemma {:induction false} OneCall(parts: seq<Part>, index: int)
    requires CallsApart(parts, true)
    ensures |CallsOf(parts, index)| <= 1
    ensures |CallsOf(parts, index)| > 0 ==> exists k :: 0 <= k < |parts| && parts[k].Tool? && parts[k].index == index
  {
    if |parts| > 0 {
      var front := parts[..|parts| - 1];
      assert forall i :: 0 <= i < |front| ==> front[i] == parts[i];
      OneCall(front, index);
    }
  }
}
