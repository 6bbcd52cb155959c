/** What an Anthropic stream says: block by block exactly what its upstream said, in whatever
    order the lines bring reasoning, content and calls. */
module AnthropicContent {
  import opened Wrappers
  import Chat = ResponsesProtocol
  import opened UpstreamLines
  import opened AnthropicProtocol
  import opened AnthropicLifecycle
  import Story = ChatStory
  import Adapter = AnthropicWriteStream
  import opened SseLines

  // ----- The log by blocks -----

  /** The deltas of this block, joined. */
  function TextAt(log: seq<Event>, b: nat): string {
    if |log| == 0 then ""
    else
      var e := log[|log| - 1];
      TextAt(log[..|log| - 1], b) + if e.BlockDelta? && e.index == b then e.text else ""
  }

  /** How this block was started, and started again. */
  function StartsAt(log: seq<Event>, b: nat): seq<Event> {
    if |log| == 0 then []
    else
      var e := log[|log| - 1];
      StartsAt(log[..|log| - 1], b) + if e.BlockStart? && e.index == b then [e] else []
  }

  predicate HasId(id: Chat.CallId, given: string) { if given == "" then id.Minted? else id == Chat.Given(given) }

  type Ids = map<nat, Chat.CallId>

  /** The block says the part.  A name that came late is announced by a second start. */
  predicate Says(log: seq<Event>, ids: Ids, b: nat, p: Story.Part) {
    && TextAt(log, b) == p.text
    && match p
       case Thought(_) => StartsAt(log, b) == [BlockStart(b, Thinking, Chat.Given(""), "")]
       case Speech(_) => StartsAt(log, b) == [BlockStart(b, Text, Chat.Given(""), "")]
       case Tool(_, given, opening, name, _) =>
         && b in ids && HasId(ids[b], given)
         && StartsAt(log, b) ==
            [BlockStart(b, Tool, ids[b], opening)]
            + if opening == "" && name != "" then [BlockStart(b, Tool, ids[b], name)] else []
  }

  ghost predicate SaysAll(log: seq<Event>, ids: Ids, parts: seq<Story.Part>) {
    && (forall b: nat :: b < |parts| ==> Says(log, ids, b, parts[b]))
    && forall b: nat :: b >= |parts| ==> TextAt(log, b) == "" && StartsAt(log, b) == []
  }

  lemma {:induction false} SentAt(log: seq<Event>, e: Event, b: nat)
    ensures TextAt(log + [e], b) == TextAt(log, b) + if e.BlockDelta? && e.index == b then e.text else ""
    ensures StartsAt(log + [e], b) == StartsAt(log, b) + if e.BlockStart? && e.index == b then [e] else []
  {
    assert (log + [e])[..|log|] == log;
  }

  /** Two logs with the same deltas and starts. */
  ghost predicate SameSaid(a: seq<Event>, b: seq<Event>) {
    forall k: nat :: TextAt(b, k) == TextAt(a, k) && StartsAt(b, k) == StartsAt(a, k)
  }

  lemma {:induction false} QuietSent(log: seq<Event>, e: Event)
    requires !e.BlockDelta? && !e.BlockStart?
    ensures SameSaid(log, log + [e])
  {
    forall k: nat ensures TextAt(log + [e], k) == TextAt(log, k) && StartsAt(log + [e], k) == StartsAt(log, k) {
      SentAt(log, e, k);
      assert TextAt(log, k) + "" == TextAt(log, k) && StartsAt(log, k) + [] == StartsAt(log, k);
    }
  }

  lemma {:induction false} SameSays(a: seq<Event>, b: seq<Event>, ids: Ids, parts: seq<Story.Part>)
    requires SameSaid(a, b) && SaysAll(a, ids, parts)
    ensures SaysAll(b, ids, parts)
  {
    forall k: nat | k < |parts| ensures Says(b, ids, k, parts[k]) { assert Says(a, ids, k, parts[k]); }
  }

  lemma {:induction false} SameTwice(a: seq<Event>, b: seq<Event>, c: seq<Event>)
    requires SameSaid(a, b) && SameSaid(b, c)
    ensures SameSaid(a, c)
  {
  }

  lemma {:induction false} ToolsQuiet(s: State, n: nat)
    ensures SameSaid(s.log, CloseToolsBelow(s, n).log) && SameBooks(s, CloseToolsBelow(s, n))
  {
    if n > 0 {
      hide SameSaid;
      ToolsQuiet(s, n - 1);
      var t := CloseToolsBelow(s, n - 1);
      QuietSent(t.log, BlockStop(n - 1));
      if n - 1 in s.open { SameTwice(s.log, t.log, t.log + [BlockStop(n - 1)]); }
    } else {
      assert SameSaid(s.log, s.log);
    }
  }

  /** What a closing step leaves but the log and the open blocks. */
  predicate SameBooks(s: State, t: State) {
    && t.next == s.next && t.blocks == s.blocks && t.names == s.names && t.ids == s.ids && t.finished == s.finished
    && t.reason == s.reason && t.supply == s.supply && t.usage == s.usage
  }

  lemma {:induction false} SoloQuiet(s: State)
    ensures SameSaid(s.log, CloseThinking(s).log) && SameBooks(s, CloseThinking(s))
    ensures CloseThinking(s).thinking == None && CloseThinking(s).text == s.text
    ensures SameSaid(s.log, CloseText(s).log) && SameBooks(s, CloseText(s))
    ensures CloseText(s).text == None && CloseText(s).thinking == s.thinking
  {
    if s.thinking.Some? { QuietSent(s.log, BlockStop(s.thinking.value)); }
    if s.text.Some? { QuietSent(s.log, BlockStop(s.text.value)); }
  }

  // ----- The state and the parts -----

  /** The bookkeeping of the state is that of these parts. */
  ghost predicate Keeps(s: State, parts: seq<Story.Part>) {
    var n := |parts|;
    && !s.finished && s.next == n
    && s.thinking == (if n > 0 && parts[n - 1].Thought? then Some(n - 1) else None)
    && s.text == (if n > 0 && parts[n - 1].Speech? then Some(n - 1) else None)
    && (forall i :: i in s.blocks <==> Story.Find(parts, 0, i) < n)
    && (forall i :: i in s.blocks ==> s.blocks[i] == Story.Find(parts, 0, i))
    && (forall b: nat :: b < n && parts[b].Tool? ==> b in s.names && s.names[b] == parts[b].name)
  }

  ghost predicate Carries(s: State, parts: seq<Story.Part>) {
    Keeps(s, parts) && SaysAll(s.log, s.ids, parts)
  }

  /** A started block says a part without text. */
  lemma {:induction false} StartSays(log: seq<Event>, ids: Ids, more: Ids, parts: seq<Story.Part>, e: Event,
                                     p: Story.Part)
    requires SaysAll(log, ids, parts) && e.BlockStart? && e.index == |parts| && p.text == ""
    requires p.Thought? ==> e == BlockStart(|parts|, Thinking, Chat.Given(""), "")
    requires p.Speech? ==> e == BlockStart(|parts|, Text, Chat.Given(""), "")
    requires if p.Tool? then |parts| in more && more == ids[|parts| := more[|parts|]] && HasId(more[|parts|], p.id)
                             && p.name == p.opening && e == BlockStart(|parts|, Tool, more[|parts|], p.opening)
             else more == ids
    ensures SaysAll(log + [e], more, parts + [p])
  {
    forall b: nat
      ensures b <= |parts| ==> Says(log + [e], more, b, (parts + [p])[b])
      ensures b > |parts| ==> TextAt(log + [e], b) == "" && StartsAt(log + [e], b) == []
    {
      SentAt(log, e, b);
      if b < |parts| { assert Says(log, ids, b, parts[b]); }
      assert TextAt(log, b) + "" == TextAt(log, b) && StartsAt(log, b) + [] == StartsAt(log, b);
    }
  }

  lemma {:induction false} DeltaSays(log: seq<Event>, ids: Ids, parts: seq<Story.Part>, k: nat, block: Block,
                                     text: string, p: Story.Part)
    requires SaysAll(log, ids, parts) && k < |parts| && p == Story.Longer(parts[k], text)
    ensures SaysAll(log + [BlockDelta(k, block, text)], ids, parts[k := p])
  {
    var e := BlockDelta(k, block, text);
    forall b: nat
      ensures b < |parts| ==> Says(log + [e], ids, b, parts[k := p][b])
      ensures b >= |parts| ==> TextAt(log + [e], b) == "" && StartsAt(log + [e], b) == []
    {
      SentAt(log, e, b);
      if b < |parts| { assert Says(log, ids, b, parts[b]); }
      assert TextAt(log, b) + "" == TextAt(log, b) && StartsAt(log, b) + [] == StartsAt(log, b);
    }
  }

  /** A late name. */
  lemma {:induction false} RepeatSays(log: seq<Event>, ids: Ids, parts: seq<Story.Part>, k: nat, name: string)
    requires SaysAll(log, ids, parts) && k < |parts| && parts[k].Tool? && parts[k].name == "" && name != ""
    requires k in ids && parts[k].opening == ""
    ensures SaysAll(log + [BlockStart(k, Tool, ids[k], name)], ids, parts[k := parts[k].(name := name)])
  {
    var e := BlockStart(k, Tool, ids[k], name);
    forall b: nat
      ensures b < |parts| ==> Says(log + [e], ids, b, parts[k := parts[k].(name := name)][b])
      ensures b >= |parts| ==> TextAt(log + [e], b) == "" && StartsAt(log + [e], b) == []
    {
      SentAt(log, e, b);
      if b < |parts| { assert Says(log, ids, b, parts[b]); }
      assert TextAt(log, b) + "" == TextAt(log, b) && StartsAt(log, b) + [] == StartsAt(log, b);
    }
  }

  // ----- Steps -----

  /** A new part at the end. */
  lemma {:induction false} FindSnoc(parts: seq<Story.Part>, from: nat, p: Story.Part, index: int)
    requires from <= |parts|
    ensures var k := Story.Find(parts, from, index);
            Story.Find(parts + [p], from, index) ==
            if k < |parts| then k else if p.Tool? && p.index == index then |parts| else |parts| + 1
    decreases |parts| - from
  {
    if from < |parts| { FindSnoc(parts, from + 1, p, index); }
  }

  lemma {:induction false} FindSame(parts: seq<Story.Part>, from: nat, k: nat, p: Story.Part, index: int)
    requires from <= |parts| && k < |parts| && p.Tool? == parts[k].Tool? && (p.Tool? ==> p.index == parts[k].index)
    ensures Story.Find(parts[k := p], from, index) == Story.Find(parts, from, index)
    decreases |parts| - from
  {
    if from < |parts| { FindSame(parts, from + 1, k, p, index); }
  }

  lemma {:induction false} KeepsSnoc(s: State, parts: seq<Story.Part>, t: State, p: Story.Part)
    requires Keeps(s, parts) && !t.finished && t.next == |parts| + 1
    requires t.thinking == (if p.Thought? then Some(|parts|) else None)
             && t.text == (if p.Speech? then Some(|parts|) else None)
    requires if p.Tool? then t.blocks == s.blocks[p.index := |parts|] && p.index !in s.blocks
                             && t.names == s.names[|parts| := p.name]
             else t.blocks == s.blocks && t.names == s.names
    ensures Keeps(t, parts + [p])
  {
    var all, n := parts + [p], |parts|;
    forall i ensures i in t.blocks <==> Story.Find(all, 0, i) < n + 1
             ensures i in t.blocks ==> t.blocks[i] == Story.Find(all, 0, i) {
      hide Story.Find;
      FindSnoc(parts, 0, p, i);
      assert i in s.blocks <==> Story.Find(parts, 0, i) < n;
    }
    hide Story.Find;
    assert all[n] == p;
    forall b: nat | b < |all| && all[b].Tool? ensures b in t.names && t.names[b] == all[b].name {
      if b < n { assert parts[b] == all[b]; }
    }
  }

  lemma {:induction false} KeepsSame(s: State, parts: seq<Story.Part>, t: State, k: nat, p: Story.Part)
    requires Keeps(s, parts) && k < |parts| && t.finished == s.finished && t.next == s.next && t.blocks == s.blocks
    requires t.thinking == s.thinking && t.text == s.text
    requires p.Thought? == parts[k].Thought? && p.Speech? == parts[k].Speech? && (p.Tool? ==> p.index == parts[k].index)
    requires t.names == if p.Tool? && p.name != parts[k].name then s.names[k := p.name] else s.names
    ensures Keeps(t, parts[k := p])
  {
    hide Story.Find;
    forall i ensures Story.Find(parts[k := p], 0, i) == Story.Find(parts, 0, i) { FindSame(parts, 0, k, p, i); }
  }

  lemma {:induction false} DeltaCarries(s: State, parts: seq<Story.Part>, k: nat, block: Block, text: string)
    requires Carries(s, parts) && k < |parts|
    ensures Carries(AnthropicProtocol.Delta(s, k, block, text), parts[k := Story.Longer(parts[k], text)])
  {
    hide SaysAll, Keeps;
    var p := Story.Longer(parts[k], text);
    DeltaSays(s.log, s.ids, parts, k, block, text, p);
    KeepsSame(s, parts, AnthropicProtocol.Delta(s, k, block, text), k, p);
  }

  lemma {:induction false} NoBlocks(s: State, parts: seq<Story.Part>)
    requires Keeps(s, parts)
    ensures s.blocks == map[] <==> !Story.AnyTool(parts)
  {
    if Story.AnyTool(parts) {
      var k :| 0 <= k < |parts| && parts[k].Tool?;
      assert parts[k].index in s.blocks;
    } else if s.blocks != map[] {
      assert s.blocks.Keys != {};
      var i := Pick(s.blocks.Keys);
    }
  }

  /** A solo block started after the others were closed, with its first delta. */
  lemma {:induction false} SoloCarries(s: State, q: State, parts: seq<Story.Part>, t: State, block: Block,
                                       p: Story.Part)
    requires Carries(s, parts) && SameSaid(s.log, q.log) && SameBooks(s, q) && !p.Tool?
    requires (p.Thought? <==> block == Thinking) && (p.Speech? <==> block == Text)
    requires t == AnthropicProtocol.Delta(
                    Sent(q, BlockStart(q.next, block, Chat.Given(""), "")).(
                      thinking := if p.Thought? then Some(q.next) else None,
                      text := if p.Speech? then Some(q.next) else None, next := q.next + 1),
                    q.next, block, p.text)
    ensures Carries(t, parts + [p])
  {
    hide SaysAll, SameSaid, Story.Find;
    var n, blank := |parts|, Story.WithText(p, "");
    SameSays(s.log, q.log, s.ids, parts);
    var begun := Sent(q, BlockStart(n, block, Chat.Given(""), "")).(
      thinking := if p.Thought? then Some(n) else None, text := if p.Speech? then Some(n) else None, next := n + 1);
    StartSays(q.log, q.ids, q.ids, parts, BlockStart(n, block, Chat.Given(""), ""), blank);
    KeepsSnoc(s, parts, begun, blank);
    DeltaCarries(begun, parts + [blank], n, block, p.text);
    assert "" + p.text == p.text;
    assert (parts + [blank])[n := Story.Longer(blank, p.text)] == parts + [p];
  }

  lemma {:induction false} CarriesBooks(s: State, parts: seq<Story.Part>)
    requires Carries(s, parts)
    ensures var n := |parts|;
            && !s.finished && s.next == n
            && s.thinking == (if n > 0 && parts[n - 1].Thought? then Some(n - 1) else None)
            && s.text == (if n > 0 && parts[n - 1].Speech? then Some(n - 1) else None)
            && (s.blocks == map[] <==> !Story.AnyTool(parts))
            && forall i :: (i in s.blocks <==> Story.Find(parts, 0, i) < n)
                           && (i in s.blocks ==> s.blocks[i] == Story.Find(parts, 0, i))
  {
    NoBlocks(s, parts);
  }

  lemma {:induction false} MuseCarries(s: State, parts: seq<Story.Part>, text: string)
    requires Carries(s, parts)
    ensures Carries(Muse(s, text), Story.Thinking(parts, text))
  {
    hide Carries, SameSaid, Story.Find, Story.AnyTool, CloseText;
    CarriesBooks(s, parts);
    SoloQuiet(s);
    var n := |parts|;
    if text != "" && n > 0 && parts[n - 1].Thought? {
      DeltaCarries(s, parts, n - 1, Thinking, text);
    } else if text != "" && s.blocks == map[] {
      SoloCarries(s, CloseText(s), parts, Muse(s, text), Thinking, Story.Thought(text));
    }
  }

  lemma {:induction false} TalkCarries(s: State, parts: seq<Story.Part>, text: string)
    requires Carries(s, parts)
    ensures Carries(Talk(s, text), Story.Speaking(parts, text))
  {
    hide Carries, SameSaid, Story.Find, Story.AnyTool, CloseThinking, CloseToolsBelow, CloseText;
    CarriesBooks(s, parts);
    var n, q := |parts|, CloseTools(s);
    ToolsQuiet(s, s.next);
    SoloQuiet(q);
    if text != "" && n > 0 && parts[n - 1].Speech? {
      DeltaCarries(s, parts, n - 1, Text, text);
    } else if text != "" {
      SameTwice(s.log, q.log, CloseThinking(q).log);
      SoloCarries(s, CloseThinking(q), parts, Talk(s, text), Text, Story.Speech(text));
    }
  }

  // ----- Calls -----

  lemma {:induction false} NewCallCarries(s: State, parts: seq<Story.Part>, d: Chat.ToolDelta)
    requires Carries(s, parts) && d.index !in s.blocks
    ensures Carries(StartTool(CloseText(CloseThinking(s)), d),
                    parts + [Story.Tool(d.index, d.id, d.name, d.name, "")])
    ensures StartTool(CloseText(CloseThinking(s)), d).next == |parts| + 1
  {
    hide SaysAll, SameSaid, Story.Find, CloseText, CloseThinking;
    SoloQuiet(s);
    var q := CloseText(CloseThinking(s));
    SoloQuiet(CloseThinking(s));
    SameTwice(s.log, CloseThinking(s).log, q.log);
    SameSays(s.log, q.log, s.ids, parts);
    var n, p := |parts|, Story.Tool(d.index, d.id, d.name, d.name, "");
    var t := StartTool(q, d);
    StartSays(q.log, q.ids, t.ids, parts, BlockStart(n, Tool, t.ids[n], d.name), p);
    KeepsSnoc(s, parts, t, p);
  }

  lemma {:induction false} ToolSaid(s: State, parts: seq<Story.Part>, k: nat)
    requires Carries(s, parts) && k < |parts| && parts[k].Tool?
    ensures k in s.ids && HasId(s.ids[k], parts[k].id) && k in s.names && s.names[k] == parts[k].name
  {
    assert Says(s.log, s.ids, k, parts[k]);
  }

  /** A name that is empty was empty from the beginning. */
  predicate NamesGrow(parts: seq<Story.Part>) {
    forall k :: 0 <= k < |parts| && parts[k].Tool? && parts[k].name == "" ==> parts[k].opening == ""
  }

  lemma {:induction false} BackfillCarries(s: State, parts: seq<Story.Part>, k: nat, d: Chat.ToolDelta)
    requires Carries(s, parts) && NamesGrow(parts) && k < |parts| && parts[k].Tool?
    ensures Carries(AnthropicProtocol.Backfill(s, k, d),
                    parts[k := parts[k].(name := if parts[k].name == "" then d.name else parts[k].name)])
  {
    hide SaysAll, Keeps;
    ToolSaid(s, parts, k);
    var p := parts[k].(name := if parts[k].name == "" then d.name else parts[k].name);
    var t := AnthropicProtocol.Backfill(s, k, d);
    if NameIsLate(s, k, d) {
      RepeatSays(s.log, s.ids, parts, k, d.name);
      KeepsSame(s, parts, t, k, p);
    } else {
      assert parts[k := p] == parts;
    }
  }

  lemma {:induction false} CallCarries(s: State, parts: seq<Story.Part>, d: Chat.ToolDelta)
    requires Carries(s, parts) && NamesGrow(parts)
    ensures Carries(Call(s, d), Story.Calling(parts, d, true)) && NamesGrow(Story.Calling(parts, d, true))
  {
    hide Carries, Story.Find, CloseText, CloseThinking, StartTool, AnthropicProtocol.Backfill;
    CarriesBooks(s, parts);
    var k := Story.Find(parts, 0, d.index);
    if k < |parts| {
      BackfillCarries(s, parts, k, d);
      var p := parts[k].(name := if parts[k].name == "" then d.name else parts[k].name);
      var t := AnthropicProtocol.Backfill(s, k, d);
      if d.arguments != "" {
        DeltaCarries(t, parts[k := p], k, Tool, d.arguments);
        assert parts[k := p][k := Story.Longer(p, d.arguments)] == parts[k := Story.Longer(p, d.arguments)];
      } else {
        assert p.text + d.arguments == p.text;
      }
    } else {
      var p := Story.Tool(d.index, d.id, d.name, d.name, "");
      NewCallCarries(s, parts, d);
      var t := StartTool(CloseText(CloseThinking(s)), d);
      assert "" + d.arguments == d.arguments;
      if d.arguments != "" {
        DeltaCarries(t, parts + [p], |parts|, Tool, d.arguments);
        assert (parts + [p])[|parts| := Story.Longer(p, d.arguments)] == parts + [Story.Longer(p, d.arguments)];
      }
    }
  }

  lemma {:induction false} SpokenNames(parts: seq<Story.Part>, reasoning: string, content: string)
    requires NamesGrow(parts)
    ensures NamesGrow(Story.Speaking(Story.Thinking(parts, reasoning), content))
  {
  }

  // ----- Lines -----

  lemma {:induction false} CallsCarry(s: State, parts: seq<Story.Part>, calls: seq<Chat.ToolDelta>)
    requires Carries(s, parts) && NamesGrow(parts)
    ensures var r := Story.CallingAll(parts, calls, true); Carries(ActAll(s, Callings(calls)), r) && NamesGrow(r)
  {
    if |calls| > 0 {
      hide Carries, NamesGrow, Call, Callings, ActAll, Story.Calling;
      var n := |calls| - 1;
      CallsCarry(s, parts, calls[..n]);
      CallCarries(ActAll(s, Callings(calls[..n])), Story.CallingAll(parts, calls[..n], true), calls[n]);
      CallingsSnoc(s, calls);
    } else {
      hide Carries, NamesGrow, Call, Act, Story.Calling;
      assert Callings(calls) == [];
    }
  }

  lemma {:induction false} CallingsSnoc(s: State, calls: seq<Chat.ToolDelta>)
    requires |calls| > 0
    ensures var n := |calls| - 1; ActAll(s, Callings(calls)) == Call(ActAll(s, Callings(calls[..n])), calls[n])
  {
    hide Call, Muse, Talk;
    var n := |calls| - 1;
    assert Callings(calls)[..n] == Callings(calls[..n]);
  }

  lemma {:induction false} ActTwo(s: State, a: Action, b: Action, more: seq<Action>)
    ensures ActAll(s, [a, b] + more) == ActAll(Act(Act(s, a), b), more)
  {
    hide Act;
    if |more| == 0 {
      assert [a, b] + more == [a, b] && [a, b][..1] == [a] && [a][..0] == [];
      assert ActAll(s, [a]) == Act(ActAll(s, []), a);
    } else {
      var n := |more| - 1;
      assert ([a, b] + more)[..n + 2] == [a, b] + more[..n];
      ActTwo(s, a, b, more[..n]);
    }
  }

  /** The stream after these lines: it carries what they tell, or has failed with it. */
  ghost predicate Told(s: State, lines: seq<Chat.Line>) {
    var parts := Story.Told(lines, true);
    if Errs(lines) then
      && s.finished && SaysAll(s.log, s.ids, parts) && s.next == |parts|
      && EndsIn(s.log, ErrorEvent(if Story.FirstError(lines) == "" then "upstream error" else Story.FirstError(lines)))
    else Carries(s, parts) && NamesGrow(parts) && s.reason == Story.LastReason(lines)
  }

  predicate EndsIn(log: seq<Event>, e: Event) {
    |log| >= 2 && log[|log| - 2] == e && log[|log| - 1] == MessageStop
  }

  lemma {:induction false} LinesSnoc(lines: seq<Chat.Line>, line: Chat.Line)
    ensures var all := lines + [line];
            && (Errs(all) <==> Errs(lines) || line.UpstreamError?)
            && (Errs(lines) ==> Story.FirstError(all) == Story.FirstError(lines))
            && (!Errs(lines) && line.UpstreamError? ==> Story.FirstError(all) == line.message)
            && (Errs(lines) || !line.Chunk? ==>
                  Story.Told(all, true) == Story.Told(lines, true) && Story.LastReason(all) == Story.LastReason(lines))
  {
    hide Story.CallingAll, Story.Speaking, Story.Thinking;
    var all := lines + [line];
    assert all[..|lines|] == lines && all[|lines|] == line;
    assert forall i :: 0 <= i < |lines| ==> all[i] == lines[i];
  }

  lemma {:induction false} ToldSnoc(lines: seq<Chat.Line>, line: Chat.Line)
    requires line.Chunk? && !Errs(lines)
    ensures var reasoning := if line.reasoningContent != "" then line.reasoningContent else line.reasoning;
            var all, before := lines + [line], Story.Told(lines, true);
            && Story.Told(all, true) ==
               Story.CallingAll(Story.Speaking(Story.Thinking(before, reasoning), line.content), line.calls, true)
            && Story.LastReason(all) == if line.finishReason != "" then line.finishReason else Story.LastReason(lines)
  {
    hide Story.Thinking, Story.Speaking, Story.CallingAll;
    var all := lines + [line];
    assert all[..|lines|] == lines && all[|lines|] == line;
  }

  /** What is said changes the reason not at all, and of the usage only the count of output. */
  predicate SameCounts(s: State, t: State) { t.reason == s.reason && t.usage == s.usage.(output := t.usage.output) }

  lemma {:induction false} ActsKeepCounts(s: State, actions: seq<Action>)
    ensures SameCounts(s, ActAll(s, actions))
  {
    if |actions| > 0 {
      hide Act;
      var n := |actions| - 1;
      ActsKeepCounts(s, actions[..n]);
      ActKeepsCounts(ActAll(s, actions[..n]), actions[n]);
    }
  }

  lemma {:induction false} SpokenCounts(s: State, text: string)
    ensures SameCounts(s, Muse(s, text)) && SameCounts(s, Talk(s, text))
  {
    hide CloseThinking, CloseText, CloseToolsBelow, SameSaid;
    SoloQuiet(s);
    ToolsQuiet(s, s.next);
    SoloQuiet(CloseTools(s));
  }

  lemma {:induction false} CallCounts(s: State, d: Chat.ToolDelta)
    ensures SameCounts(s, Call(s, d))
  {
    hide CloseThinking, CloseText, SameSaid;
    SoloQuiet(s);
    SoloQuiet(CloseThinking(s));
    var q := CloseText(CloseThinking(s));
    assert SameCounts(s, StartTool(q, d));
    assert forall b: nat :: SameCounts(s, AnthropicProtocol.Backfill(s, b, d));
  }

  lemma {:induction false} ActKeepsCounts(s: State, a: Action)
    ensures SameCounts(s, Act(s, a))
  {
    hide Muse, Talk, Call, SameCounts;
    match a
    case Musing(text) => SpokenCounts(s, text);
    case Talking(text) => SpokenCounts(s, text);
    case Calling(d) => CallCounts(s, d);
  }

  lemma {:induction false} ChunkCarries(s: State, parts: seq<Story.Part>, c: Chat.Line)
    requires Carries(s, parts) && NamesGrow(parts) && c.Chunk?
    ensures var reasoning := if c.reasoningContent != "" then c.reasoningContent else c.reasoning;
            var r := Story.CallingAll(Story.Speaking(Story.Thinking(parts, reasoning), c.content), c.calls, true);
            Carries(ActAll(s, ActionsOf(c)), r) && NamesGrow(r)
  {
    hide Muse, Talk, ActAll, Story.Thinking, Story.Speaking, Story.CallingAll, Carries, NamesGrow;
    var reasoning := if c.reasoningContent != "" then c.reasoningContent else c.reasoning;
    MuseCarries(s, parts, reasoning);
    TalkCarries(Muse(s, reasoning), Story.Thinking(parts, reasoning), c.content);
    SpokenNames(parts, reasoning, c.content);
    CallsCarry(Talk(Muse(s, reasoning), c.content), Story.Speaking(Story.Thinking(parts, reasoning), c.content),
               c.calls);
    ActTwo(s, Musing(reasoning), Talking(c.content), Callings(c.calls));
  }

  lemma {:induction false} SameCarries(s: State, t: State, parts: seq<Story.Part>)
    requires Carries(s, parts) && t == s.(reason := t.reason, usage := t.usage)
    ensures Carries(t, parts)
  {
  }

  lemma {:induction false} ClosedQuiet(s: State)
    ensures SameSaid(s.log, CloseAll(s).log) && SameBooks(s, CloseAll(s))
  {
    hide SameSaid, CloseThinking, CloseText, CloseToolsBelow;
    var t, u := CloseThinking(s), CloseText(CloseThinking(s));
    SoloQuiet(s);
    SoloQuiet(t);
    ToolsQuiet(u, u.next);
    SameTwice(s.log, t.log, u.log);
    SameTwice(s.log, u.log, CloseAll(s).log);
  }

  /** The last two events of a stream change nothing said. */
  lemma {:induction false} EndSays(s: State, e: Event, parts: seq<Story.Part>)
    requires SaysAll(s.log, s.ids, parts) && !e.BlockDelta? && !e.BlockStart?
    ensures var t := Sent(Sent(CloseAll(s), e), MessageStop);
            SaysAll(t.log, t.ids, parts) && EndsIn(t.log, e) && t.next == s.next
  {
    hide SaysAll, SameSaid, CloseAll;
    var c := CloseAll(s).log;
    ClosedQuiet(s);
    QuietSent(c, e);
    QuietSent(c + [e], MessageStop);
    SameTwice(s.log, c, c + [e]);
    SameTwice(s.log, c + [e], c + [e] + [MessageStop]);
    SameSays(s.log, c + [e] + [MessageStop], s.ids, parts);
  }

  lemma {:induction false} LineTold(s: State, lines: seq<Chat.Line>, line: Chat.Line)
    requires Told(s, lines)
    ensures Told(Consume(s, line), lines + [line])
  {
    hide Carries, SaysAll, NamesGrow, ActAll, CloseAll, Errs, Story.Told, Story.LastReason, Story.FirstError, EndsIn;
    LinesSnoc(lines, line);
    var parts := Story.Told(lines, true);
    if !Errs(lines) {
      CarriesBooks(s, parts);
      if line.Chunk? {
        var t := ActAll(s, ActionsOf(line));
        ChunkCarries(s, parts, line);
        ToldSnoc(lines, line);
        ActsKeepCounts(s, ActionsOf(line));
        SameCarries(t, Consume(s, line), Story.Told(lines + [line], true));
      } else if line.UpstreamError? {
        CarriesSays(s, parts);
        EndSays(s, ErrorEvent(if line.message == "" then "upstream error" else line.message), parts);
      }
    }
  }

  lemma {:induction false} CarriesSays(s: State, parts: seq<Story.Part>)
    requires Carries(s, parts)
    ensures SaysAll(s.log, s.ids, parts) && s.next == |parts| && !s.finished
  {
  }

  lemma {:induction false} ConsumeSnoc(s: State, lines: seq<Chat.Line>)
    ensures var n := |lines| - 1;
            ConsumeAll(s, lines) == if n < 0 then s else Consume(ConsumeAll(s, lines[..n]), lines[n])
  {
    hide Consume;
  }

  lemma {:induction false} LinesTold(s: State, before: seq<Chat.Line>, lines: seq<Chat.Line>)
    requires Told(s, before)
    ensures Told(ConsumeAll(s, lines), before + lines)
  {
    hide Told, Consume, ConsumeAll;
    ConsumeSnoc(s, lines);
    if |lines| == 0 {
      assert before + lines == before;
    } else {
      var n := |lines| - 1;
      LinesTold(s, before, lines[..n]);
      LineTold(ConsumeAll(s, lines[..n]), before + lines[..n], lines[n]);
      assert before + lines == before + lines[..n] + [lines[n]];
    }
  }

  lemma {:induction false} OverlayTold(s: State, lines: seq<Chat.Line>, snap: Chat.Usage)
    requires Told(s, lines) && !s.finished
    ensures Told(Overlay(s, snap), lines) && !Errs(lines) && !Overlay(s, snap).finished
  {
    hide Carries, SaysAll, NamesGrow, Errs, Story.Told, Story.LastReason, Story.FirstError, EndsIn;
    SameCarriesOr(s, Overlay(s, snap), lines);
  }

  lemma {:induction false} SameCarriesOr(s: State, t: State, lines: seq<Chat.Line>)
    requires Told(s, lines) && !Errs(lines) && t == s.(usage := t.usage)
    ensures Told(t, lines)
  {
    SameCarries(s, t, Story.Told(lines, true));
  }

  lemma {:induction false} FinishedTold(s: State, lines: seq<Chat.Line>, line: Chat.Line)
    requires Told(s, lines) && s.finished
    ensures Told(s, lines + [line])
  {
    hide SaysAll, NamesGrow, Story.Told, Story.LastReason, Story.FirstError, EndsIn, Errs;
    LinesSnoc(lines, line);
    if !Errs(lines) { CarriesSays(s, Story.Told(lines, true)); }
  }

  lemma {:induction false} OneFedTold(s: State, lines: seq<Chat.Line>, x: Scanned)
    requires Told(s, lines)
    ensures Told(Fed(s, x), lines + [x.line])
  {
    hide Told, Consume, Overlay;
    if s.finished {
      FinishedTold(s, lines, x.line);
    } else {
      OverlayTold(s, lines, x.snap);
      LineTold(Overlay(s, x.snap), lines, x.line);
    }
  }

  lemma {:induction false} FedTold(s: State, before: seq<Chat.Line>, rest: seq<Scanned>)
    requires Told(s, before)
    ensures Told(FedAll(s, rest), before + LinesOf(rest))
  {
    hide Told, Fed;
    if |rest| == 0 {
      assert before + LinesOf(rest) == before;
    } else {
      var n := |rest| - 1;
      FedTold(s, before, rest[..n]);
      OneFedTold(FedAll(s, rest[..n]), before + LinesOf(rest[..n]), rest[n]);
      assert before + LinesOf(rest) == before + LinesOf(rest[..n]) + [rest[n].line];
    }
  }

  lemma {:induction false} BeginTold(inputTokens: int, snap: Chat.Usage)
    ensures Told(Begin(inputTokens, snap), [])
  {
    var s := Begin(inputTokens, snap);
    assert s.log == [s.log[0]] && s.log[..0] == [];
    forall b: nat ensures TextAt(s.log, b) == "" && StartsAt(s.log, b) == [] {
      SentAt([], s.log[0], b);
      assert [] + [s.log[0]] == s.log;
    }
  }

  /** What the client is told about the end: the upstream's first error, or the reason its last
      finish reason stands for. */
  predicate EndsFor(log: seq<Event>, lines: seq<Chat.Line>) {
    && |log| >= 2 && log[|log| - 1] == MessageStop
    && var e, reason := log[|log| - 2], Story.LastReason(lines);
       if Errs(lines) then
         e == ErrorEvent(if Story.FirstError(lines) == "" then "upstream error" else Story.FirstError(lines))
       else
         && e.MessageDelta?
         && e.reason == (if reason == "tool_calls" then "tool_use" else if reason == "length" then "max_tokens"
                         else "end_turn")
  }

  lemma {:induction false} FinishSays(s: State, lines: seq<Chat.Line>)
    requires Told(s, lines) && !s.finished
    ensures var r := Finish(s);
            SaysAll(r.log, r.ids, Story.Told(lines, true)) && EndsFor(r.log, lines)
            && r.next == |Story.Told(lines, true)|
  {
    hide SaysAll, NamesGrow, CloseAll, Story.Told, Story.LastReason, Story.FirstError, Errs;
    CarriesSays(s, Story.Told(lines, true));
    AnthropicLifecycle.CloseAllKeeps(s);
    EndSays(s, MessageDelta(StopReason(if s.reason == "" then "stop" else s.reason), s.usage), Story.Told(lines, true));
  }

  /** For every run, in whatever order its lines come: block by block the log says what all
      the lines before the first error tell, and it ends as they call for. */
  lemma {:induction false} RunSays(inputTokens: int, first: seq<Chat.Line>, snap: Chat.Usage, rest: seq<Scanned>,
                                   last: Option<Scanned>)
    ensures var r, lines := Run(inputTokens, first, snap, rest, last), AllLines(first, rest, last);
            && SaysAll(r.log, r.ids, Story.Told(lines, true)) && r.next == |Story.Told(lines, true)|
            && EndsFor(r.log, lines)
  {
    hide Told, FedAll, ConsumeAll, Begin, Consume, Overlay, Finish, SaysAll, Story.Told, EndsFor;
    var s, lines := Begin(inputTokens, snap), AllLines(first, rest, last);
    BeginTold(inputTokens, snap);
    LinesTold(s, [], first);
    assert [] + first == first;
    FedTold(ConsumeAll(s, first), first, rest);
    var t := FedAll(ConsumeAll(s, first), rest);
    if last.Some? {
      LineTold(t, first + LinesOf(rest), last.value.line);
      t := Consume(t, last.value.line);
    }
    var whole := first + LinesOf(rest);
    assert last == None ==> lines == whole by { assert whole + [] == whole; }
    if t.finished {
      FinishedSays(t, lines);
    } else {
      OverlayTold(t, lines, LastSnap(snap, rest, last));
      FinishSays(Overlay(t, LastSnap(snap, rest, last)), lines);
    }
  }

  lemma {:induction false} FinishedSays(s: State, lines: seq<Chat.Line>)
    requires Told(s, lines) && s.finished
    ensures SaysAll(s.log, s.ids, Story.Told(lines, true)) && EndsFor(s.log, lines)
            && s.next == |Story.Told(lines, true)|
  {
    if !Errs(lines) { CarriesSays(s, Story.Told(lines, true)); }
  }

  // ----- What a client reads -----

  /** The texts of the first n blocks that are of this kind, joined. */
  function BlockTexts(log: seq<Event>, n: nat, block: Block): string {
    if n == 0 then ""
    else
      var starts := StartsAt(log, n - 1);
      BlockTexts(log, n - 1, block)
        + if |starts| > 0 && starts[0].BlockStart? && starts[0].block == block then TextAt(log, n - 1) else ""
  }

  lemma {:induction false} TextsSaid(log: seq<Event>, ids: Ids, parts: seq<Story.Part>, n: nat)
    requires SaysAll(log, ids, parts) && n <= |parts|
    ensures BlockTexts(log, n, Text) == Story.TextOf(parts[..n], Story.IsSpeech)
    ensures BlockTexts(log, n, Thinking) == Story.TextOf(parts[..n], Story.IsThought)
  {
    if n > 0 {
      TextsSaid(log, ids, parts, n - 1);
      assert parts[..n][..n - 1] == parts[..n - 1];
      assert Says(log, ids, n - 1, parts[n - 1]);
    }
  }

  /** For every body and ending, in whatever order lines bring it: the text blocks join to the
      content of all chunks before the first error, the thinking blocks to their reasoning,
      that of chunks after a call left out; and the stream ends with that error, or with
      the reason the last finish reason stands for. */
  lemma {:induction false} ContentKept(d: Decoder, inputTokens: int, body: Bytes, ending: Ending)
    ensures var r, lines := Adapter.Transcript(d, inputTokens, body, ending).state, BodyLines(d, body, ending);
            && BlockTexts(r.log, r.next, Text) == Story.AllContent(lines)
            && BlockTexts(r.log, r.next, Thinking) == Story.AllReasoning(lines)
            && EndsFor(r.log, lines)
  {
    hide Run, AllLines, BodyLines, Adapter.Transcript, SaysAll, Story.Told, EndsFor, Story.AllContent,
      Story.AllReasoning;
    var first, snap, rest, last := Adapter.TranscriptIsRun(d, inputTokens, body, ending);
    var r, lines := Run(inputTokens, first, snap, rest, last), BodyLines(d, body, ending);
    RunSays(inputTokens, first, snap, rest, last);
    TextsSaid(r.log, r.ids, Story.Told(lines, true), r.next);
    assert Story.Told(lines, true)[..r.next] == Story.Told(lines, true);
    Story.ToldKeeps(lines, true, 0);
  }

  /** For every upstream tool index that is named by some delta before the first error: one
      block started with the id and name of its first delta, and again when the name
      came later, and carrying the joined arguments of all its deltas. */
  lemma {:induction false} CallsKept(d: Decoder, inputTokens: int, body: Bytes, ending: Ending, index: int)
    returns (b: nat, id: Chat.CallId)
    requires Story.DeltasOf(BodyLines(d, body, ending), index) != []
    ensures var log := Adapter.Transcript(d, inputTokens, body, ending).state.log;
            var deltas := Story.DeltasOf(BodyLines(d, body, ending), index);
            var name := Story.FirstName(deltas);
            && TextAt(log, b) == Story.Arguments(deltas) && HasId(id, deltas[0].id)
            && StartsAt(log, b) == [BlockStart(b, Tool, id, deltas[0].name)]
                                   + if deltas[0].name == "" && name != "" then [BlockStart(b, Tool, id, name)] else []
  {
    hide Run, AllLines, BodyLines, Adapter.Transcript, Story.Told, EndsFor, Story.DeltasOf, Story.CallsOf, Story.Makes;
    var first, snap, rest, last := Adapter.TranscriptIsRun(d, inputTokens, body, ending);
    var r, lines := Run(inputTokens, first, snap, rest, last), BodyLines(d, body, ending);
    var parts := Story.Told(lines, true);
    RunSays(inputTokens, first, snap, rest, last);
    var groups := Story.CallsAreGroups(lines, true, index);
    OneGroup(groups, Story.DeltasOf(lines, index));
    var k := CallAt(parts, index);
    b := k;
    assert Says(r.log, r.ids, b, parts[b]);
    id := r.ids[b];
    SaysDeltas(r.log, r.ids, b, parts[b], groups[0]);
  }

  lemma {:induction false} SaysDeltas(log: seq<Event>, ids: Ids, b: nat, p: Story.Part, group: seq<Chat.ToolDelta>)
    requires Says(log, ids, b, p) && Story.Makes(group, p)
    ensures b in ids && HasId(ids[b], group[0].id) && TextAt(log, b) == Story.Arguments(group)
    ensures StartsAt(log, b) ==
            [BlockStart(b, Tool, ids[b], group[0].name)]
            + if group[0].name == "" && Story.FirstName(group) != ""
              then [BlockStart(b, Tool, ids[b], Story.FirstName(group))] else []
  {
  }

  lemma {:induction false} OneGroup(groups: seq<seq<Chat.ToolDelta>>, deltas: seq<Chat.ToolDelta>)
    requires |groups| <= 1 && Story.Flat(groups) == deltas && deltas != []
    ensures |groups| == 1 && groups[0] == deltas
  {
    if |groups| == 1 {
      assert groups[..0] == [];
      assert [] + groups[0] == groups[0];
    }
  }

  /** Where the one call of an index stands. */
  lemma {:induction false} CallAt(parts: seq<Story.Part>, index: int) returns (k: nat)
    requires |Story.CallsOf(parts, index)| == 1
    ensures k < |parts| && parts[k].Tool? && parts[k] == Story.CallsOf(parts, index)[0]
  {
    var n := |parts| - 1;
    if parts[n].Tool? && parts[n].index == index {
      k := n;
    } else {
      k := CallAt(parts[..n], index);
    }
  }

  // ----- Counting what the upstream did not count -----

  /** A quarter of the bytes of each delta, rounded up. */
  function Estimate(log: seq<Event>): int {
    if |log| == 0 then 0
    else
      var e := log[|log| - 1];
      Estimate(log[..|log| - 1]) + if e.BlockDelta? then (|e.text| + 3) / 4 else 0
  }

  lemma {:induction false} EstimateSent(log: seq<Event>, e: Event)
    ensures Estimate(log + [e]) == Estimate(log) + if e.BlockDelta? then (|e.text| + 3) / 4 else 0
  {
    assert (log + [e])[..|log|] == log;
  }

  predicate Estimated(s: State) { s.usage.output == Estimate(s.log) }

  lemma {:induction false} SentEstimated(s: State, e: Event)
    requires Estimated(s) && !e.BlockDelta?
    ensures Estimated(Sent(s, e))
  {
    EstimateSent(s.log, e);
  }

  lemma {:induction false} DeltaEstimated(s: State, index: nat, block: Block, text: string)
    requires Estimated(s)
    ensures Estimated(AnthropicProtocol.Delta(s, index, block, text))
  {
    EstimateSent(s.log, BlockDelta(index, block, text));
  }

  lemma {:induction false} SoloEstimated(s: State)
    requires Estimated(s)
    ensures Estimated(CloseThinking(s)) && Estimated(CloseText(s))
  {
    if s.thinking.Some? { SentEstimated(s, BlockStop(s.thinking.value)); }
    if s.text.Some? { SentEstimated(s, BlockStop(s.text.value)); }
  }

  lemma {:induction false} ToolsEstimated(s: State, n: nat)
    requires Estimated(s)
    ensures Estimated(CloseToolsBelow(s, n))
  {
    if n > 0 {
      hide Estimated;
      ToolsEstimated(s, n - 1);
      var t := CloseToolsBelow(s, n - 1);
      SentEstimated(t, BlockStop(n - 1));
      SameEstimate(Sent(t, BlockStop(n - 1)), CloseToolsBelow(s, n));
    }
  }

  lemma {:induction false} SameEstimate(s: State, t: State)
    requires Estimated(s)
    ensures t.log == s.log && t.usage == s.usage ==> Estimated(t)
  {
  }

  lemma {:induction false} ClosedEstimated(s: State)
    requires Estimated(s)
    ensures Estimated(CloseAll(s))
  {
    hide Estimated, CloseThinking, CloseText, CloseToolsBelow;
    SoloEstimated(s);
    SoloEstimated(CloseThinking(s));
    ToolsEstimated(CloseText(CloseThinking(s)), CloseText(CloseThinking(s)).next);
  }

  lemma {:induction false} StartEstimated(s: State, t: State, e: Event)
    requires Estimated(s) && !e.BlockDelta? && t.log == s.log + [e] && t.usage == s.usage
    ensures Estimated(t)
  {
    EstimateSent(s.log, e);
  }

  lemma {:induction false} MuseEstimated(s: State, text: string)
    requires Estimated(s)
    ensures Estimated(Muse(s, text))
  {
    hide Estimated, CloseText, AnthropicProtocol.Delta;
    SoloEstimated(s);
    var q := CloseText(s);
    var t := StartThinking(q);
    StartEstimated(q, t, BlockStart(q.next, Thinking, Chat.Given(""), ""));
    if s.thinking.Some? { DeltaEstimated(s, s.thinking.value, Thinking, text); }
    DeltaEstimated(t, t.thinking.value, Thinking, text);
  }

  lemma {:induction false} TalkEstimated(s: State, text: string)
    requires Estimated(s)
    ensures Estimated(Talk(s, text))
  {
    hide Estimated, CloseThinking, CloseToolsBelow, AnthropicProtocol.Delta;
    ToolsEstimated(s, s.next);
    SoloEstimated(CloseTools(s));
    var q := CloseThinking(CloseTools(s));
    var t := StartText(q);
    StartEstimated(q, t, BlockStart(q.next, Text, Chat.Given(""), ""));
    if s.text.Some? { DeltaEstimated(s, s.text.value, Text, text); }
    DeltaEstimated(t, t.text.value, Text, text);
  }

  lemma {:induction false} ReadyEstimated(s: State, d: Chat.ToolDelta, b: nat)
    requires Estimated(s)
    ensures Estimated(AnthropicProtocol.Backfill(s, b, d)) && Estimated(StartTool(CloseText(CloseThinking(s)), d))
  {
    hide Estimated, CloseThinking, CloseText;
    SoloEstimated(s);
    SoloEstimated(CloseThinking(s));
    var q := CloseText(CloseThinking(s));
    StartEstimated(q, StartTool(q, d), BlockStart(q.next, Tool, IdFor(q, d), d.name));
    var t := LateId(s, b, d);
    SameEstimate(s, t);
    SameEstimate(s, AnthropicProtocol.Backfill(s, b, d));
    if NameIsLate(s, b, d) { StartEstimated(s, AnthropicProtocol.Backfill(s, b, d), Repeat(t, b, d)); }
  }

  lemma {:induction false} CallEstimated(s: State, d: Chat.ToolDelta)
    requires Estimated(s)
    ensures Estimated(Call(s, d))
  {
    hide Estimated, StartTool, AnthropicProtocol.Backfill, AnthropicProtocol.Delta;
    var known := d.index in s.blocks;
    var b := if known then s.blocks[d.index] else s.next;
    ReadyEstimated(s, d, b);
    var t := if known then AnthropicProtocol.Backfill(s, b, d) else StartTool(CloseText(CloseThinking(s)), d);
    DeltaEstimated(t, b, Tool, d.arguments);
  }

  lemma {:induction false} ActsEstimated(s: State, actions: seq<Action>)
    requires Estimated(s)
    ensures Estimated(ActAll(s, actions))
  {
    if |actions| > 0 {
      hide Estimated, Muse, Talk, Call;
      var n := |actions| - 1;
      ActsEstimated(s, actions[..n]);
      match actions[n]
      case Musing(text) => MuseEstimated(ActAll(s, actions[..n]), text);
      case Talking(text) => TalkEstimated(ActAll(s, actions[..n]), text);
      case Calling(d) => CallEstimated(ActAll(s, actions[..n]), d);
    }
  }

  lemma {:induction false} EndEstimated(s: State, e: Event)
    requires Estimated(s) && !e.BlockDelta?
    ensures Estimated(Sent(Sent(CloseAll(s), e), MessageStop))
  {
    hide Estimated, CloseAll;
    ClosedEstimated(s);
    SentEstimated(CloseAll(s), e);
    SentEstimated(Sent(CloseAll(s), e), MessageStop);
  }

  lemma {:induction false} LineEstimated(s: State, line: Chat.Line)
    requires Estimated(s)
    ensures Estimated(Consume(s, line))
  {
    hide Estimated, ActAll, CloseAll;
    if !s.finished && line.Chunk? {
      ActsEstimated(s, ActionsOf(line));
      SameEstimate(ActAll(s, ActionsOf(line)), Consume(s, line));
    } else if !s.finished && line.UpstreamError? {
      var e := ErrorEvent(if line.message == "" then "upstream error" else line.message);
      EndEstimated(s, e);
      SameEstimate(Sent(Sent(CloseAll(s), e), MessageStop), Consume(s, line));
    }
  }

  lemma {:induction false} LinesEstimated(s: State, lines: seq<Chat.Line>)
    requires Estimated(s)
    ensures Estimated(ConsumeAll(s, lines))
  {
    if |lines| > 0 {
      hide Estimated, Consume;
      var n := |lines| - 1;
      LinesEstimated(s, lines[..n]);
      LineEstimated(ConsumeAll(s, lines[..n]), lines[n]);
    }
  }

  lemma {:induction false} FedEstimated(s: State, rest: seq<Scanned>)
    requires Estimated(s) && forall i :: 0 <= i < |rest| ==> rest[i].snap.output <= 0
    ensures Estimated(FedAll(s, rest))
  {
    if |rest| > 0 {
      hide Estimated, Consume, Overlay;
      var n := |rest| - 1;
      FedEstimated(s, rest[..n]);
      var t := FedAll(s, rest[..n]);
      OverlayEstimated(t, rest[n].snap);
      LineEstimated(Overlay(t, rest[n].snap), rest[n].line);
    }
  }

  lemma {:induction false} OverlayEstimated(s: State, snap: Chat.Usage)
    requires Estimated(s) && snap.output <= 0
    ensures Estimated(Overlay(s, snap))
  {
  }

  /** When the upstream never counts output tokens, the count in message_delta is the estimate
      over all deltas sent. */
  lemma {:induction false} EstimateKept(inputTokens: int, first: seq<Chat.Line>, snap: Chat.Usage, rest: seq<Scanned>,
                                        last: Option<Scanned>)
    requires !Errs(AllLines(first, rest, last)) && snap.output <= 0
    requires (forall i :: 0 <= i < |rest| ==> rest[i].snap.output <= 0) && (last.Some? ==> last.value.snap.output <= 0)
    ensures var log := Run(inputTokens, first, snap, rest, last).log;
            |log| >= 2 && log[|log| - 2].MessageDelta? && log[|log| - 2].usage.output == Estimate(log)
  {
    hide Estimated, FedAll, ConsumeAll, Begin, Consume, Overlay, Consumed, AllLines, CloseAll;
    var s := RunStands(inputTokens, first, snap, rest, last);
    BeginEstimated(inputTokens, snap);
    LinesEstimated(Begin(inputTokens, snap), first);
    FedEstimated(ConsumeAll(Begin(inputTokens, snap), first), rest);
    if last.Some? { LineEstimated(FedAll(ConsumeAll(Begin(inputTokens, snap), first), rest), last.value.line); }
    var end := LastSnap(snap, rest, last);
    OverlayEstimated(s, end);
    NotFinished(s, AllLines(first, rest, last));
    OverlayWins(s, end);
    FinishEstimated(Overlay(s, end));
  }

  lemma {:induction false} NotFinished(s: State, lines: seq<Chat.Line>)
    requires Consumed(s, lines) && !Errs(lines)
    ensures !s.finished
  {
  }

  lemma {:induction false} BeginEstimated(inputTokens: int, snap: Chat.Usage)
    requires snap.output <= 0
    ensures Estimated(Begin(inputTokens, snap))
  {
    var s := Overlay(NewState(inputTokens), snap);
    SentEstimated(s, MessageStart(s.usage.input));
  }

  lemma {:induction false} FinishEstimated(s: State)
    requires Estimated(s) && !s.finished
    ensures var log := Finish(s).log;
            |log| >= 2 && log[|log| - 2].MessageDelta? && log[|log| - 2].usage.output == Estimate(log)
  {
    hide CloseAll, StopReason;
    var e := MessageDelta(StopReason(if s.reason == "" then "stop" else s.reason), s.usage);
    EndEstimated(s, e);
    AnthropicLifecycle.CloseAllKeeps(s);
  }

  // ----- Counting input -----

  /** The last positive count among these, or the one to begin with. */
  function LastInput(first: int, snaps: seq<Chat.Usage>): int {
    if |snaps| == 0 then first
    else if snaps[|snaps| - 1].input > 0 then snaps[|snaps| - 1].input
    else LastInput(first, snaps[..|snaps| - 1])
  }

  function SnapsOf(rest: seq<Scanned>): (r: seq<Chat.Usage>)
    ensures |r| == |rest|
  {
    seq(|rest|, i requires 0 <= i < |rest| => rest[i].snap)
  }

  lemma {:induction false} LineKeepsInput(s: State, line: Chat.Line)
    ensures Consume(s, line).usage.input == s.usage.input
  {
    hide ActAll, CloseAll;
    ClosedQuiet(s);
    if line.Chunk? { ActsKeepCounts(s, ActionsOf(line)); }
  }

  lemma {:induction false} LinesKeepInput(s: State, lines: seq<Chat.Line>)
    ensures ConsumeAll(s, lines).usage.input == s.usage.input
  {
    if |lines| > 0 {
      hide Consume;
      LinesKeepInput(s, lines[..|lines| - 1]);
      LineKeepsInput(ConsumeAll(s, lines[..|lines| - 1]), lines[|lines| - 1]);
    }
  }

  lemma {:induction false} OverlayInput(s: State, snap: Chat.Usage)
    ensures Overlay(s, snap).usage.input == if snap.input > 0 then snap.input else s.usage.input
    ensures Overlay(s, snap).finished == s.finished && Overlay(s, snap).log == s.log
  {
  }

  lemma {:induction false} LastInputSnoc(first: int, snaps: seq<Chat.Usage>, snap: Chat.Usage)
    ensures LastInput(first, snaps + [snap]) == if snap.input > 0 then snap.input else LastInput(first, snaps)
  {
    assert (snaps + [snap])[..|snaps|] == snaps;
  }

  lemma {:induction false} FedInput(s: State, rest: seq<Scanned>)
    ensures var t := FedAll(s, rest); !t.finished ==> t.usage.input == LastInput(s.usage.input, SnapsOf(rest))
    ensures s.finished ==> FedAll(s, rest) == s
  {
    if |rest| > 0 {
      hide Consume, Overlay;
      var n := |rest| - 1;
      FedInput(s, rest[..n]);
      var t := FedAll(s, rest[..n]);
      OverlayInput(t, rest[n].snap);
      LineKeepsInput(Overlay(t, rest[n].snap), rest[n].line);
      LastInputSnoc(s.usage.input, SnapsOf(rest[..n]), rest[n].snap);
      assert SnapsOf(rest) == SnapsOf(rest[..n]) + [rest[n].snap];
    }
  }

  /** message_start names the input tokens of the first event, or else those of the request; the
      last message_delta the last count any snapshot gave, or else that one. */
  lemma {:induction false} InputKept(inputTokens: int, first: seq<Chat.Line>, snap: Chat.Usage, rest: seq<Scanned>,
                                     last: Option<Scanned>)
    ensures var log := Run(inputTokens, first, snap, rest, last).log;
            var begun := if snap.input > 0 then snap.input else inputTokens;
            && |log| > 0 && log[0] == MessageStart(begun)
            && (!Errs(AllLines(first, rest, last)) ==>
                  && |log| >= 2 && log[|log| - 2].MessageDelta?
                  && log[|log| - 2].usage.input ==
                     LastInput(begun, SnapsOf(rest) + if last.Some? then [last.value.snap] else []))
  {
    hide FedAll, ConsumeAll, Consume, Overlay, Consumed, AllLines, CloseAll, StopReason, Errs, LastInput, SnapsOf;
    var b := Begin(inputTokens, snap);
    OverlayInput(NewState(inputTokens), snap);
    assert b.log == [MessageStart(b.usage.input)];
    var begun := b.usage.input;
    LinesKeepInput(b, first);
    FedInput(ConsumeAll(b, first), rest);
    var s := RunStands(inputTokens, first, snap, rest, last);
    if last.Some? {
      LineKeepsInput(FedAll(ConsumeAll(b, first), rest), last.value.line);
      FinishedConsumes(FedAll(ConsumeAll(b, first), rest), last.value.line);
    }
    var end := LastSnap(snap, rest, last);
    OverlayInput(s, end);
    assert b.log <= Run(inputTokens, first, snap, rest, last).log;
    if !Errs(AllLines(first, rest, last)) {
      NotFinished(s, AllLines(first, rest, last));
      FinishCounts(Overlay(s, end));
      EndsWithLast(begun, snap, rest, last);
    }
  }

  lemma {:induction false} FinishedConsumes(s: State, line: Chat.Line)
    ensures s.finished ==> Consume(s, line) == s
  {
    hide ActAll, CloseAll;
  }

  lemma {:induction false} FinishCounts(s: State)
    requires !s.finished
    ensures var log := Finish(s).log; |log| >= 2 && log[|log| - 2].MessageDelta? && log[|log| - 2].usage == s.usage
  {
    hide CloseAll, StopReason;
    AnthropicLifecycle.CloseAllKeeps(s);
  }

  /** Overlaying the last snapshot once more changes nothing. */
  lemma {:induction false} EndsWithLast(begun: int, snap: Chat.Usage, rest: seq<Scanned>, last: Option<Scanned>)
    requires begun == snap.input || snap.input <= 0
    ensures var end, before := LastSnap(snap, rest, last), LastInput(begun, SnapsOf(rest));
            (if end.input > 0 then end.input else before) ==
            LastInput(begun, SnapsOf(rest) + if last.Some? then [last.value.snap] else [])
  {
    if last.Some? {
      LastInputSnoc(begun, SnapsOf(rest), last.value.snap);
    } else {
      assert SnapsOf(rest) + [] == SnapsOf(rest);
    }
  }

  // ----- Generated ids -----

  /** No two tools share a generated id. */
  predicate IdsApart(ids: Ids, supply: nat) {
    && (forall a :: a in ids && ids[a].Minted? ==> ids[a].serial < supply)
    && forall a, b :: a in ids && b in ids && a != b && ids[a].Minted? && ids[b].Minted? ==>
         ids[a].serial != ids[b].serial
  }

  lemma {:induction false} SpokenIds(s: State, text: string)
    ensures Muse(s, text).ids == s.ids && Muse(s, text).supply == s.supply
    ensures Talk(s, text).ids == s.ids && Talk(s, text).supply == s.supply
  {
    hide CloseThinking, CloseText, CloseToolsBelow, SameSaid;
    SoloQuiet(s);
    SoloQuiet(CloseTools(s));
  }

  lemma {:induction false} StartApart(s: State, d: Chat.ToolDelta)
    requires IdsApart(s.ids, s.supply)
    ensures var t := StartTool(CloseText(CloseThinking(s)), d); IdsApart(t.ids, t.supply)
  {
    hide CloseThinking, CloseText, SameSaid;
    SoloQuiet(s);
    SoloQuiet(CloseThinking(s));
  }

  lemma {:induction false} BackfillApart(s: State, b: nat, d: Chat.ToolDelta)
    requires IdsApart(s.ids, s.supply)
    ensures var t := AnthropicProtocol.Backfill(s, b, d); IdsApart(t.ids, t.supply)
  {
  }

  lemma {:induction false} ActApart(s: State, a: Action)
    requires IdsApart(s.ids, s.supply)
    ensures IdsApart(Act(s, a).ids, Act(s, a).supply)
  {
    hide Muse, Talk, StartTool, AnthropicProtocol.Backfill, IdsApart;
    match a
    case Musing(text) => SpokenIds(s, text);
    case Talking(text) => SpokenIds(s, text);
    case Calling(d) =>
      StartApart(s, d);
      if d.index in s.blocks { BackfillApart(s, s.blocks[d.index], d); }
  }

  lemma {:induction false} ActsApart(s: State, actions: seq<Action>)
    requires IdsApart(s.ids, s.supply)
    ensures IdsApart(ActAll(s, actions).ids, ActAll(s, actions).supply)
  {
    if |actions| > 0 {
      hide Act, IdsApart;
      var n := |actions| - 1;
      ActsApart(s, actions[..n]);
      ActApart(ActAll(s, actions[..n]), actions[n]);
    }
  }

  lemma {:induction false} LineApart(s: State, line: Chat.Line)
    requires IdsApart(s.ids, s.supply)
    ensures IdsApart(Consume(s, line).ids, Consume(s, line).supply)
  {
    hide ActAll, CloseAll, IdsApart;
    ClosedQuiet(s);
    if line.Chunk? { ActsApart(s, ActionsOf(line)); }
  }

  lemma {:induction false} LinesApart(s: State, lines: seq<Chat.Line>)
    requires IdsApart(s.ids, s.supply)
    ensures IdsApart(ConsumeAll(s, lines).ids, ConsumeAll(s, lines).supply)
  {
    if |lines| > 0 {
      hide Consume, IdsApart;
      LinesApart(s, lines[..|lines| - 1]);
      LineApart(ConsumeAll(s, lines[..|lines| - 1]), lines[|lines| - 1]);
    }
  }

  lemma {:induction false} FedApart(s: State, rest: seq<Scanned>)
    requires IdsApart(s.ids, s.supply)
    ensures IdsApart(FedAll(s, rest).ids, FedAll(s, rest).supply)
  {
    if |rest| > 0 {
      hide Consume, IdsApart;
      var n := |rest| - 1;
      FedApart(s, rest[..n]);
      LineApart(Overlay(FedAll(s, rest[..n]), rest[n].snap), rest[n].line);
    }
  }

  /** The ids generated in a run, which its blocks carry (`RunSays`), are all different. */
  lemma {:induction false} RunIds(inputTokens: int, first: seq<Chat.Line>, snap: Chat.Usage, rest: seq<Scanned>,
                                  last: Option<Scanned>)
    ensures var r := Run(inputTokens, first, snap, rest, last); IdsApart(r.ids, r.supply)
  {
    hide FedAll, ConsumeAll, Consume, CloseAll, IdsApart, StopReason;
    var s := Begin(inputTokens, snap);
    assert IdsApart(s.ids, s.supply) by { NoIds(); }
    LinesApart(s, first);
    FedApart(ConsumeAll(s, first), rest);
    var t := FedAll(ConsumeAll(s, first), rest);
    if last.Some? {
      LineApart(t, last.value.line);
      t := Consume(t, last.value.line);
    }
    ClosedQuiet(Overlay(t, LastSnap(snap, rest, last)));
  }

  lemma {:induction false} NoIds()
    ensures IdsApart(map[], 0)
  {
  }
}
