/** Every stream the Anthropic adapter completes is one its client takes. */
module AnthropicLifecycle {
  import opened Wrappers
  import Upstream = ResponsesProtocol
  import opened AnthropicProtocol
  import opened UpstreamLines

  function One(x: Option<nat>): set<nat> { if x.Some? then {x.value} else {} }

  /** The open blocks of a state. */
  function OpenOf(s: State): set<nat> { One(s.thinking) + One(s.text) + s.open }

  /** Thinking, text and tools are never open together. */
  predicate Exclusive(s: State) {
    && (s.thinking.Some? ==> s.text == None && s.open == {})
    && (s.text.Some? ==> s.open == {})
  }

  /** The adapter's bookkeeping agrees with what its client knows. */
  ghost predicate Agrees(s: State, c: Client) {
    && c.phase == Streaming && |c.kinds| == s.next && c.open == OpenOf(s) && Exclusive(s)
    && (s.thinking.Some? ==> s.thinking.value < s.next && c.kinds[s.thinking.value] == Thinking)
    && (s.text.Some? ==> s.text.value < s.next && c.kinds[s.text.value] == Text)
    && (forall b :: b in s.open ==> b < s.next && c.kinds[b] == Tool)
    && (forall x :: x in s.blocks ==> s.blocks[x] < s.next && c.kinds[s.blocks[x]] == Tool)
  }

  /** The client has taken the whole log so far and agrees. */
  ghost predicate Taken(s: State, strict: bool) {
    ReceiveAll(s.log, strict).Some? && Agrees(s, ReceiveAll(s.log, strict).value) && !s.finished
  }

  lemma {:induction false} ReceiveSnoc(log: seq<Event>, e: Event, strict: bool)
    ensures ReceiveAll(log + [e], strict) ==
            match ReceiveAll(log, strict)
            case None => None
            case Some(c) => Receive(c, e, strict)
  {
    assert (log + [e])[..|log|] == log;
  }

  lemma {:induction false} CloseThinkingTaken(s: State, strict: bool)
    requires Taken(s, strict)
    ensures Taken(CloseThinking(s), strict) && CloseThinking(s).thinking == None
    ensures CloseThinking(s) == s.(log := CloseThinking(s).log, thinking := None)
  {
    if s.thinking.Some? { ReceiveSnoc(s.log, BlockStop(s.thinking.value), strict); }
  }

  lemma {:induction false} CloseTextTaken(s: State, strict: bool)
    requires Taken(s, strict)
    ensures Taken(CloseText(s), strict) && CloseText(s).text == None
    ensures CloseText(s) == s.(log := CloseText(s).log, text := None)
  {
    if s.text.Some? { ReceiveSnoc(s.log, BlockStop(s.text.value), strict); }
  }

  lemma {:induction false} StopToolTaken(s: State, b: nat, strict: bool)
    requires Taken(s, strict) && b in s.open
    ensures Taken(Sent(s, BlockStop(b)).(open := s.open - {b}), strict)
  {
    ReceiveSnoc(s.log, BlockStop(b), strict);
  }

  lemma {:induction false} CloseToolsOpen(s: State, n: nat)
    ensures CloseToolsBelow(s, n).open == set b | b in s.open && b >= n
  {
    if n > 0 { CloseToolsOpen(s, n - 1); }
  }

  lemma {:induction false} CloseToolsBelowTaken(s: State, n: nat, strict: bool)
    requires Taken(s, strict)
    ensures Taken(CloseToolsBelow(s, n), strict)
  {
    if n > 0 {
      hide Taken;
      CloseToolsBelowTaken(s, n - 1, strict);
      CloseToolsOpen(s, n - 1);
      if n - 1 in s.open { StopToolTaken(CloseToolsBelow(s, n - 1), n - 1, strict); }
    }
  }

  lemma {:induction false} CloseToolsTaken(s: State, strict: bool)
    requires Taken(s, strict)
    ensures Taken(CloseTools(s), strict) && CloseTools(s).open == {}
    ensures CloseTools(s) == s.(log := CloseTools(s).log, open := {})
  {
    CloseToolsBelowTaken(s, s.next, strict);
    CloseToolsOpen(s, s.next);
  }

  lemma {:induction false} DeltaTaken(s: State, index: nat, block: Block, text: string, strict: bool)
    requires Taken(s, strict) && index < s.next && ReceiveAll(s.log, strict).value.kinds[index] == block
    requires index in OpenOf(s) || (!strict && block == Tool)
    ensures Taken(Delta(s, index, block, text), strict)
  {
    ReceiveSnoc(s.log, BlockDelta(index, block, text), strict);
  }

  lemma {:induction false} StartThinkingTaken(s: State, strict: bool)
    requires Taken(s, strict) && OpenOf(s) == {}
    ensures Taken(StartThinking(s), strict) && ReceiveAll(StartThinking(s).log, strict).value.kinds[s.next] == Thinking
  {
    ReceiveSnoc(s.log, BlockStart(s.next, Thinking, Upstream.Given(""), ""), strict);
  }

  lemma {:induction false} StartTextTaken(s: State, strict: bool)
    requires Taken(s, strict) && OpenOf(s) == {}
    ensures Taken(StartText(s), strict) && ReceiveAll(StartText(s).log, strict).value.kinds[s.next] == Text
  {
    ReceiveSnoc(s.log, BlockStart(s.next, Text, Upstream.Given(""), ""), strict);
  }

  /** Tools open while thinking is open cannot be: before any tool there is none. */
  ghost predicate Known(s: State) {
    forall b :: b in s.open ==> exists x :: x in s.blocks && s.blocks[x] == b
  }

  lemma {:induction false} MuseTaken(s: State, text: string, strict: bool)
    requires Taken(s, strict) && Known(s)
    ensures Taken(Muse(s, text), strict)
  {
    if text != "" && (s.thinking.Some? || s.blocks == map[]) {
      if s.thinking.Some? {
        DeltaTaken(s, s.thinking.value, Thinking, text, strict);
      } else {
        CloseTextTaken(s, strict);
        var t := CloseText(s);
        NoToolsYet(s);
        StartThinkingTaken(t, strict);
        DeltaTaken(StartThinking(t), t.next, Thinking, text, strict);
      }
    }
  }

  lemma {:induction false} NoToolsYet(s: State)
    requires Known(s) && s.blocks == map[]
    ensures s.open == {}
  {
    if s.open != {} { var b := Pick(s.open); }
  }

  lemma {:induction false} TalkTaken(s: State, text: string, strict: bool)
    requires Taken(s, strict)
    ensures Taken(Talk(s, text), strict)
  {
    if text != "" {
      if s.text.Some? {
        DeltaTaken(s, s.text.value, Text, text, strict);
      } else {
        CloseToolsTaken(s, strict);
        CloseThinkingTaken(CloseTools(s), strict);
        var t := CloseThinking(CloseTools(s));
        StartTextTaken(t, strict);
        DeltaTaken(StartText(t), t.next, Text, text, strict);
      }
    }
  }

  lemma {:induction false} StartToolTaken(s: State, d: Upstream.ToolDelta, strict: bool)
    requires Taken(s, strict) && s.thinking == None && s.text == None
    ensures Taken(StartTool(s, d), strict) && ReceiveAll(StartTool(s, d).log, strict).value.kinds[s.next] == Tool
  {
    ReceiveSnoc(s.log, BlockStart(s.next, Tool, IdFor(s, d), d.name), strict);
  }

  /** The delta says something to the client: arguments, or the first name. */
  predicate Speaks(s: State, d: Upstream.ToolDelta) {
    d.arguments != "" || (d.index in s.blocks && NameIsLate(s, s.blocks[d.index], d))
  }

  /** Announcing a tool block again. */
  lemma {:induction false} RepeatTaken(s: State, b: nat, id: Upstream.CallId, name: string, strict: bool)
    requires Taken(s, strict) && b < s.next && ReceiveAll(s.log, strict).value.kinds[b] == Tool
             && (strict ==> b in s.open)
    ensures ReceiveAll(s.log + [BlockStart(b, Tool, id, name)], strict) == ReceiveAll(s.log, strict)
  {
    ReceiveSnoc(s.log, BlockStart(b, Tool, id, name), strict);
  }

  lemma {:induction false} SameClient(s: State, t: State, strict: bool)
    requires Taken(s, strict) && t == s.(log := t.log, ids := t.ids, names := t.names)
    requires ReceiveAll(t.log, strict) == ReceiveAll(s.log, strict)
    ensures Taken(t, strict)
  {
  }

  lemma {:induction false} BackfillTaken(s: State, d: Upstream.ToolDelta, strict: bool)
    requires Taken(s, strict) && d.index in s.blocks
    requires strict && NameIsLate(s, s.blocks[d.index], d) ==> s.blocks[d.index] in s.open
    ensures var t := Backfill(s, s.blocks[d.index], d);
            && Taken(t, strict) && t == s.(log := t.log, ids := t.ids, names := t.names)
            && ReceiveAll(t.log, strict) == ReceiveAll(s.log, strict)
  {
    var b := s.blocks[d.index];
    if NameIsLate(s, b, d) {
      var e := Repeat(LateId(s, b, d), b, d);
      RepeatTaken(s, b, e.id, e.name, strict);
    }
    SameClient(s, Backfill(s, b, d), strict);
  }

  lemma {:induction false} CallTaken(s: State, d: Upstream.ToolDelta, strict: bool)
    requires Taken(s, strict)
    requires strict && d.index in s.blocks && Speaks(s, d) ==> s.blocks[d.index] in s.open
    ensures Taken(Call(s, d), strict)
  {
    if d.index in s.blocks {
      BackfillTaken(s, d, strict);
      if d.arguments != "" {
        DeltaTaken(Backfill(s, s.blocks[d.index], d), s.blocks[d.index], Tool, d.arguments, strict);
      }
    } else {
      CloseThinkingTaken(s, strict);
      CloseTextTaken(CloseThinking(s), strict);
      var t := CloseText(CloseThinking(s));
      StartToolTaken(t, d, strict);
      if d.arguments != "" { DeltaTaken(StartTool(t, d), t.next, Tool, d.arguments, strict); }
    }
  }

  // ----- The strict client -----

  lemma {:induction false} RefusedStays(a: seq<Event>, b: seq<Event>, strict: bool)
    requires a <= b && ReceiveAll(a, strict) == None
    ensures ReceiveAll(b, strict) == None
  {
    if |a| < |b| { RefusedStays(a, b[..|b| - 1], strict); } else { assert a == b; }
  }

  lemma {:induction false} StoppedRefused(s: State, b: nat, e: Event)
    requires Taken(s, true) && b < s.next && b !in OpenOf(s)
    requires (e.BlockStart? && e.index == b) || (e.BlockDelta? && e.index == b)
    ensures ReceiveAll(s.log + [e], true) == None
  {
    ReceiveSnoc(s.log, e, true);
  }

  lemma {:induction false} ToolNotOther(s: State, b: nat)
    requires Taken(s, true) && b !in s.open && b < s.next && ReceiveAll(s.log, true).value.kinds[b] == Tool
    ensures b !in OpenOf(s)
  {
  }

  /** A strict client objects to what is said on a stopped block. */
  lemma {:induction false} CallRefused(s: State, d: Upstream.ToolDelta)
    requires Taken(s, true) && d.index in s.blocks && s.blocks[d.index] !in s.open && Speaks(s, d)
    ensures ReceiveAll(Call(s, d).log, true) == None
  {
    var b := s.blocks[d.index];
    ToolNotOther(s, b);
    if NameIsLate(s, b, d) {
      StoppedRefused(s, b, Repeat(LateId(s, b, d), b, d));
      RefusedStays(Backfill(s, b, d).log, Call(s, d).log, true);
    } else {
      StoppedRefused(s, b, BlockDelta(b, Tool, d.arguments));
    }
  }

  // ----- When a tool index is resumed after text -----

  predicate CallsAt(actions: seq<Action>, i: nat, x: int)
    requires i < |actions|
  {
    actions[i].Calling? && actions[i].d.index == x
  }

  /** Tool index x was heard of. */
  predicate Seen(actions: seq<Action>, x: int) {
    exists i :: 0 <= i < |actions| && CallsAt(actions, i, x)
  }

  predicate TalksAt(actions: seq<Action>, i: nat)
    requires i < |actions|
  {
    actions[i].Talking? && actions[i].text != ""
  }

  /** Text came after tool index x was heard of. */
  predicate Cut(actions: seq<Action>, x: int) {
    exists j :: 0 <= j < |actions| && TalksAt(actions, j) && Seen(actions[..j], x)
  }

  predicate Named(actions: seq<Action>, x: int) {
    exists i :: 0 <= i < |actions| && CallsAt(actions, i, x) && actions[i].d.name != ""
  }

  /** At c a tool index is resumed after text, with arguments or its first name. */
  predicate ResumedAt(actions: seq<Action>, c: nat)
    requires c < |actions|
  {
    actions[c].Calling? && Cut(actions[..c], actions[c].d.index)
    && (actions[c].d.arguments != "" || (actions[c].d.name != "" && !Named(actions[..c], actions[c].d.index)))
  }

  predicate NeverResumed(actions: seq<Action>) {
    forall c :: 0 <= c < |actions| ==> !ResumedAt(actions, c)
  }

  lemma {:induction false} SeenSnoc(actions: seq<Action>, a: Action, x: int)
    ensures Seen(actions + [a], x) <==> Seen(actions, x) || (a.Calling? && a.d.index == x)
    ensures Named(actions + [a], x) <==> Named(actions, x) || (a.Calling? && a.d.index == x && a.d.name != "")
  {
    var all := actions + [a];
    assert forall i :: 0 <= i < |actions| ==> (CallsAt(all, i, x) <==> CallsAt(actions, i, x));
    assert CallsAt(all, |actions|, x) <==> a.Calling? && a.d.index == x;
  }

  lemma {:induction false} CutSnoc(actions: seq<Action>, a: Action, x: int)
    ensures Cut(actions + [a], x) <==> Cut(actions, x) || (a.Talking? && a.text != "" && Seen(actions, x))
  {
    var all := actions + [a];
    assert all[..|actions|] == actions;
    assert forall j :: 0 <= j < |actions| ==> all[..j] == actions[..j] && (TalksAt(all, j) <==> TalksAt(actions, j));
    assert TalksAt(all, |actions|) <==> a.Talking? && a.text != "";
  }

  lemma {:induction false} NeverResumedSnoc(actions: seq<Action>, a: Action)
    ensures NeverResumed(actions + [a]) <==> NeverResumed(actions) && !ResumedAt(actions + [a], |actions|)
  {
    var all := actions + [a];
    assert forall c :: 0 <= c < |actions| ==> all[..c] == actions[..c] && all[c] == actions[c];
    assert forall c :: 0 <= c < |actions| ==> (ResumedAt(all, c) <==> ResumedAt(actions, c));
  }

  /** The adapter's tool maps tell exactly what was heard. */
  ghost predicate Heard(s: State, actions: seq<Action>) {
    && (forall x :: x in s.blocks <==> Seen(actions, x))
    && (forall x :: x in s.blocks ==> (s.blocks[x] in s.open <==> !Cut(actions, x)))
    && (forall x :: x in s.blocks ==> (NameOf(s, s.blocks[x]) == "" <==> !Named(actions, x)))
    && (forall x, y :: x in s.blocks && y in s.blocks && s.blocks[x] == s.blocks[y] ==> x == y)
    && (forall x :: x in s.blocks ==> s.blocks[x] < s.next)
    && (forall b :: b in s.open ==> exists x :: x in s.blocks && s.blocks[x] == b)
  }

  lemma {:induction false} Snocs(actions: seq<Action>, a: Action)
    ensures forall x :: Seen(actions + [a], x) <==> Seen(actions, x) || (a.Calling? && a.d.index == x)
    ensures forall x :: Named(actions + [a], x)
              <==> Named(actions, x) || (a.Calling? && a.d.index == x && a.d.name != "")
    ensures forall x :: Cut(actions + [a], x) <==> Cut(actions, x) || (a.Talking? && a.text != "" && Seen(actions, x))
  {
    forall x
      ensures Seen(actions + [a], x) <==> Seen(actions, x) || (a.Calling? && a.d.index == x)
      ensures Named(actions + [a], x) <==> Named(actions, x) || (a.Calling? && a.d.index == x && a.d.name != "")
      ensures Cut(actions + [a], x) <==> Cut(actions, x) || (a.Talking? && a.text != "" && Seen(actions, x))
    {
      SeenSnoc(actions, a, x);
      CutSnoc(actions, a, x);
    }
  }

  /** What hearing depends on. */
  lemma {:induction false} HeardSame(s: State, t: State, actions: seq<Action>, more: seq<Action>)
    requires Heard(s, actions) && t.blocks == s.blocks && t.open == s.open && t.names == s.names && s.next <= t.next
    requires forall x :: (Seen(more, x) <==> Seen(actions, x)) && (Named(more, x) <==> Named(actions, x))
               && (Cut(more, x) <==> Cut(actions, x))
    ensures Heard(t, more)
  {
  }

  lemma {:induction false} DeltaMaps(s: State, index: nat, block: Block, text: string)
    ensures Delta(s, index, block, text)
            == s.(log := Delta(s, index, block, text).log, usage := Delta(s, index, block, text).usage)
  {
  }

  lemma {:induction false} CloseSoloMaps(s: State)
    ensures CloseText(s) == s.(log := CloseText(s).log, text := None)
    ensures CloseThinking(s) == s.(log := CloseThinking(s).log, thinking := None)
  {
  }

  lemma {:induction false} MuseMaps(s: State, text: string)
    ensures var t := Muse(s, text); t.blocks == s.blocks && t.open == s.open && t.names == s.names && s.next <= t.next
  {
    hide Delta, CloseText;
    CloseSoloMaps(s);
    var t := StartThinking(CloseText(s));
    DeltaMaps(t, t.thinking.value, Thinking, text);
    if s.thinking.Some? { DeltaMaps(s, s.thinking.value, Thinking, text); }
  }

  lemma {:induction false} MuseHeard(s: State, text: string, actions: seq<Action>)
    requires Heard(s, actions)
    ensures Heard(Muse(s, text), actions + [Musing(text)])
  {
    hide Heard, Seen, Named, Cut, Muse;
    Snocs(actions, Musing(text));
    MuseMaps(s, text);
    HeardSame(s, Muse(s, text), actions, actions + [Musing(text)]);
  }

  lemma {:induction false} TalkOpen(s: State, text: string)
    requires Exclusive(s) && text != "" && forall b :: b in s.open ==> b < s.next
    ensures var t := Talk(s, text); t.open == {} && t.blocks == s.blocks && t.names == s.names && s.next <= t.next
  {
    if s.text.None? { CloseToolsOpen(s, s.next); }
  }

  lemma {:induction false} TalkHeard(s: State, text: string, actions: seq<Action>)
    requires Heard(s, actions) && Exclusive(s) && forall b :: b in s.open ==> b < s.next
    ensures Heard(Talk(s, text), actions + [Talking(text)])
  {
    Snocs(actions, Talking(text));
    if text == "" {
      HeardSame(s, s, actions, actions + [Talking(text)]);
    } else {
      TalkOpen(s, text);
    }
  }

  lemma {:induction false} CutIsSeen(actions: seq<Action>, x: int)
    ensures Cut(actions, x) ==> Seen(actions, x)
  {
    if Cut(actions, x) {
      var j :| 0 <= j < |actions| && TalksAt(actions, j) && Seen(actions[..j], x);
      var i :| 0 <= i < j && CallsAt(actions[..j], i, x);
      assert CallsAt(actions, i, x);
    }
  }

  lemma {:induction false} KnownCallMaps(s: State, d: Upstream.ToolDelta)
    requires d.index in s.blocks
    ensures var t := Call(s, d);
            && t.blocks == s.blocks && t.open == s.open && t.next == s.next
            && t.names == if NameIsLate(s, s.blocks[d.index], d) then s.names[s.blocks[d.index] := d.name] else s.names
  {
    hide Delta;
    var b := s.blocks[d.index];
    DeltaMaps(Backfill(s, b, d), b, Tool, d.arguments);
  }

  lemma {:induction false} KnownCallHeard(s: State, d: Upstream.ToolDelta, actions: seq<Action>)
    requires Heard(s, actions) && d.index in s.blocks
    ensures Heard(Call(s, d), actions + [Calling(d)])
  {
    hide Seen, Named, Cut, Call;
    Snocs(actions, Calling(d));
    var t := Call(s, d);
    KnownCallMaps(s, d);
    forall x | x in s.blocks
      ensures NameOf(t, s.blocks[x]) == "" <==> !Named(actions + [Calling(d)], x)
    {
      assert NameOf(s, s.blocks[x]) == "" <==> !Named(actions, x);
    }
  }

  lemma {:induction false} NewCallHeard(s: State, d: Upstream.ToolDelta, actions: seq<Action>)
    requires Heard(s, actions) && d.index !in s.blocks && forall b :: b in s.open ==> b < s.next
    ensures Heard(Call(s, d), actions + [Calling(d)])
  {
    hide Seen, Named, Cut, Call;
    Snocs(actions, Calling(d));
    CutIsSeen(actions, d.index);
    NamedIsSeen(actions, d.index);
    var t := Call(s, d);
    NewCallMaps(s, d);
    forall x | x in t.blocks
      ensures t.blocks[x] in t.open <==> !Cut(actions + [Calling(d)], x)
      ensures NameOf(t, t.blocks[x]) == "" <==> !Named(actions + [Calling(d)], x)
    {
      if x != d.index { assert t.blocks[x] == s.blocks[x] < s.next; }
    }
    forall b | b in t.open ensures exists x :: x in t.blocks && t.blocks[x] == b {
      if b == s.next {
        assert t.blocks[d.index] == b;
      } else {
        var x :| x in s.blocks && s.blocks[x] == b;
        assert t.blocks[x] == b;
      }
    }
  }

  lemma {:induction false} NamedIsSeen(actions: seq<Action>, x: int)
    ensures Named(actions, x) ==> Seen(actions, x)
  {
  }

  lemma {:induction false} NewCallMaps(s: State, d: Upstream.ToolDelta)
    requires d.index !in s.blocks
    ensures var t := Call(s, d);
            && t.blocks == s.blocks[d.index := s.next] && t.open == s.open + {s.next}
            && t.names == s.names[s.next := d.name] && t.next == s.next + 1
  {
    hide Delta, CloseText, CloseThinking;
    CloseSoloMaps(s);
    CloseSoloMaps(CloseThinking(s));
    DeltaMaps(StartTool(CloseText(CloseThinking(s)), d), s.next, Tool, d.arguments);
  }

  // ----- Whole runs -----

  /** The client has taken everything and the adapter has heard these actions; the
      strict client is still content exactly if no tool index was resumed after text. */
  ghost predicate Follows(s: State, actions: seq<Action>) {
    && Taken(s, false) && Heard(s, actions)
    && (NeverResumed(actions) ==> Taken(s, true))
    && (!NeverResumed(actions) ==> ReceiveAll(s.log, true) == None)
  }

  lemma {:induction false} CallStrict(s: State, d: Upstream.ToolDelta, actions: seq<Action>)
    requires Follows(s, actions)
    ensures var all := actions + [Calling(d)];
            && (NeverResumed(all) ==> Taken(Call(s, d), true))
            && (!NeverResumed(all) ==> ReceiveAll(Call(s, d).log, true) == None)
  {
    var all := actions + [Calling(d)];
    NeverResumedSnoc(actions, Calling(d));
    assert all[..|actions|] == actions && all[|actions|] == Calling(d);
    CutIsSeen(actions, d.index);
    if !NeverResumed(actions) {
      RefusedStays(s.log, Call(s, d).log, true);
    } else if ResumedAt(all, |actions|) {
      assert d.index in s.blocks && s.blocks[d.index] !in s.open;
      CallRefused(s, d);
    } else {
      CallTaken(s, d, true);
    }
  }

  lemma {:induction false} QuietStrict(s: State, t: State, actions: seq<Action>, a: Action)
    requires Follows(s, actions) && !a.Calling? && s.log <= t.log
    requires Taken(s, true) ==> Taken(t, true)
    ensures var all := actions + [a];
            && (NeverResumed(all) ==> Taken(t, true))
            && (!NeverResumed(all) ==> ReceiveAll(t.log, true) == None)
  {
    NeverResumedSnoc(actions, a);
    if !NeverResumed(actions) { RefusedStays(s.log, t.log, true); }
  }

  lemma {:induction false} ActFollows(s: State, actions: seq<Action>, a: Action)
    requires Follows(s, actions)
    ensures Follows(Act(s, a), actions + [a])
  {
    match a
    case Musing(text) =>
      MuseTaken(s, text, false);
      if Taken(s, true) { MuseTaken(s, text, true); }
      MuseHeard(s, text, actions);
      QuietStrict(s, Muse(s, text), actions, a);
    case Talking(text) =>
      TalkTaken(s, text, false);
      if Taken(s, true) { TalkTaken(s, text, true); }
      TalkHeard(s, text, actions);
      QuietStrict(s, Talk(s, text), actions, a);
    case Calling(d) =>
      CallTaken(s, d, false);
      CallStrict(s, d, actions);
      if d.index in s.blocks { KnownCallHeard(s, d, actions); } else { NewCallHeard(s, d, actions); }
  }

  lemma {:induction false} ActAllFollows(s: State, before: seq<Action>, actions: seq<Action>)
    requires Follows(s, before)
    ensures Follows(ActAll(s, actions), before + actions)
  {
    hide Follows, Act;
    if |actions| == 0 {
      assert before + actions == before;
    } else {
      var n := |actions| - 1;
      ActAllFollows(s, before, actions[..n]);
      ActFollows(ActAll(s, actions[..n]), before + actions[..n], actions[n]);
      assert before + actions[..n] + [actions[n]] == before + actions;
    }
  }

  /** A completed stream, as a client sees it: everything stopped, message_stop last. */
  ghost predicate Complete(s: State, strict: bool) {
    && ReceiveAll(s.log, strict).Some?
    && var c := ReceiveAll(s.log, strict).value;
       c.phase == Ended && c.open == {} && |c.kinds| == s.next
  }

  ghost predicate Settled(s: State, actions: seq<Action>) {
    && s.finished && Complete(s, false)
    && (NeverResumed(actions) ==> Complete(s, true))
    && (!NeverResumed(actions) ==> ReceiveAll(s.log, true) == None)
  }

  lemma {:induction false} CloseAllTaken(s: State, strict: bool)
    requires Taken(s, strict)
    ensures Taken(CloseAll(s), strict) && OpenOf(CloseAll(s)) == {} && CloseAll(s).next == s.next
  {
    CloseThinkingTaken(s, strict);
    CloseTextTaken(CloseThinking(s), strict);
    CloseToolsTaken(CloseText(CloseThinking(s)), strict);
  }

  lemma {:induction false} EndTaken(s: State, e: Event, strict: bool)
    requires Taken(s, strict) && OpenOf(s) == {} && (e.ErrorEvent? || e.MessageDelta?)
    ensures Complete(Sent(Sent(s, e), MessageStop).(finished := true), strict)
  {
    ReceiveSnoc(s.log, e, strict);
    ReceiveSnoc(s.log + [e], MessageStop, strict);
  }

  lemma {:induction false} EndSettles(s: State, actions: seq<Action>, e: Event)
    requires Follows(s, actions) && (e.ErrorEvent? || e.MessageDelta?)
    ensures Settled(Sent(Sent(CloseAll(s), e), MessageStop).(finished := true), actions)
  {
    var t := Sent(Sent(CloseAll(s), e), MessageStop).(finished := true);
    CloseAllTaken(s, false);
    EndTaken(CloseAll(s), e, false);
    if NeverResumed(actions) {
      CloseAllTaken(s, true);
      EndTaken(CloseAll(s), e, true);
    } else {
      RefusedStays(s.log, t.log, true);
    }
  }

  /** The stream is over, or it goes on. */
  ghost predicate Standing(s: State, actions: seq<Action>) {
    if s.finished then Settled(s, actions) else Follows(s, actions)
  }

  /** What a line adds to the actions. */
  function Added(s: State, line: Upstream.Line): seq<Action> {
    if s.finished || !line.Chunk? then [] else ActionsOf(line)
  }

  lemma {:induction false} SameFollows(s: State, t: State, actions: seq<Action>)
    requires Follows(s, actions) && t == s.(usage := t.usage, reason := t.reason)
    ensures Follows(t, actions)
  {
    hide Heard, NeverResumed, ReceiveAll;
    SameHeard(s, t, actions);
    if Taken(s, true) { SameTaken(s, t, true); }
    SameTaken(s, t, false);
  }

  lemma {:induction false} SameTaken(s: State, t: State, strict: bool)
    requires Taken(s, strict) && t == s.(usage := t.usage, reason := t.reason)
    ensures Taken(t, strict)
  {
  }

  lemma {:induction false} SameHeard(s: State, t: State, actions: seq<Action>)
    requires Heard(s, actions) && t == s.(usage := t.usage, reason := t.reason)
    ensures Heard(t, actions)
  {
    HeardSame(s, t, actions, actions);
  }

  lemma {:induction false} ConsumeStands(s: State, line: Upstream.Line, actions: seq<Action>)
    requires Standing(s, actions)
    ensures Standing(Consume(s, line), actions + Added(s, line))
  {
    hide Follows, Settled, ActAll, Act, CloseAll, Heard, Taken;
    if s.finished || line.Silent? {
      assert actions + [] == actions;
    } else if line.UpstreamError? {
      assert actions + [] == actions;
      EndSettles(s, actions, ErrorEvent(if line.message == "" then "upstream error" else line.message));
    } else {
      ActAllFollows(s, actions, ActionsOf(line));
      var t := ActAll(s, ActionsOf(line));
      FollowsLive(t, actions + ActionsOf(line));
      SameFollows(t, Consume(s, line), actions + ActionsOf(line));
    }
  }

  lemma {:induction false} FollowsLive(s: State, actions: seq<Action>)
    requires Follows(s, actions)
    ensures !s.finished
  {
  }

  /** The actions of a list of lines: what its chunks bring, up to the first error. */
  function LiveActions(lines: seq<Upstream.Line>): seq<Action> {
    if |lines| == 0 then []
    else
      var front, last := lines[..|lines| - 1], lines[|lines| - 1];
      LiveActions(front) + if last.Chunk? && !Errs(front) then ActionsOf(last) else []
  }

  function LinesOf(rest: seq<Scanned>): (r: seq<Upstream.Line>)
    ensures |r| == |rest|
  {
    seq(|rest|, i requires 0 <= i < |rest| => rest[i].line)
  }

  /** These lines were consumed: the stream is over exactly if one was an error. */
  ghost predicate Consumed(s: State, lines: seq<Upstream.Line>) {
    Standing(s, LiveActions(lines)) && (s.finished <==> Errs(lines))
  }

  lemma {:induction false} LiveSnoc(lines: seq<Upstream.Line>, line: Upstream.Line)
    ensures LiveActions(lines + [line]) == LiveActions(lines)
            + if line.Chunk? && !Errs(lines) then ActionsOf(line) else []
    ensures Errs(lines + [line]) <==> Errs(lines) || line.UpstreamError?
  {
    var all := lines + [line];
    assert all[..|lines|] == lines && all[|lines|] == line;
    assert forall i :: 0 <= i < |lines| ==> all[i] == lines[i];
  }

  lemma {:induction false} ConsumeStep(s: State, lines: seq<Upstream.Line>, line: Upstream.Line)
    requires Consumed(s, lines)
    ensures Consumed(Consume(s, line), lines + [line])
  {
    hide LiveActions, ActionsOf, ActAll, CloseAll, Follows, Settled;
    LiveSnoc(lines, line);
    ConsumeStands(s, line, LiveActions(lines));
    if !s.finished && line.Chunk? { ChunkGoesOn(s, line, LiveActions(lines)); }
  }

  lemma {:induction false} ChunkGoesOn(s: State, line: Upstream.Line, actions: seq<Action>)
    requires Follows(s, actions) && line.Chunk?
    ensures !Consume(s, line).finished
  {
    hide ActAll, Follows;
    FollowsLive(s, actions);
    ActAllFollows(s, actions, ActionsOf(line));
    FollowsLive(ActAll(s, ActionsOf(line)), actions + ActionsOf(line));
  }

  lemma {:induction false} ConsumeAllStands(s: State, lines: seq<Upstream.Line>)
    requires Consumed(s, [])
    ensures Consumed(ConsumeAll(s, lines), lines)
  {
    hide Consumed;
    if |lines| > 0 {
      var n := |lines| - 1;
      ConsumeAllStands(s, lines[..n]);
      ConsumeStep(ConsumeAll(s, lines[..n]), lines[..n], lines[n]);
      assert lines[..n] + [lines[n]] == lines;
    }
  }

  lemma {:induction false} OverlayStands(s: State, lines: seq<Upstream.Line>, snap: Upstream.Usage)
    requires Consumed(s, lines) && !s.finished
    ensures Consumed(Overlay(s, snap), lines) && !Overlay(s, snap).finished
  {
    SameFollows(s, Overlay(s, snap), LiveActions(lines));
  }

  lemma {:induction false} FedAllStands(s: State, lines: seq<Upstream.Line>, rest: seq<Scanned>)
    requires Consumed(s, lines)
    ensures Consumed(FedAll(s, rest), lines + LinesOf(rest))
  {
    hide Consumed, Overlay;
    if |rest| == 0 {
      assert lines + LinesOf(rest) == lines;
    } else {
      var n := |rest| - 1;
      FedAllStands(s, lines, rest[..n]);
      var t, so := FedAll(s, rest[..n]), lines + LinesOf(rest[..n]);
      assert so + [rest[n].line] == lines + LinesOf(rest);
      if t.finished {
        FinishedStays(t, so, rest[n].line);
      } else {
        OverlayStands(t, so, rest[n].snap);
        ConsumeStep(Overlay(t, rest[n].snap), so, rest[n].line);
      }
    }
  }

  lemma {:induction false} FinishedStays(s: State, lines: seq<Upstream.Line>, line: Upstream.Line)
    requires Consumed(s, lines) && s.finished
    ensures Consumed(s, lines + [line])
  {
    LiveSnoc(lines, line);
    assert LiveActions(lines) + [] == LiveActions(lines);
  }

  lemma {:induction false} BeginStands(inputTokens: int, snap: Upstream.Usage)
    ensures Consumed(Begin(inputTokens, snap), [])
  {
    var s := Begin(inputTokens, snap);
    ReceiveSnoc([], s.log[0], false);
    ReceiveSnoc([], s.log[0], true);
    assert s.log == [] + [s.log[0]];
    assert Heard(s, []);
    assert NeverResumed([]);
  }

  /** Every line of a run, in order. */
  function AllLines(first: seq<Upstream.Line>, rest: seq<Scanned>, last: Option<Scanned>): seq<Upstream.Line> {
    first + LinesOf(rest) + if last.Some? then [last.value.line] else []
  }

  /** The state just before the end of a run. */
  lemma {:induction false} RunStands(inputTokens: int, first: seq<Upstream.Line>, snap: Upstream.Usage,
                                     rest: seq<Scanned>, last: Option<Scanned>)
    returns (t: State)
    ensures var s := FedAll(ConsumeAll(Begin(inputTokens, snap), first), rest);
            t == if last.Some? then Consume(s, last.value.line) else s
    ensures Consumed(t, AllLines(first, rest, last))
  {
    hide FedAll, ConsumeAll, Begin, Consumed, Consume;
    t := FedAll(ConsumeAll(Begin(inputTokens, snap), first), rest);
    BeginStands(inputTokens, snap);
    ConsumeAllStands(Begin(inputTokens, snap), first);
    FedAllStands(ConsumeAll(Begin(inputTokens, snap), first), first, rest);
    if last.Some? {
      ConsumeStep(t, first + LinesOf(rest), last.value.line);
      t := Consume(t, last.value.line);
    } else {
      assert first + LinesOf(rest) + [] == first + LinesOf(rest);
    }
  }

  /** Every run, as a client sees it: blocks 0 to next-1, each started (again only for a
      late tool name) and stopped exactly once, nothing open together that may not
      be, message_stop once and last.  All tool deltas fall inside their blocks
      exactly if no tool index is resumed after text. */
  lemma {:induction false} RunLifecycle(inputTokens: int, first: seq<Upstream.Line>, snap: Upstream.Usage,
                                        rest: seq<Scanned>, last: Option<Scanned>)
    ensures var r := Run(inputTokens, first, snap, rest, last);
            && Complete(r, false)
            && (ReceiveAll(r.log, true).Some? <==> NeverResumed(LiveActions(AllLines(first, rest, last))))
            && (ReceiveAll(r.log, true).Some? ==> Complete(r, true))
  {
    hide FedAll, ConsumeAll, Begin, Consume, LiveActions, NeverResumed, Follows, Overlay, AllLines;
    var lines := AllLines(first, rest, last);
    var s := RunStands(inputTokens, first, snap, rest, last);
    if !s.finished {
      var t := Overlay(s, LastSnap(snap, rest, last));
      OverlayStands(s, lines, LastSnap(snap, rest, last));
      EndSettles(t, LiveActions(lines), MessageDelta(StopReason(if t.reason == "" then "stop" else t.reason), t.usage));
    }
  }

  /** The counts behind it: each index below next is started and stopped exactly once, a
      tool possibly announced again, and no other index appears. */
  lemma {:induction false} EachBlockOnce(
    inputTokens: int, first: seq<Upstream.Line>, snap: Upstream.Usage, rest: seq<Scanned>, last: Option<Scanned>,
      i: nat)
    ensures var r := Run(inputTokens, first, snap, rest, last);
            && ReceiveAll(r.log, false).Some? && |ReceiveAll(r.log, false).value.kinds| == r.next
            && (i < r.next ==> Stops(r.log, i) == 1 && Starts(r.log, i) >= 1)
            && (i < r.next && ReceiveAll(r.log, false).value.kinds[i] != Tool ==> Starts(r.log, i) == 1)
            && (i >= r.next ==> Stops(r.log, i) == 0 && Starts(r.log, i) == 0)
  {
    hide Run;
    RunLifecycle(inputTokens, first, snap, rest, last);
    AcceptedCounts(Run(inputTokens, first, snap, rest, last).log, false, i);
  }

  /** A log that ends with message_delta, carrying this usage where it has any, and
      message_stop. */
  predicate EndsWith(log: seq<Event>, usage: Upstream.Usage) {
    && |log| >= 2 && log[|log| - 2].MessageDelta? && log[|log| - 1] == MessageStop
    && (usage.output > 0 ==> log[|log| - 2].usage.output == usage.output)
    && (usage.input > 0 ==> log[|log| - 2].usage.input == usage.input)
    && (usage != NO_USAGE ==> log[|log| - 2].usage.cacheRead == usage.cacheRead)
    && (usage != NO_USAGE ==> log[|log| - 2].usage.cacheCreation == usage.cacheCreation)
  }

  /** A run without an error ends with message_delta and message_stop, and the usage in
      the delta is the upstream's own wherever its last snapshot has it. */
  lemma {:induction false} FinalUsage(
    inputTokens: int, first: seq<Upstream.Line>, snap: Upstream.Usage, rest: seq<Scanned>, last: Option<Scanned>)
    requires !Errs(AllLines(first, rest, last))
    ensures EndsWith(Run(inputTokens, first, snap, rest, last).log, LastSnap(snap, rest, last))
  {
    hide FedAll, ConsumeAll, Begin, Consume, LiveActions, Standing, AllLines, CloseAll, Overlay, StopReason;
    var s := RunStands(inputTokens, first, snap, rest, last);
    var end := LastSnap(snap, rest, last);
    CloseAllKeeps(Overlay(s, end));
    OverlayWins(s, end);
  }

  lemma {:induction false} OverlayWins(s: State, snap: Upstream.Usage)
    ensures var u := Overlay(s, snap).usage;
            && (snap.output > 0 ==> u.output == snap.output) && (snap.input > 0 ==> u.input == snap.input)
            && (snap != NO_USAGE ==> u.cacheRead == snap.cacheRead && u.cacheCreation == snap.cacheCreation)
    ensures Overlay(s, snap).finished == s.finished
  {
  }

  lemma {:induction false} CloseAllKeeps(s: State)
    ensures CloseAll(s).usage == s.usage && CloseAll(s).reason == s.reason
  {
    var t := CloseThinking(s);
    assert t.usage == s.usage && t.reason == s.reason;
    hide CloseThinking;
    var u := CloseText(t);
    assert u.usage == t.usage && u.reason == t.reason;
  }
}
