/** Every run of the Responses stream keeps its client protocol. */
module ResponsesLifecycle {
  import opened ResponsesProtocol

  // ----- The invariant -----

  /** What a client may rely on at every moment of a stream. */
  ghost predicate Coherent(s: Stream) {
    Shape(s) && OpenBlock(s) && forall k: nat :: Tracks(s, k)
  }

  /** The events about index k are exactly the trace of entry k so far. */
  ghost predicate Tracks(s: Stream, k: nat) {
    Project(s.log, k) == if k < |s.entries| then Trace(s.entries[k], k, k < s.settled) else []
  }

  /** The preamble opens the log, a terminal event ends it. */
  ghost predicate Shape(s: Stream) {
    && |s.log| >= 2
    && s.log[0] == Created([]) && s.log[1] == InProgress([])
    && (forall i :: 2 <= i < |s.log| ==> !Preamble(s.log[i]))
    && (forall i :: 0 <= i < |s.log| ==> (Terminal(s.log[i]) <==> s.finished && i == |s.log| - 1))
    && (s.finished ==> s.settled == |s.entries| && s.log[|s.log| - 1].output == Outputs(s.entries))
  }

  predicate NoDuplicates(xs: seq<int>) {
    forall i, j :: 0 <= i < j < |xs| ==> xs[i] != xs[j]
  }

  /** Open items are one reasoning, one message, or a block of calls with
      distinct upstream indexes. */
  ghost predicate OpenBlock(s: Stream) {
    && s.settled <= |s.entries|
    && (if s.active == [] then s.settled >= |s.entries| - 1 && !Open(s, CallKind)
        else |s.active| == |s.entries| - s.settled && s.toolsStarted && NoDuplicates(s.active))
    && (forall k :: s.settled <= k < |s.entries| && s.active != [] ==> s.entries[k].kind == CallKind)
    && (forall k :: 0 <= k < |s.entries| && s.entries[k].kind == CallKind ==> s.entries[k].callId != Given(""))
  }

  lemma {:induction false} PositionFinds(xs: seq<int>, x: int)
    requires x in xs
    ensures Position(xs, x) < |xs| && xs[Position(xs, x)] == x
  {
    if xs[0] != x {
      assert x in xs[1..];
      PositionFinds(xs[1..], x);
    }
  }

  // ----- Projections -----

  lemma {:induction false} ProjectAppend(a: seq<Payload>, b: seq<Payload>, k: nat)
    ensures Project(a + b, k) == Project(a, k) + Project(b, k)
  {
    if |b| == 0 {
      assert a + b == a;
    } else {
      assert (a + b)[..|a + b| - 1] == a + b[..|b| - 1];
      ProjectAppend(a, b[..|b| - 1], k);
    }
  }

  /** A block of events all about index k. */
  predicate About(block: seq<Payload>, k: nat) {
    forall i :: 0 <= i < |block| ==> !Preamble(block[i]) && !Terminal(block[i]) && block[i].index == k
  }

  lemma {:induction false} ProjectAbout(block: seq<Payload>, k: nat, j: nat)
    requires About(block, k)
    ensures Project(block, j) == if j == k then block else []
  {
    if |block| > 0 {
      ProjectAbout(block[..|block| - 1], k, j);
      assert block == block[..|block| - 1] + [block[|block| - 1]];
    }
  }

  lemma {:induction false} AppendAbout(log: seq<Payload>, block: seq<Payload>, k: nat, j: nat)
    requires About(block, k)
    ensures Project(log + block, j) == if j == k then Project(log, j) + block else Project(log, j)
  {
    ProjectAppend(log, block, j);
    ProjectAbout(block, k, j);
  }

  lemma {:induction false} BlocksAbout(e: Entry, k: nat)
    ensures About(Opening(e, k), k) && About(Deltas(e, k), k) && About(Closing(e, k), k)
  {
  }

  predicate Plain(block: seq<Payload>) {
    forall i :: 0 <= i < |block| ==> !Preamble(block[i]) && !Terminal(block[i])
  }

  lemma {:induction false} FlattenPlain(blocks: seq<seq<Payload>>)
    requires forall i :: 0 <= i < |blocks| ==> Plain(blocks[i])
    ensures Plain(Flatten(blocks))
  {
    if |blocks| > 0 { FlattenPlain(blocks[..|blocks| - 1]); }
  }

  lemma {:induction false} ClosingBlocksAbout(entries: seq<Entry>, from: nat, to: nat)
    requires from <= to <= |entries|
    ensures forall i :: 0 <= i < to - from ==>
      About(ClosingBlocks(entries, from, to)[i], from + i) && Plain(ClosingBlocks(entries, from, to)[i])
  {
    forall i | 0 <= i < to - from
      ensures About(ClosingBlocks(entries, from, to)[i], from + i)
    {
      BlocksAbout(entries[from + i], from + i);
    }
  }

  lemma {:induction false} ShapeExtends(s: Stream, block: seq<Payload>)
    requires Shape(s) && !s.finished && Plain(block)
    ensures forall r: Stream :: r.log == s.log + block && !r.finished ==> Shape(r)
  {
  }

  // ----- Each step keeps the invariant -----

  lemma {:induction false} TraceCloses(e: Entry, k: nat)
    ensures Trace(e, k, false) + Closing(e, k) == Trace(e, k, true)
  {
    assert Trace(e, k, false) == Opening(e, k) + Deltas(e, k);
  }

  lemma {:induction false} ProjectTwo(a: seq<Payload>, b: seq<Payload>, k: nat, p: seq<Payload>, q: seq<Payload>)
    requires Project(a, k) == p && Project(b, k) == q
    ensures Project(a + b, k) == p + q && (q == [] ==> Project(a + b, k) == p)
  {
    ProjectAppend(a, b, k);
  }

  lemma {:induction false} SettleTracks(s: Stream, k: nat)
    requires Tracks(s, k) && s.settled < |s.entries|
    ensures Tracks(Settle(s), k)
  {
    var closing := Flatten(ClosingBlocks(s.entries, s.settled, |s.entries|));
    SettleProjects(s, k);
    if s.settled <= k < |s.entries| {
      ProjectTwo(s.log, closing, k, Trace(s.entries[k], k, false), Closing(s.entries[k], k));
      TraceCloses(s.entries[k], k);
    } else {
      ProjectTwo(s.log, closing, k, Project(s.log, k), []);
    }
  }

  lemma {:induction false} SettleProjects(s: Stream, k: nat)
    requires s.settled < |s.entries|
    ensures Project(Flatten(ClosingBlocks(s.entries, s.settled, |s.entries|)), k) ==
            if s.settled <= k < |s.entries| then Closing(s.entries[k], k) else []
  {
    ClosingProjects(s.entries, s.settled, |s.entries|, k);
  }

  lemma {:induction false} ClosingSnoc(entries: seq<Entry>, from: nat, to: nat)
    requires from < to <= |entries|
    ensures Flatten(ClosingBlocks(entries, from, to)) ==
            Flatten(ClosingBlocks(entries, from, to - 1)) + Closing(entries[to - 1], to - 1)
  {
    var blocks := ClosingBlocks(entries, from, to);
    assert blocks[..|blocks| - 1] == ClosingBlocks(entries, from, to - 1);
  }

  lemma {:induction false} ProjectClosing(log: seq<Payload>, e: Entry, n: nat, k: nat)
    requires k == n ==> Project(log, k) == []
    ensures Project(log + Closing(e, n), k) == if k == n then Closing(e, n) else Project(log, k)
  {
    BlocksAbout(e, n);
    AppendAbout(log, Closing(e, n), n, k);
    assert [] + Closing(e, n) == Closing(e, n);
  }

  lemma {:induction false} NothingCloses(entries: seq<Entry>, from: nat, k: nat)
    requires from <= |entries|
    ensures Project(Flatten(ClosingBlocks(entries, from, from)), k) == []
  {
  }

  lemma {:induction false} ClosingProjects(entries: seq<Entry>, from: nat, to: nat, k: nat)
    requires from <= to <= |entries|
    ensures Project(Flatten(ClosingBlocks(entries, from, to)), k) == if from <= k < to then Closing(entries[k], k)
            else []
  {
    hide Closing, Project, ClosingBlocks, Flatten;
    if from == to {
      NothingCloses(entries, from, k);
    } else {
      var before := Flatten(ClosingBlocks(entries, from, to - 1));
      ClosingProjects(entries, from, to - 1, k);
      ClosingSnoc(entries, from, to);
      ProjectClosing(before, entries[to - 1], to - 1, k);
    }
  }

  lemma {:induction false} SettleCoherent(s: Stream)
    requires Coherent(s) && !s.finished
    ensures Coherent(Settle(s)) && !Settle(s).finished && Settle(s).settled == |s.entries|
  {
    if s.settled < |s.entries| {
      var blocks := ClosingBlocks(s.entries, s.settled, |s.entries|);
      ClosingBlocksAbout(s.entries, s.settled, |s.entries|);
      FlattenPlain(blocks);
      ShapeExtends(s, Flatten(blocks));
      forall k: nat
        ensures Tracks(Settle(s), k)
      {
        assert Tracks(s, k);
        SettleTracks(s, k);
      }
    }
  }

  lemma {:induction false} BeginTracks(s: Stream, e: Entry, k: nat)
    requires Tracks(s, k) && e.deltas == [] && s.settled <= |s.entries|
    ensures Tracks(Begin(s, e), k)
  {
    BlocksAbout(e, |s.entries|);
    AppendAbout(s.log, Opening(e, |s.entries|), |s.entries|, k);
    assert Trace(e, |s.entries|, false) == Opening(e, |s.entries|);
  }

  lemma {:induction false} PushTracks(s: Stream, k: nat, text: string, j: nat)
    requires Tracks(s, j) && s.settled <= k < |s.entries|
    ensures Tracks(Push(s, k, text), j)
  {
    var e := s.entries[k];
    var f := e.(deltas := e.deltas + [text]);
    var block := [Delta(k, e.kind, e.id, text)];
    AppendAbout(s.log, block, k, j);
    assert Deltas(f, k) == Deltas(e, k) + block;
    assert Trace(f, k, false) == Opening(e, k) + Deltas(f, k);
    assert Trace(e, k, false) + block == Trace(f, k, false);
  }

  lemma {:induction false} PushCoherent(s: Stream, k: nat, text: string)
    requires Coherent(s) && !s.finished && s.settled <= k < |s.entries|
    ensures Coherent(Push(s, k, text)) && !Push(s, k, text).finished
  {
    ShapeExtends(s, [Delta(k, s.entries[k].kind, s.entries[k].id, text)]);
    forall j: nat
      ensures Tracks(Push(s, k, text), j)
    {
      assert Tracks(s, j);
      PushTracks(s, k, text, j);
    }
  }

  lemma {:induction false} BeginShapeTracks(s: Stream, e: Entry)
    requires Coherent(s) && !s.finished && e.deltas == []
    ensures Shape(Begin(s, e)) && !Begin(s, e).finished
    ensures forall k: nat :: Tracks(Begin(s, e), k)
  {
    BlocksAbout(e, |s.entries|);
    ShapeExtends(s, Opening(e, |s.entries|));
    forall k: nat
      ensures Tracks(Begin(s, e), k)
    {
      assert Tracks(s, k);
      BeginTracks(s, e, k);
    }
  }

  /** Opening a reasoning or message item on a settled stream. */
  lemma {:induction false} BeginSoloCoherent(s: Stream, e: Entry, supply: nat)
    requires Coherent(s) && !s.finished && e.deltas == [] && e.kind != CallKind
    requires s.settled == |s.entries|
    ensures Coherent(Begin(s, e).(supply := supply)) && !Begin(s, e).finished
  {
    var r := Begin(s, e).(supply := supply);
    BeginShapeTracks(s, e);
    forall k: nat ensures Tracks(r, k) { assert Tracks(Begin(s, e), k); }
  }

  lemma {:induction false} OpenCallBlock(s: Stream)
    requires OpenBlock(s)
    ensures Open(s, CallKind) <==> s.active != []
  {
  }

  lemma {:induction false} BeginCallCoherent(s: Stream, d: ToolDelta)
    requires Coherent(s) && !s.finished && d.index !in s.active
    ensures Coherent(BeginCall(s, d)) && !BeginCall(s, d).finished
  {
    OpenCallBlock(s);
    if !Open(s, CallKind) { SettleCoherent(s); }
    BeginCallOnCoherent(if Open(s, CallKind) then s else Settle(s), d);
  }

  lemma {:induction false} BeginCallOnCoherent(t: Stream, d: ToolDelta)
    requires Coherent(t) && !t.finished && d.index !in t.active
    requires Open(t, CallKind) || t.settled == |t.entries|
    ensures Coherent(BeginCallOn(t, d)) && !BeginCallOn(t, d).finished
  {
    var r := BeginCallOn(t, d);
    BeginShapeTracks(t, NewCall(t, d));
    forall k: nat ensures Tracks(r, k) { assert Tracks(Begin(t, NewCall(t, d)), k); }
    BeginCallBlock(t, d);
  }

  lemma {:induction false} BeginCallBlock(t: Stream, d: ToolDelta)
    requires OpenBlock(t) && d.index !in t.active
    requires Open(t, CallKind) || t.settled == |t.entries|
    ensures OpenBlock(BeginCallOn(t, d))
  {
    var r := BeginCallOn(t, d);
    OpenCallBlock(t);
    assert forall k :: 0 <= k < |t.entries| ==> r.entries[k] == t.entries[k];
  }

  lemma {:induction false} BackfillCoherent(s: Stream, m: nat, d: ToolDelta)
    requires Coherent(s) && !s.finished && s.settled <= m < |s.entries| && s.entries[m].kind == CallKind
    ensures Coherent(s.(entries := s.entries[m := Backfill(s.entries[m], d)]))
  {
    var r := s.(entries := s.entries[m := Backfill(s.entries[m], d)]);
    var e, f := s.entries[m], r.entries[m];
    assert f == e.(name := f.name);
    assert Deltas(f, m) == Deltas(e, m);
    assert Trace(f, m, false) == Trace(e, m, false);
    forall k: nat ensures Tracks(r, k) { assert Tracks(s, k); }
  }

  lemma {:induction false} AddCallCoherent(s: Stream, d: ToolDelta)
    requires Coherent(s) && !s.finished
    ensures Coherent(AddCall(s, d)) && !AddCall(s, d).finished
  {
    if d.index in s.active {
      PositionFinds(s.active, d.index);
      BackfillCoherent(s, SlotOf(s, d.index), d);
    } else {
      BeginCallCoherent(s, d);
    }
    if d.arguments != "" { PushCoherent(CallReady(s, d), CallSlot(s, d), d.arguments); }
  }

  lemma {:induction false} AddCallsCoherent(s: Stream, calls: seq<ToolDelta>)
    requires Coherent(s) && !s.finished
    ensures Coherent(AddCalls(s, calls)) && !AddCalls(s, calls).finished
  {
    if |calls| > 0 {
      AddCallsCoherent(s, calls[..|calls| - 1]);
      AddCallCoherent(AddCalls(s, calls[..|calls| - 1]), calls[|calls| - 1]);
    }
  }

  lemma {:induction false} BeginSoloPush(t: Stream, kind: Kind, text: string)
    requires Coherent(t) && !t.finished && kind != CallKind && t.settled == |t.entries|
    ensures Coherent(BeginSolo(t, kind, text)) && !BeginSolo(t, kind, text).finished
  {
    var e := Entry(kind, t.supply, Given(""), "", "", []);
    var b := Begin(t, e).(supply := t.supply + 1);
    assert Coherent(b) && !b.finished by { BeginSoloCoherent(t, e, t.supply + 1); }
    assert b.settled == |t.entries| == |b.entries| - 1;
    assert BeginSolo(t, kind, text) == Push(b, |t.entries|, text);
    PushCoherent(b, |t.entries|, text);
  }

  lemma {:induction false} SettleEntries(s: Stream)
    ensures Settle(s).entries == s.entries
  {
  }

  lemma {:induction false} AddReasoningCoherent(s: Stream, delta: string)
    requires Coherent(s) && !s.finished
    ensures Coherent(AddReasoning(s, delta)) && !AddReasoning(s, delta).finished
  {
    hide Coherent, Push, BeginSolo, Settle;
    if delta != "" && Open(s, ReasoningKind) {
      PushCoherent(s, |s.entries| - 1, delta);
    } else if delta != "" && !s.toolsStarted {
      SettleCoherent(s);
      SettleEntries(s);
      BeginSoloPush(Settle(s), ReasoningKind, delta);
    }
  }

  lemma {:induction false} AddTextCoherent(s: Stream, content: string)
    requires Coherent(s) && !s.finished
    ensures Coherent(AddText(s, content)) && !AddText(s, content).finished
  {
    hide Coherent, Push, BeginSolo, Settle;
    if content != "" && Open(s, MessageKind) {
      PushCoherent(s, |s.entries| - 1, content);
    } else if content != "" {
      SettleCoherent(s);
      SettleEntries(s);
      BeginSoloPush(Settle(s), MessageKind, content);
    }
  }

  lemma {:induction false} AddChunkCoherent(s: Stream, c: Line)
    requires Coherent(s) && !s.finished && c.Chunk?
    ensures Coherent(AddChunk(s, c)) && !AddChunk(s, c).finished
  {
    var s1 := AddReasoning(s, ReasoningOf(c));
    AddReasoningCoherent(s, ReasoningOf(c));
    AddTextCoherent(s1, c.content);
    AddCallsCoherent(AddText(s1, c.content), c.calls);
    FinishReasonCoherent(AddCalls(AddText(s1, c.content), c.calls), c.finishReason);
  }

  lemma {:induction false} FinishReasonCoherent(s: Stream, reason: string)
    requires Coherent(s)
    ensures Coherent(s.(finishReason := reason))
  {
    var r := s.(finishReason := reason);
    forall k: nat ensures Tracks(r, k) { assert Tracks(s, k); }
  }

  lemma {:induction false} UsageCoherent(s: Stream, usage: Usage)
    requires Coherent(s)
    ensures Coherent(s.(usage := usage))
  {
    var r := s.(usage := usage);
    forall k: nat ensures Tracks(r, k) { assert Tracks(s, k); }
  }

  /** A terminal event carrying every entry ends a settled stream. */
  lemma {:induction false} EndCoherent(s: Stream, last: Payload)
    requires Coherent(s) && !s.finished && s.settled == |s.entries|
    requires Terminal(last) && last.output == Outputs(s.entries)
    ensures Coherent(s.(log := s.log + [last], finished := true))
  {
    var r := s.(log := s.log + [last], finished := true);
    forall k: nat
      ensures Tracks(r, k)
    {
      assert Tracks(s, k);
      ProjectAppend(s.log, [last], k);
      assert Project([last], k) == [];
    }
  }

  lemma {:induction false} FailCoherent(s: Stream, message: string)
    requires Coherent(s)
    ensures Coherent(Fail(s, message)) && Fail(s, message).finished
  {
    if !s.finished {
      SettleCoherent(s);
      EndCoherent(Settle(s), Fail(s, message).log[|Settle(s).log|]);
    }
  }

  lemma {:induction false} FinishCoherent(s: Stream)
    requires Coherent(s)
    ensures Coherent(Finish(s)) && Finish(s).finished
  {
    if !s.finished {
      SettleCoherent(s);
      EndCoherent(Settle(s), FinishEvent(Settle(s)));
    }
  }

  lemma {:induction false} ConsumeCoherent(s: Stream, line: Line)
    requires Coherent(s)
    ensures Coherent(Consume(s, line))
  {
    if !s.finished {
      match line
      case Silent =>
      case UpstreamError(message) => FailCoherent(s, message);
      case Chunk(_, _, _, _, _) => AddChunkCoherent(s, line);
    }
  }

  lemma {:induction false} StartCoherent(usage: Usage)
    ensures Coherent(Start(usage))
  {
    var s := Start(usage);
    forall k: nat
      ensures Tracks(s, k)
    {
      assert s.log == [Created([])] + [InProgress([])];
      ProjectAppend([Created([])], [InProgress([])], k);
      assert Project([Created([])], k) == [] && Project([InProgress([])], k) == [];
    }
  }

  /** A finished coherent stream is a whole life. */
  lemma {:induction false} CoherentLifecycle(s: Stream)
    requires Coherent(s) && s.finished
    ensures Lifecycle(s.log, s.entries)
  {
    forall k: nat
      ensures Project(s.log, k) == if k < |s.entries| then Trace(s.entries[k], k, true) else []
    {
      assert Tracks(s, k);
    }
  }
}
