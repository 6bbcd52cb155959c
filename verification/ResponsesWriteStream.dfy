/** WriteStream: an upstream body, cut at arbitrary places, becomes one Responses
    event stream that does not depend on the cuts. */
module ResponsesWriteStream {
  import opened Wrappers
  import opened SseLines
  import opened SseWriter
  import opened ResponsesProtocol
  import opened UpstreamLines
  import opened ResponsesLifecycle
  import opened ResponsesStream
  import Protocol = ResponsesProtocol

  // ----- What a body means -----

  datatype Feed = Feed(stream: Stream, snap: Usage)

  function FeedLine(d: Decoder, f: Feed, line: Bytes): (r: Feed)
    ensures f.stream.log <= r.stream.log
  {
    if f.stream.finished then f
    else
      var snap := d.scan(line, f.snap);
      Feed(Consume(WithUsage(f.stream, snap), d.decode(line)), snap)
  }

  function FeedLines(d: Decoder, f: Feed, lines: seq<Bytes>): (r: Feed)
    ensures f.stream.log <= r.stream.log
  {
    if |lines| == 0 then f else FeedLine(d, FeedLines(d, f, lines[..|lines| - 1]), lines[|lines| - 1])
  }

  /** The first event is scanned as a whole, then consumed line by line. */
  function Opened(d: Decoder, event: Bytes): Feed {
    var snap := EventUsage(d, event);
    Feed(ConsumeAll(Start(MergeUsage(NO_USAGE, snap)), DecodeAll(d, EventLines(event))), snap)
  }

  /** At the end an unterminated remainder still counts, then the stream closes. */
  function Ended(d: Decoder, f: Feed, rest: Bytes, ending: Ending): (r: Feed)
    ensures f.stream.log <= r.stream.log
  {
    var g := if ending.Eof? && TrimBytes(rest) != [] then FeedLine(d, f, TrimBytes(rest)) else f;
    if g.stream.finished then g
    else
      var s := WithUsage(g.stream, g.snap);
      Feed(if ending.Eof? then Protocol.Finish(s) else Protocol.Fail(s, "upstream stream interrupted"), g.snap)
  }

  /** The stream a body stands for: a function of its bytes alone. */
  function Transcript(d: Decoder, body: Bytes, ending: Ending): Feed {
    var event := FirstEvent(body);
    var rest := body[|event|..];
    Ended(d, FeedLines(d, Opened(d, event), Lines(rest)), Rest(rest), ending)
  }

  // ----- Every transcript is a whole life -----

  lemma {:induction false} ConsumeAllCoherent(s: Stream, lines: seq<Line>)
    requires Coherent(s)
    ensures Coherent(ConsumeAll(s, lines))
  {
    if |lines| > 0 {
      ConsumeAllCoherent(s, lines[..|lines| - 1]);
      ConsumeCoherent(ConsumeAll(s, lines[..|lines| - 1]), lines[|lines| - 1]);
    }
  }

  lemma {:induction false} FeedLineCoherent(d: Decoder, f: Feed, line: Bytes)
    requires Coherent(f.stream)
    ensures Coherent(FeedLine(d, f, line).stream)
  {
    if !f.stream.finished {
      var s := WithUsage(f.stream, d.scan(line, f.snap));
      UsageCoherent(f.stream, s.usage);
      ConsumeCoherent(s, d.decode(line));
    }
  }

  lemma {:induction false} FeedLinesCoherent(d: Decoder, f: Feed, lines: seq<Bytes>)
    requires Coherent(f.stream)
    ensures Coherent(FeedLines(d, f, lines).stream)
  {
    if |lines| > 0 {
      FeedLinesCoherent(d, f, lines[..|lines| - 1]);
      FeedLineCoherent(d, FeedLines(d, f, lines[..|lines| - 1]), lines[|lines| - 1]);
    }
  }

  lemma {:induction false} EndedCoherent(d: Decoder, f: Feed, rest: Bytes, ending: Ending)
    requires Coherent(f.stream)
    ensures Coherent(Ended(d, f, rest, ending).stream) && Ended(d, f, rest, ending).stream.finished
  {
    var g := if ending.Eof? && TrimBytes(rest) != [] then FeedLine(d, f, TrimBytes(rest)) else f;
    FeedLineCoherent(d, f, TrimBytes(rest));
    if !g.stream.finished {
      var s := WithUsage(g.stream, g.snap);
      UsageCoherent(g.stream, s.usage);
      if ending.Eof? { FinishCoherent(s); } else { FailCoherent(s, "upstream stream interrupted"); }
    }
  }

  /** For every body and every ending: the events form one whole life of a stream. */
  lemma {:induction false} TranscriptLifecycle(d: Decoder, body: Bytes, ending: Ending)
    ensures Lifecycle(Transcript(d, body, ending).stream.log, Transcript(d, body, ending).stream.entries)
  {
    var event := FirstEvent(body);
    var rest := body[|event|..];
    var snap := EventUsage(d, event);
    StartCoherent(MergeUsage(NO_USAGE, snap));
    ConsumeAllCoherent(Start(MergeUsage(NO_USAGE, snap)), DecodeAll(d, EventLines(event)));
    FeedLinesCoherent(d, Opened(d, event), Lines(rest));
    EndedCoherent(d, FeedLines(d, Opened(d, event), Lines(rest)), Rest(rest), ending);
    CoherentLifecycle(Transcript(d, body, ending).stream);
  }

  /** What a client that went away has seen of each item is a prefix of its trace. */
  lemma {:induction false} ProjectPrefix(a: seq<Payload>, b: seq<Payload>, k: nat)
    requires a <= b
    ensures Project(a, k) <= Project(b, k)
  {
    assert b == a + b[|a|..];
    ProjectAppend(a, b[|a|..], k);
  }

  // ----- Feeding in pieces -----

  lemma {:induction false} FeedLinesAppend(d: Decoder, f: Feed, a: seq<Bytes>, b: seq<Bytes>)
    ensures FeedLines(d, f, a + b) == FeedLines(d, FeedLines(d, f, a), b)
  {
    if |b| == 0 {
      assert a + b == a;
    } else {
      assert (a + b)[..|a + b| - 1] == a + b[..|b| - 1];
      FeedLinesAppend(d, f, a, b[..|b| - 1]);
    }
  }

  lemma {:induction false} FeedFinished(d: Decoder, f: Feed, lines: seq<Bytes>)
    requires f.stream.finished
    ensures FeedLines(d, f, lines) == f
  {
    if |lines| > 0 { FeedFinished(d, f, lines[..|lines| - 1]); }
  }

  lemma {:induction false} ConsumeFinished(s: Stream, lines: seq<Line>)
    requires s.finished
    ensures ConsumeAll(s, lines) == s
  {
    if |lines| > 0 { ConsumeFinished(s, lines[..|lines| - 1]); }
  }

  lemma {:induction false} ConsumeAllAppend(s: Stream, a: seq<Line>, b: seq<Line>)
    ensures ConsumeAll(s, a + b) == ConsumeAll(ConsumeAll(s, a), b)
  {
    if |b| == 0 {
      assert a + b == a;
    } else {
      assert (a + b)[..|a + b| - 1] == a + b[..|b| - 1];
      ConsumeAllAppend(s, a, b[..|b| - 1]);
    }
  }

  // ----- The adapter loop -----

  /** A run that aimed at `target` has come to its end: all of the log is out, or
      the client is gone with a proper prefix of it. */
  ghost predicate Delivered(w: Writer, snap: Usage, target: Feed)
    reads w
  {
    || (w.log == Number(target.stream.log) && snap == target.snap)
    || CutLog(w, target.stream.log)
  }

  /** A step that must stop the loop: the client is gone, or the stream is over and
      nothing later changes it. */
  ghost predicate Stopped(state: StreamState, w: Writer, snap: Usage, target: Feed)
    reads state, w
  {
    || CutLog(w, target.stream.log)
    || (state.Valid(w) && state.view == target.stream && target.stream.finished && snap == target.snap)
  }

  lemma {:induction false} StopsAll(d: Decoder, f: Feed, a: seq<Bytes>, b: seq<Bytes>, w: Writer)
    ensures FeedLines(d, f, a).stream.finished ==> FeedLines(d, f, a + b) == FeedLines(d, f, a)
    ensures CutLog(w, FeedLines(d, f, a).stream.log) ==> CutLog(w, FeedLines(d, f, a + b).stream.log)
  {
    FeedLinesAppend(d, f, a, b);
    var g := FeedLines(d, f, a);
    if g.stream.finished { FeedFinished(d, g, b); }
    NumberPrefix(g.stream.log, FeedLines(d, g, b).stream.log);
  }

  method ConsumeEvent(state: StreamState, w: Writer, d: Decoder, event: Bytes) returns (ok: bool)
    requires state.Valid(w) && !state.view.finished
    modifies state, w
    ensures var target := ConsumeAll(old(state.view), DecodeAll(d, EventLines(event)));
            if ok then state.Valid(w) && state.view == target && !target.finished
            else CutLog(w, target.log) || (state.Valid(w) && state.view == target && target.finished)
  {
    ok := true;
    var lines := EventLines(event);
    ghost var all := DecodeAll(d, lines);
    for i := 0 to |lines|
      invariant ok && state.Valid(w) && state.view == ConsumeAll(old(state.view), all[..i]) && !state.view.finished
    {
      ConsumeUnfinished(state.view, all[i]);
      assert all[..i + 1][..i] == all[..i];
      assert all == all[..i + 1] + all[i + 1..];
      ok := state.ConsumeLine(w, d.decode(lines[i]));
      if !ok {
        ghost var here := ConsumeAll(old(state.view), all[..i + 1]);
        ConsumeAllAppend(old(state.view), all[..i + 1], all[i + 1..]);
        if here.finished { ConsumeFinished(here, all[i + 1..]); }
        NumberPrefix(here.log, ConsumeAll(here, all[i + 1..]).log);
        return;
      }
    }
    assert all[..|lines|] == all;
  }

  method ConsumeRaw(state: StreamState, w: Writer, d: Decoder, line: Bytes, snap: Usage) returns (ok: bool, next: Usage)
    requires state.Valid(w) && !state.view.finished
    modifies state, w
    ensures var target := FeedLine(d, Feed(old(state.view), snap), line);
            && (ok ==> state.Valid(w) && Feed(state.view, next) == target && !target.stream.finished)
            && (!ok ==> Stopped(state, w, next, target))
  {
    next := d.scan(line, snap);
    state.ApplyUsage(w, next);
    ghost var before := state.view;
    ok := state.ConsumeLine(w, d.decode(line));
    ConsumeUnfinished(before, d.decode(line));
  }

  lemma {:induction false} ConsumeUnfinished(s: Stream, line: Line)
    requires !s.finished
    ensures Consume(s, line).finished <==> line.UpstreamError?
  {
    if line.Chunk? { ChunkUnfinished(s, line); }
  }

  lemma {:induction false} ChunkUnfinished(s: Stream, c: Line)
    requires !s.finished && c.Chunk?
    ensures !AddChunk(s, c).finished
  {
    CallsUnfinished(AddText(AddReasoning(s, ReasoningOf(c)), c.content), c.calls);
  }

  lemma {:induction false} CallsUnfinished(s: Stream, calls: seq<ToolDelta>)
    requires !s.finished
    ensures !AddCalls(s, calls).finished
  {
    if |calls| > 0 { CallsUnfinished(s, calls[..|calls| - 1]); }
  }

  /** Consume every complete line the buffer holds. */
  method Drain(state: StreamState, w: Writer, d: Decoder, buffer: LineBuffer, snap: Usage)
    returns (ok: bool, next: Usage)
    requires state.Valid(w) && !state.view.finished
    modifies state, w, buffer
    ensures var target := FeedLines(d, Feed(old(state.view), snap), Lines(old(buffer.data)));
            if ok then state.Valid(w) && Feed(state.view, next) == target && !target.stream.finished
            else Stopped(state, w, next, target)
    ensures ok ==> buffer.data == Rest(old(buffer.data))
  {
    hide OpenBlock, BookOf, FeedLine, Lines, Rest, Number;
    next := snap;
    ghost var start := Feed(state.view, snap);
    ghost var all := Lines(buffer.data);
    ghost var seen: seq<Bytes> := [];
    while true
      invariant state.Valid(w) && !state.view.finished
      invariant seen + Lines(buffer.data) == all && Rest(buffer.data) == Rest(old(buffer.data))
      invariant Feed(state.view, next) == FeedLines(d, start, seen)
      decreases |buffer.data|
    {
      var line;
      line, ok := buffer.ReadLine();
      if !ok {
        assert seen + [] == seen;
        return true, next;
      }
      ghost var later := Lines(buffer.data);
      assert seen + ([line] + later) == (seen + [line]) + later;
      assert (seen + [line])[..|seen|] == seen;
      ok, next := ConsumeRaw(state, w, d, line, next);
      if !ok {
        StopsAll(d, start, seen + [line], later, w);
        return;
      }
      seen := seen + [line];
    }
  }

  method FinishIfNeeded(state: StreamState, w: Writer)
    requires state.Valid(w) || w.capacity == 0
    modifies state, w
    ensures old(state.Valid(w)) ==>
            var target := Protocol.Finish(old(state.view));
            w.log == Number(target.log) || CutLog(w, target.log)
    ensures old(w.capacity) == 0 ==> w.capacity == 0 && w.log == old(w.log)
  {
    if !state.book.finished {
      var _ := state.Finish(w);
    }
  }

  method FailIfNeeded(state: StreamState, w: Writer, message: string)
    requires state.Valid(w) || w.capacity == 0
    modifies state, w
    ensures old(state.Valid(w)) ==>
            var target := Protocol.Fail(old(state.view), message);
            w.log == Number(target.log) || CutLog(w, target.log)
    ensures old(w.capacity) == 0 ==> w.capacity == 0 && w.log == old(w.log)
  {
    if !state.book.finished {
      var _ := state.Fail(w, message);
    }
  }

  /** After a step that stopped the loop: best-effort failure, nothing new goes out. */
  method Abandon(state: StreamState, w: Writer, snap: Usage, ghost target: Feed)
    requires Stopped(state, w, snap, target)
    modifies state, w
    ensures Delivered(w, snap, target)
  {
    state.ApplyUsage(w, snap);
    FailIfNeeded(state, w, "stream processing failed");
  }

  /** The unterminated remainder, then the terminal event. */
  method EndOfBody(state: StreamState, w: Writer, d: Decoder, rest: Bytes, ending: Ending, snap: Usage)
    returns (next: Usage)
    requires state.Valid(w) && !state.view.finished
    modifies state, w
    ensures Delivered(w, next, Ended(d, Feed(old(state.view), snap), rest, ending))
  {
    next := snap;
    ghost var target := Ended(d, Feed(state.view, snap), rest, ending);
    if ending == Interrupted {
      state.ApplyUsage(w, snap);
      FailIfNeeded(state, w, "upstream stream interrupted");
      return;
    }
    var remainder := TrimBytes(rest);
    if |remainder| > 0 {
      ghost var fed := FeedLine(d, Feed(state.view, snap), remainder);
      var ok;
      ok, next := ConsumeRaw(state, w, d, remainder, snap);
      NumberPrefix(fed.stream.log, target.stream.log);
      if !ok {
        // The source ignores this and finishes if it still can.
        FinishStopped(state, w, next, fed, target);
        return;
      }
    }
    state.ApplyUsage(w, next);
    FinishIfNeeded(state, w);
  }

  method FinishStopped(state: StreamState, w: Writer, snap: Usage, ghost fed: Feed, ghost target: Feed)
    requires Stopped(state, w, snap, fed)
    requires fed.stream.finished ==> target == fed
    requires fed.stream.log <= target.stream.log && Number(fed.stream.log) <= Number(target.stream.log)
    modifies state, w
    ensures Delivered(w, snap, target)
  {
    state.ApplyUsage(w, snap);
    FinishIfNeeded(state, w);
  }

  /** Read the body to its end.  Read may cut it anywhere; what is delivered only
      depends on its bytes. */
  method Pump(state: StreamState, w: Writer, d: Decoder, body: Upstream, snap: Usage) returns (next: Usage)
    requires state.Valid(w) && !state.view.finished
    modifies state, w, body
    ensures Delivered(w, next, Ended(d, FeedLines(d, Feed(old(state.view), snap), Lines(old(body.pending))),
                                     Rest(old(body.pending)), body.ending))
  {
    hide OpenBlock, BookOf, FeedLine, Ended, Number;
    next := snap;
    ghost var start := Feed(state.view, snap);
    ghost var whole, seen: Bytes := body.pending, [];
    ghost var target := Ended(d, FeedLines(d, start, Lines(whole)), Rest(whole), body.ending);
    var buffer := new LineBuffer();
    while true
      invariant fresh(buffer)
      invariant seen + body.pending == whole
      invariant state.Valid(w) && !state.view.finished
      invariant buffer.data == Rest(seen)
      invariant Feed(state.view, next) == FeedLines(d, start, Lines(seen))
      decreases |body.pending|
    {
      var chunk, end := body.Read();
      if end.Some? {
        assert seen == whole;
        next := EndOfBody(state, w, d, buffer.data, end.value, next);
        return;
      }
      buffer.Write(chunk);
      ghost var grown := seen + chunk;
      Regroup(seen, chunk, body.pending);
      LinesAppend(seen, chunk);
      FeedLinesAppend(d, start, Lines(seen), Lines(buffer.data));
      var ok;
      ok, next := Drain(state, w, d, buffer, next);
      if !ok {
        ghost var here := FeedLines(d, start, Lines(grown));
        LinesAppend(grown, body.pending);
        StopsAll(d, start, Lines(grown), Lines(Rest(grown) + body.pending), w);
        StopsEnd(d, FeedLines(d, start, Lines(whole)), Rest(whole), body.ending, w);
        Abandon(state, w, next, target);
        return;
      }
      seen := grown;
    }
  }

  lemma {:induction false} StopsEnd(d: Decoder, f: Feed, rest: Bytes, ending: Ending, w: Writer)
    ensures f.stream.finished ==> Ended(d, f, rest, ending) == f
    ensures CutLog(w, f.stream.log) ==> CutLog(w, Ended(d, f, rest, ending).stream.log)
  {
    NumberPrefix(f.stream.log, Ended(d, f, rest, ending).stream.log);
  }

  /** The whole adapter.  A stream starts unless the body is empty, its first event
      is refused, or the headers cannot be sent; then the client receives the
      numbered transcript of the body, or a proper prefix of it if it goes away. */
  method WriteStream(w: Writer, body: Upstream, d: Decoder) returns (started: bool, snap: Usage)
    requires w.log == []
    modifies w, body
    ensures started <==>
            var event := FirstEvent(old(body.pending));
            event != [] && !d.refused(event) && old(w.capacity) > 0
    ensures !started ==> w.log == [] && snap == NO_USAGE
    ensures started ==> Delivered(w, snap, Transcript(d, old(body.pending), body.ending))
  {
    snap := NO_USAGE;
    ghost var whole := body.pending;
    var event, end := ReadFirstEvent(body);
    started := |event| > 0 && !d.refused(event);
    if !started { return; }
    started := w.WriteHeaders();
    if !started { return; }
    assert whole[..|event|] == event && whole[|event|..] == body.pending;
    snap := Serve(w, body, d, event, end == Some(Eof));
  }

  /** From the first write on; `over` says that the body ended with its first event. */
  method Serve(w: Writer, body: Upstream, d: Decoder, event: Bytes, over: bool) returns (snap: Usage)
    requires w.log == [] && (over ==> body.pending == [] && body.ending == Eof)
    modifies w, body
    ensures Delivered(w, snap, Ended(d, FeedLines(d, Opened(d, event), Lines(old(body.pending))),
                                     Rest(old(body.pending)), body.ending))
  {
    hide FeedLine, Number, Consume;
    snap := EventUsage(d, event);
    ghost var begun := Opened(d, event);
    ghost var fed := FeedLines(d, begun, Lines(body.pending));
    ghost var target := Ended(d, fed, Rest(body.pending), body.ending);
    NumberPrefix(begun.stream.log, target.stream.log);
    var state := new StreamState(MergeUsage(NO_USAGE, snap));
    NumberPrefix(state.view.log, begun.stream.log);
    var ok := state.EmitCreated(w);
    if !ok { return; }
    ok := ConsumeEvent(state, w, d, event);
    if !ok {
      if begun.stream.finished {
        FeedFinished(d, begun, Lines(body.pending));
        StopsEnd(d, fed, Rest(body.pending), body.ending, w);
      }
      Abandon(state, w, snap, target);
      return;
    }
    if over {
      NothingLeft(d, begun);
      state.ApplyUsage(w, snap);
      FinishIfNeeded(state, w);
      return;
    }
    snap := Pump(state, w, d, body, snap);
  }

  lemma {:induction false} NothingLeft(d: Decoder, f: Feed)
    ensures FeedLines(d, f, Lines([])) == f && TrimBytes(Rest([])) == []
  {
  }

  /** Two readings of the same bytes by clients that stay deliver the same events
      and usage, however the reads cut them. */
  method ChunkingIndependence(bytes: Bytes, ending: Ending, d: Decoder, w1: Writer, w2: Writer)
    returns (snap1: Usage, snap2: Usage)
    requires w1 != w2 && w1.log == w2.log == [] && w1.capacity > 0 && w2.capacity > 0
    modifies w1, w2
    ensures w1.capacity > 0 && w2.capacity > 0 ==> w1.log == w2.log && snap1 == snap2
  {
    var b1 := new Upstream(bytes, ending);
    var b2 := new Upstream(bytes, ending);
    var started1, started2;
    started1, snap1 := WriteStream(w1, b1, d);
    started2, snap2 := WriteStream(w2, b2, d);
  }
}
