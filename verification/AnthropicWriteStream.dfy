/** WriteStream: an upstream body, cut at arbitrary places, becomes one Anthropic event
    stream that does not depend on the cuts. */
module AnthropicWriteStream {
  import opened Wrappers
  import opened SseLines
  import opened SseWriter
  import Chat = ResponsesProtocol
  import opened UpstreamLines
  import opened AnthropicProtocol
  import opened AnthropicLifecycle
  import opened AnthropicStream
  import Protocol = AnthropicProtocol

  type Client = Connection<Event>

  // ----- What a body means -----

  datatype Feed = Feed(state: State, snap: Chat.Usage)

  function FeedLine(d: Decoder, f: Feed, line: Bytes): (r: Feed)
    ensures f.state.log <= r.state.log
  {
    if f.state.finished then f
    else Feed(Fed(f.state, Scanned(d.decode(line), d.scan(line, f.snap))), d.scan(line, f.snap))
  }

  function FeedLines(d: Decoder, f: Feed, lines: seq<Bytes>): (r: Feed)
    ensures f.state.log <= r.state.log
  {
    if |lines| == 0 then f else FeedLine(d, FeedLines(d, f, lines[..|lines| - 1]), lines[|lines| - 1])
  }

  function Opened(d: Decoder, inputTokens: int, event: Bytes): Feed {
    var snap := EventUsage(d, event);
    Feed(ConsumeAll(Begin(inputTokens, snap), DecodeAll(d, EventLines(event))), snap)
  }

  /** The unterminated last line of a body that ended properly. */
  function LastLine(rest: Bytes, ending: Ending): Option<Bytes> {
    if ending.Eof? && TrimBytes(rest) != [] then Some(TrimBytes(rest)) else None
  }

  function Ended(d: Decoder, f: Feed, rest: Bytes, ending: Ending): (r: Feed)
    ensures f.state.log <= r.state.log
  {
    if f.state.finished then f
    else
      var line := LastLine(rest, ending);
      var g := if line.Some? then Feed(Consume(f.state, d.decode(line.value)), d.scan(line.value, f.snap)) else f;
      if g.state.finished then g else Feed(Protocol.Finish(Overlay(g.state, g.snap)), g.snap)
  }

  /** The stream a body stands for: a function of its bytes alone. */
  function Transcript(d: Decoder, inputTokens: int, body: Bytes, ending: Ending): Feed {
    var event := FirstEvent(body);
    var rest := body[|event|..];
    Ended(d, FeedLines(d, Opened(d, inputTokens, event), Lines(rest)), Rest(rest), ending)
  }

  // ----- Every transcript is a run -----

  /** The lines with the usage scanned by then. */
  function ScannedAll(d: Decoder, snap: Chat.Usage, lines: seq<Bytes>): (r: seq<Scanned>)
    ensures |r| == |lines|
  {
    if |lines| == 0 then []
    else
      var before, last := ScannedAll(d, snap, lines[..|lines| - 1]), lines[|lines| - 1];
      before + [Scanned(d.decode(last), d.scan(last, LastSnap(snap, before, None)))]
  }

  lemma {:induction false} FeedIsFed(d: Decoder, f: Feed, lines: seq<Bytes>)
    ensures var g, scanned := FeedLines(d, f, lines), ScannedAll(d, f.snap, lines);
            g.state == FedAll(f.state, scanned) && (!g.state.finished ==> g.snap == LastSnap(f.snap, scanned, None))
    ensures f.state.finished ==> FeedLines(d, f, lines) == f
  {
    if |lines| > 0 {
      hide Consume;
      var n := |lines| - 1;
      FeedIsFed(d, f, lines[..n]);
      var scanned := ScannedAll(d, f.snap, lines);
      assert scanned[..n] == ScannedAll(d, f.snap, lines[..n]);
    }
  }

  /** The unterminated line of a body with its usage. */
  function LastScanned(d: Decoder, snap: Chat.Usage, line: Option<Bytes>): Option<Scanned> {
    if line.Some? then Some(Scanned(d.decode(line.value), d.scan(line.value, snap))) else None
  }

  lemma {:induction false} ScannedLines(d: Decoder, snap: Chat.Usage, lines: seq<Bytes>)
    ensures LinesOf(ScannedAll(d, snap, lines)) == DecodeAll(d, lines)
  {
    if |lines| > 0 {
      var n := |lines| - 1;
      ScannedLines(d, snap, lines[..n]);
      var scanned := ScannedAll(d, snap, lines);
      assert scanned[..n] == ScannedAll(d, snap, lines[..n]);
      assert LinesOf(scanned) == LinesOf(scanned[..n]) + [d.decode(lines[n])];
      assert DecodeAll(d, lines) == DecodeAll(d, lines[..n]) + [d.decode(lines[n])];
    }
  }

  /** What a body delivers is a run of its decoded lines. */
  lemma {:induction false} TranscriptIsRun(d: Decoder, inputTokens: int, body: Bytes, ending: Ending)
    returns (first: seq<Chat.Line>, snap: Chat.Usage, rest: seq<Scanned>, last: Option<Scanned>)
    ensures Transcript(d, inputTokens, body, ending).state == Run(inputTokens, first, snap, rest, last)
    ensures AllLines(first, rest, last) == BodyLines(d, body, ending)
  {
    hide Consume, FedAll, ConsumeAll, Begin, FeedLines, Protocol.Finish, Overlay, FirstEvent, Lines, Rest, TrimBytes;
    var event := FirstEvent(body);
    var tail := body[|event|..];
    first, snap := DecodeAll(d, EventLines(event)), EventUsage(d, event);
    rest := ScannedAll(d, snap, Lines(tail));
    var begun := Opened(d, inputTokens, event);
    var fed := FeedLines(d, begun, Lines(tail));
    last := LastScanned(d, fed.snap, LastLine(Rest(tail), ending));
    FeedIsFed(d, begun, Lines(tail));
    ScannedLines(d, snap, Lines(tail));
    if fed.state.finished && last.Some? { FinishedConsumes(fed.state, last.value.line); }
  }

  lemma {:induction false} FinishedConsumes(s: State, line: Chat.Line)
    requires s.finished
    ensures Consume(s, line) == s
  {
  }

  /** For every body and every ending: a client accepts the whole stream, message_stop comes
      once and last, and a strict client accepts it exactly if no tool index is
      resumed after text. */
  lemma {:induction false} TranscriptLifecycle(d: Decoder, inputTokens: int, body: Bytes, ending: Ending)
    ensures var r := Transcript(d, inputTokens, body, ending).state;
            && Complete(r, false)
            && (ReceiveAll(r.log, true).Some? <==> NeverResumed(LiveActions(BodyLines(d, body, ending))))
  {
    hide Transcript, Run, BodyLines, AllLines, Complete, LiveActions, NeverResumed;
    var first, snap, rest, last := TranscriptIsRun(d, inputTokens, body, ending);
    RunLifecycle(inputTokens, first, snap, rest, last);
  }

  // ----- The adapter loop -----

  /** A run that aimed at `target` has come to its end: all of the log is out, or the
      client is gone with a proper prefix of it. */
  ghost predicate Arrived(w: Client, snap: Chat.Usage, target: Feed)
    reads w
  {
    (w.log == target.state.log && snap == target.snap) || Gone(w, target.state.log)
  }

  /** A step that must stop the loop. */
  ghost predicate Halted(state: StreamState, w: Client, snap: Chat.Usage, target: Feed)
    reads state, w
  {
    Gone(w, target.state.log) || (state.View(w) == target.state && target.state.finished && snap == target.snap)
  }

  lemma {:induction false} FeedLinesAppend(d: Decoder, f: Feed, a: seq<Bytes>, b: seq<Bytes>)
    ensures FeedLines(d, f, a + b) == FeedLines(d, FeedLines(d, f, a), b)
  {
    if |b| == 0 {
      assert a + b == a;
    } else {
      assert (a + b)[..|a + b| - 1] == a + b[..|b| - 1];
      FeedLinesAppend(d, f, a, b[..|b| - 1]);
    }
  }

  /** What halted after a part of the lines has halted after all of them, and at the end. */
  lemma {:induction false} HaltsEarly(state: StreamState, w: Client, snap: Chat.Usage, here: Feed, target: Feed)
    requires Halted(state, w, snap, here) && here.state.log <= target.state.log
             && (here.state.finished ==> target == here)
    ensures Halted(state, w, snap, target)
  {
  }

  lemma {:induction false} HaltsAll(d: Decoder, f: Feed, a: seq<Bytes>, b: seq<Bytes>)
    ensures FeedLines(d, f, a).state.log <= FeedLines(d, f, a + b).state.log
    ensures FeedLines(d, f, a).state.finished ==> FeedLines(d, f, a + b) == FeedLines(d, f, a)
  {
    FeedLinesAppend(d, f, a, b);
    FeedIsFed(d, FeedLines(d, f, a), b);
  }

  method ConsumeRaw(state: StreamState, w: Client, d: Decoder, line: Bytes, snap: Chat.Usage)
    returns (ok: bool, next: Chat.Usage)
    requires w as object != state && !state.finished
    modifies state, w
    ensures var target := FeedLine(d, Feed(old(state.View(w)), snap), line);
            if ok then Feed(state.View(w), next) == target && !target.state.finished else Halted(state, w, next, target)
  {
    hide Consume;
    next := d.scan(line, snap);
    Observe(state, next, w);
    ok := state.ConsumeLine(w, d.decode(line));
  }

  /** Consume every complete line the buffer holds. */
  method Drain(state: StreamState, w: Client, d: Decoder, buffer: LineBuffer, snap: Chat.Usage)
    returns (ok: bool, next: Chat.Usage)
    requires w as object != state && !state.finished
    modifies state, w, buffer
    ensures var target := FeedLines(d, Feed(old(state.View(w)), snap), Lines(old(buffer.data)));
            if ok then Feed(state.View(w), next) == target && !target.state.finished else Halted(state, w, next, target)
    ensures ok ==> buffer.data == Rest(old(buffer.data))
  {
    hide FeedLine, Lines, Rest;
    next := snap;
    ghost var start := Feed(state.View(w), snap);
    ghost var all := Lines(buffer.data);
    ghost var seen: seq<Bytes> := [];
    while true
      invariant !state.finished
      invariant seen + Lines(buffer.data) == all && Rest(buffer.data) == Rest(old(buffer.data))
      invariant Feed(state.View(w), next) == FeedLines(d, start, seen)
      decreases |buffer.data|
    {
      var line;
      line, ok := buffer.ReadLine();
      if !ok {
        assert seen + [] == seen;
        return true, next;
      }
      ghost var later := Lines(buffer.data);
      Regroup(seen, [line], later);
      assert (seen + [line])[..|seen|] == seen;
      ok, next := ConsumeRaw(state, w, d, line, next);
      if !ok {
        HaltsAll(d, start, seen + [line], later);
        HaltsEarly(state, w, next, FeedLines(d, start, seen + [line]), FeedLines(d, start, all));
        return;
      }
      seen := seen + [line];
    }
  }

  /** The usage, and a last attempt to finish. */
  method Close(state: StreamState, w: Client, snap: Chat.Usage, ghost target: Feed)
    requires w as object != state && Halted(state, w, snap, target)
    modifies state, w
    ensures Arrived(w, snap, target)
  {
    Observe(state, snap, w);
    state.FinishIfNeeded(w);
  }

  /** The unterminated remainder, then the terminal events.  An interruption ends the
      stream like a proper end. */
  method EndOfBody(state: StreamState, w: Client, d: Decoder, rest: Bytes, ending: Ending, snap: Chat.Usage)
    returns (next: Chat.Usage)
    requires w as object != state && !state.finished
    modifies state, w
    ensures Arrived(w, next, Ended(d, Feed(old(state.View(w)), snap), rest, ending))
  {
    hide Consume, Protocol.Finish;
    next := snap;
    ghost var target := Ended(d, Feed(state.View(w), snap), rest, ending);
    var remainder := TrimBytes(rest);
    if ending == Eof && |remainder| > 0 {
      next := d.scan(remainder, snap);
      ghost var fed := Feed(Consume(state.View(w), d.decode(remainder)), next);
      var ok := state.ConsumeLine(w, d.decode(remainder));
      if !ok {
        // The source ignores this and finishes if it still can.
        HaltsEarly(state, w, next, fed, target);
        Close(state, w, next, target);
        return;
      }
    }
    Observe(state, next, w);
    state.FinishIfNeeded(w);
  }

  /** Read the body to its end.  Read may cut it anywhere; what is delivered only
      depends on its bytes. */
  method Pump(state: StreamState, w: Client, d: Decoder, body: SseLines.Upstream, snap: Chat.Usage)
    returns (next: Chat.Usage)
    requires w as object != state && !state.finished
    modifies state, w, body
    ensures Arrived(w, next, Ended(d, FeedLines(d, Feed(old(state.View(w)), snap), Lines(old(body.pending))),
                                   Rest(old(body.pending)), body.ending))
  {
    hide FeedLine, Ended;
    next := snap;
    ghost var start := Feed(state.View(w), snap);
    ghost var whole, seen: Bytes := body.pending, [];
    var buffer := new LineBuffer();
    while true
      invariant fresh(buffer)
      invariant seen + body.pending == whole && !state.finished
      invariant buffer.data == Rest(seen)
      invariant Feed(state.View(w), next) == FeedLines(d, start, Lines(seen))
      decreases |body.pending|
    {
      var chunk, end := body.Read();
      if end.Some? {
        assert seen == whole;
        next := EndOfBody(state, w, d, buffer.data, end.value, next);
        return;
      }
      buffer.Write(chunk);
      ghost var grown := seen + chunk;
      Regroup(seen, chunk, body.pending);
      LinesAppend(seen, chunk);
      FeedLinesAppend(d, start, Lines(seen), Lines(buffer.data));
      var ok;
      ok, next := Drain(state, w, d, buffer, next);
      if !ok {
        LinesAppend(grown, body.pending);
        HaltsAll(d, start, Lines(grown), Lines(Rest(grown) + body.pending));
        ghost var fed := FeedLines(d, start, Lines(whole));
        ghost var target := Ended(d, fed, Rest(whole), body.ending);
        HaltsEarly(state, w, next, FeedLines(d, start, Lines(grown)), fed);
        EndedKeeps(d, fed, Rest(whole), body.ending);
        HaltsEarly(state, w, next, fed, target);
        Close(state, w, next, target);
        return;
      }
      seen := grown;
    }
  }

  lemma {:induction false} EndedKeeps(d: Decoder, f: Feed, rest: Bytes, ending: Ending)
    ensures f.state.finished ==> Ended(d, f, rest, ending) == f
  {
  }

  /** The whole adapter.  A stream starts unless the body is empty, its first event is
      refused, or the headers cannot be sent; then the client receives the log of the
      body, or a proper prefix of it if it goes away. */
  method WriteStream(w: Client, body: SseLines.Upstream, d: Decoder, inputTokens: int)
    returns (started: bool, snap: Chat.Usage)
    requires w.log == []
    modifies w, body
    ensures started <==>
            var event := FirstEvent(old(body.pending));
            event != [] && !d.refused(event) && old(w.capacity) > 0
    ensures !started ==> w.log == [] && snap == NO_USAGE
    ensures started ==> Arrived(w, snap, Transcript(d, inputTokens, old(body.pending), body.ending))
  {
    snap := NO_USAGE;
    ghost var whole := body.pending;
    var event, end := ReadFirstEvent(body);
    started := |event| > 0 && !d.refused(event);
    if !started { return; }
    started := w.WriteHeaders();
    if !started { return; }
    assert whole[..|event|] == event && whole[|event|..] == body.pending;
    snap := Serve(w, body, d, inputTokens, event, end == Some(Eof));
  }

  /** From the first write on; `over` says that the body ended with its first event. */
  method Serve(w: Client, body: SseLines.Upstream, d: Decoder, inputTokens: int, event: Bytes, over: bool)
    returns (snap: Chat.Usage)
    requires w.log == [] && (over ==> body.pending == [] && body.ending == Eof)
    modifies w, body
    ensures Arrived(w, snap, Ended(d, FeedLines(d, Opened(d, inputTokens, event), Lines(old(body.pending))),
                                   Rest(old(body.pending)), body.ending))
  {
    hide FeedLine, Consume, ConsumeAll, Protocol.Finish, Begin, Ended, Lines, Rest;
    snap := EventUsage(d, event);
    ghost var begun := Opened(d, inputTokens, event);
    ghost var fed := FeedLines(d, begun, Lines(body.pending));
    ghost var target := Ended(d, fed, Rest(body.pending), body.ending);
    FeedIsFed(d, begun, Lines(body.pending));
    EndedKeeps(d, fed, Rest(body.pending), body.ending);
    var state := new StreamState(inputTokens);
    var ok := Announce(state, w, inputTokens, snap);
    if !ok { return; }
    ok := ConsumeEvent(state, w, DecodeAll(d, EventLines(event)));
    if !ok {
      HaltsEarly(state, w, snap, begun, target);
      Close(state, w, snap, target);
      return;
    }
    if over {
      NothingLeft(d, begun);
      Observe(state, snap, w);
      state.FinishIfNeeded(w);
      return;
    }
    snap := Pump(state, w, d, body, snap);
  }

  lemma {:induction false} NothingLeft(d: Decoder, f: Feed)
    requires !f.state.finished
    ensures FeedLines(d, f, Lines([])) == f
    ensures Ended(d, f, Rest([]), Eof) == Feed(Protocol.Finish(Overlay(f.state, f.snap)), f.snap)
  {
  }

  /** message_start, with the usage of the first event. */
  method Announce(state: StreamState, w: Client, inputTokens: int, snap: Chat.Usage) returns (ok: bool)
    requires w as object != state && w.log == []
    requires state.View(w) == NewState(inputTokens)
    modifies state, w
    ensures ok ==> state.View(w) == Begin(inputTokens, snap) && !state.finished
    ensures !ok ==> Gone(w, Begin(inputTokens, snap).log)
  {
    Observe(state, snap, w);
    ok := w.WriteEvent(MessageStart(state.usage.input));
  }

  /** Two readings of the same bytes by clients that stay deliver the same events and
      usage, however the reads cut them. */
  method ChunkingIndependence(bytes: Bytes, ending: Ending, d: Decoder, inputTokens: int, w1: Client, w2: Client)
    returns (snap1: Chat.Usage, snap2: Chat.Usage)
    requires w1 != w2 && w1.log == w2.log == [] && w1.capacity > 0 && w2.capacity > 0
    modifies w1, w2
    ensures w1.capacity > 0 && w2.capacity > 0 ==> w1.log == w2.log && snap1 == snap2
  {
    var b1 := new SseLines.Upstream(bytes, ending);
    var b2 := new SseLines.Upstream(bytes, ending);
    var started1, started2;
    started1, snap1 := WriteStream(w1, b1, d, inputTokens);
    started2, snap2 := WriteStream(w2, b2, d, inputTokens);
  }
}
