/** The plain relay: an upstream body goes to the client byte for byte while its
    lines are scanned on the side. */
module CopyStream {
  import opened Wrappers
  import opened SseLines
  import opened SseWriter

  /** What the client has received: the chunks written, joined. */
  function Received(chunks: seq<Bytes>): Bytes {
    if |chunks| == 0 then [] else Received(chunks[..|chunks| - 1]) + chunks[|chunks| - 1]
  }

  function ScanLines<S>(scan: (Bytes, S) -> S, snap: S, lines: seq<Bytes>): S {
    if |lines| == 0 then snap else scan(lines[|lines| - 1], ScanLines(scan, snap, lines[..|lines| - 1]))
  }

  /** The snapshot after the bytes that follow the first event: every complete line, and
      at a proper end the unterminated remainder. */
  function RestSnapshot<S>(scan: (Bytes, S) -> S, snap: S, rest: Bytes, ending: Ending): S {
    var all := ScanLines(scan, snap, Lines(rest));
    if ending.Eof? && TrimBytes(Rest(rest)) != [] then scan(TrimBytes(Rest(rest)), all) else all
  }

  /** The snapshot of a body, from its bytes alone. */
  function BodySnapshot<S>(scan: (Bytes, S) -> S, zero: S, body: Bytes, ending: Ending): S {
    var event := FirstEvent(body);
    RestSnapshot(scan, ScanLines(scan, zero, RawLines(event) + [Rest(event)]), body[|event|..], ending)
  }

  lemma {:induction false} ReceivedSnoc(chunks: seq<Bytes>, chunk: Bytes)
    ensures Received(chunks + [chunk]) == Received(chunks) + chunk
  {
    assert (chunks + [chunk])[..|chunks|] == chunks;
  }

  lemma {:induction false} ScanLinesAppend<S>(scan: (Bytes, S) -> S, snap: S, a: seq<Bytes>, b: seq<Bytes>)
    ensures ScanLines(scan, snap, a + b) == ScanLines(scan, ScanLines(scan, snap, a), b)
  {
    if |b| == 0 {
      assert a + b == a;
    } else {
      assert (a + b)[..|a + b| - 1] == a + b[..|b| - 1];
      ScanLinesAppend(scan, snap, a, b[..|b| - 1]);
    }
  }

  /** Scan every complete line the buffer holds. */
  method ScanBuffered<S>(buffer: LineBuffer, scan: (Bytes, S) -> S, snap: S) returns (next: S)
    modifies buffer
    ensures next == ScanLines(scan, snap, Lines(old(buffer.data))) && buffer.data == Rest(old(buffer.data))
  {
    next := snap;
    ghost var seen: seq<Bytes> := [];
    while true
      invariant seen + Lines(buffer.data) == Lines(old(buffer.data)) && Rest(buffer.data) == Rest(old(buffer.data))
      invariant next == ScanLines(scan, snap, seen)
      decreases |buffer.data|
    {
      var line, ok := buffer.ReadLine();
      if !ok {
        assert seen + [] == seen;
        return;
      }
      Regroup(seen, [line], Lines(buffer.data));
      assert (seen + [line])[..|seen|] == seen;
      next := scan(line, next);
      seen := seen + [line];
    }
  }

  /** The relay loop; `sent` is what the client has already. */
  method RelayRest<S>(w: Connection<Bytes>, body: Upstream, scan: (Bytes, S) -> S, first: S)
    returns (complete: bool, snap: S)
    modifies w, body
    ensures Received(w.log) <= Received(old(w.log)) + old(body.pending)
    ensures complete ==> Received(w.log) == Received(old(w.log)) + old(body.pending)
    ensures complete ==> snap == RestSnapshot(scan, first, old(body.pending), body.ending)
    ensures !complete ==> w.capacity == 0
  {
    ghost var sent, rest := Received(w.log), body.pending;
    var buffer := new LineBuffer();
    ghost var seen: Bytes := [];
    snap := first;
    while true
      invariant fresh(buffer) && buffer.data == Rest(seen) && seen + body.pending == rest
      invariant Received(w.log) == sent + seen
      invariant snap == ScanLines(scan, first, Lines(seen))
      decreases |body.pending|
    {
      var chunk, over := body.Read();
      if over.Some? {
        assert seen == rest;
        if over == Some(Eof) && |TrimBytes(buffer.data)| > 0 {
          snap := scan(TrimBytes(buffer.data), snap);
        }
        return true, snap;
      }
      buffer.Write(chunk);
      LinesAppend(seen, chunk);
      ScanLinesAppend(scan, first, Lines(seen), Lines(buffer.data));
      snap := ScanBuffered(buffer, scan, snap);
      ReceivedSnoc(w.log, chunk);
      Regroup(seen, chunk, body.pending);
      Regroup(sent, seen, chunk);
      var ok := w.WriteEvent(chunk);
      if !ok {
        return false, snap;
      }
      seen := seen + chunk;
    }
  }

  /** Relay a body.  Unless the first event is empty or refused, or the headers cannot be
      sent, the client receives exactly the upstream bytes in order, however reads cut
      them, and the snapshot is that of the bytes; a client that goes away has a
      prefix. */
  method Relay<S>(w: Connection<Bytes>, body: Upstream, scan: (Bytes, S) -> S, zero: S, refused: Bytes -> bool)
    returns (started: bool, complete: bool, snap: S)
    requires w.log == []
    modifies w, body
    ensures started <==>
            var event := FirstEvent(old(body.pending));
            event != [] && !refused(event) && old(w.capacity) > 0
    ensures !started ==> w.log == [] && snap == zero && !complete
    ensures Received(w.log) <= old(body.pending)
    ensures complete ==> Received(w.log) == old(body.pending)
    ensures complete ==> snap == BodySnapshot(scan, zero, old(body.pending), body.ending)
    ensures started && !complete ==> w.capacity == 0
  {
    snap, complete := zero, false;
    ghost var whole := body.pending;
    var event, end := ReadFirstEvent(body);
    started := |event| > 0 && !refused(event);
    if !started { return; }
    started := w.WriteHeaders();
    if !started { return; }
    assert whole[..|event|] == event && whole[|event|..] == body.pending;
    snap := ScanLines(scan, zero, RawLines(event) + [Rest(event)]);
    ReceivedSnoc([], event);
    assert [] + [event] == [event] && Received([]) + event == event;
    var ok := w.WriteEvent(event);
    if !ok { return; }
    if end == Some(Eof) {
      assert Lines([]) == [] && Rest([]) == [];
      return true, true, snap;
    }
    complete, snap := RelayRest(w, body, scan, snap);
  }
}
