/** A stream and its non-stream form say the same. */
module ResponsesAgreement {
  import opened Wrappers
  import opened SseLines
  import opened ResponsesProtocol
  import opened UpstreamLines
  import opened ResponsesStream
  import opened ResponsesResponse
  import opened ResponsesWriteStream
  import Protocol = ResponsesProtocol

  lemma {:induction false} OrderedPrefix(a: seq<Line>, b: seq<Line>)
    requires InOrder(a + b)
    ensures InOrder(a)
  {
    forall i | 0 <= i < |a| ensures a[i] == (a + b)[i] {}
  }

  lemma {:induction false} OrderedLast(lines: seq<Line>, line: Line)
    requires InOrder(lines + [line])
    ensures Accumulate(lines + [line]) == AddLine(Accumulate(lines), line)
    ensures InOrder(lines) && !line.UpstreamError?
    ensures line.Chunk? && ReasoningOf(line) != "" ==> Accumulate(lines).content == "" && Accumulate(lines).calls == []
    ensures line.Chunk? && line.content != "" ==> Accumulate(lines).calls == []
  {
    var all := lines + [line];
    assert all[..|lines|] == lines && all[|lines|] == line;
    OrderedStep(all);
  }

  lemma {:induction false} ConsumeFollows(s: Stream, lines: seq<Line>, done: seq<Line>)
    requires Follows(s, Accumulate(done)) && InOrder(done + lines)
    ensures Follows(ConsumeAll(s, lines), Accumulate(done + lines))
  {
    if |lines| == 0 {
      assert done + lines == done;
    } else {
      var n := |lines| - 1;
      assert done + lines == (done + lines[..n]) + [lines[n]];
      OrderedLast(done + lines[..n], lines[n]);
      ConsumeFollows(s, lines[..n], done);
      LineFollows(ConsumeAll(s, lines[..n]), Accumulate(done + lines[..n]), lines[n]);
    }
  }

  lemma {:induction false} UsageFollows(s: Stream, t: Total, snap: Usage)
    requires Follows(s, t)
    ensures Follows(WithUsage(s, snap), t) && !s.finished
  {
  }

  lemma {:induction false} FeedFollows(d: Decoder, f: Feed, lines: seq<Bytes>, done: seq<Line>)
    requires Follows(f.stream, Accumulate(done)) && InOrder(done + DecodeAll(d, lines))
    ensures Follows(FeedLines(d, f, lines).stream, Accumulate(done + DecodeAll(d, lines)))
  {
    hide Follows, Accumulate, AddLine, InOrder, Consume;
    if |lines| == 0 {
      assert done + DecodeAll(d, lines) == done;
    } else {
      var n := |lines| - 1;
      var earlier := done + DecodeAll(d, lines[..n]);
      DecodeSnoc(d, lines);
      assert done + DecodeAll(d, lines) == earlier + [d.decode(lines[n])];
      OrderedLast(earlier, d.decode(lines[n]));
      FeedFollows(d, f, lines[..n], done);
      var g := FeedLines(d, f, lines[..n]);
      var s := WithUsage(g.stream, d.scan(lines[n], g.snap));
      UsageFollows(g.stream, Accumulate(earlier), d.scan(lines[n], g.snap));
      LineFollows(s, Accumulate(earlier), d.decode(lines[n]));
    }
  }

  lemma {:induction false} FeedOne(d: Decoder, f: Feed, line: Bytes)
    ensures FeedLines(d, f, [line]) == FeedLine(d, f, line)
  {
    assert [line][..0] == [];
    assert FeedLines(d, f, []) == f;
  }

  /** The stream just before its end follows the total of all its lines. */
  lemma {:induction false} BodyFollows(d: Decoder, body: Bytes) returns (f: Feed)
    requires InOrder(BodyLines(d, body, Eof))
    ensures Transcript(d, body, Eof).stream == Protocol.Finish(WithUsage(f.stream, f.snap))
    ensures Follows(f.stream, Accumulate(BodyLines(d, body, Eof)))
  {
    hide FeedLine, Consume, FirstEvent, Lines, RawLines, Rest, TrimBytes;
    var event := FirstEvent(body);
    var rest := body[|event|..];
    var first, later, last := DecodeAll(d, EventLines(event)), DecodeAll(d, Lines(rest)),
      DecodeAll(d, Remainder(Rest(rest), Eof));
    var snap := EventUsage(d, event);
    var start := Start(MergeUsage(NO_USAGE, snap));
    OrderedPrefix(first + later, last);
    OrderedPrefix(first, later);
    assert [] + first == first;
    assert Indexes([]) == [];
    ConsumeFollows(start, first, []);
    var g := Opened(d, event);
    FeedFollows(d, g, Lines(rest), first);
    var h := FeedLines(d, g, Lines(rest));
    FeedFollows(d, h, Remainder(Rest(rest), Eof), first + later);
    f := FeedLines(d, h, Remainder(Rest(rest), Eof));
    FeedOne(d, h, TrimBytes(Rest(rest)));
  }

  /** An item without identifiers of any kind. */
  function Bare(item: Item): Item {
    if item.FunctionCall? then Anonymous(item.(callId := Minted(0))) else Anonymous(item)
  }

  function BareAll(items: seq<Item>): (r: seq<Item>)
    ensures |r| == |items|
  {
    seq(|items|, i requires 0 <= i < |items| => Bare(items[i]))
  }

  predicate AnyLate(calls: seq<Gathered>) {
    exists i :: 0 <= i < |calls| && calls[i].late
  }

  /** A gathered call without an id has no late id. */
  predicate LateHasId(calls: seq<Gathered>) {
    forall i :: 0 <= i < |calls| && calls[i].late ==> calls[i].id != ""
  }

  lemma {:induction false} GatherLate(calls: seq<Gathered>, ds: seq<ToolDelta>)
    requires LateHasId(calls)
    ensures LateHasId(GatherAll(calls, ds))
  {
    if |ds| > 0 { GatherLate(calls, ds[..|ds| - 1]); }
  }

  lemma {:induction false} AccumulateLate(lines: seq<Line>)
    ensures LateHasId(Accumulate(lines).calls)
  {
    if |lines| > 0 {
      AccumulateLate(lines[..|lines| - 1]);
      if lines[|lines| - 1].Chunk? {
        GatherLate(Accumulate(lines[..|lines| - 1]).calls, lines[|lines| - 1].calls);
      }
    }
  }

  /** A stream that follows t has the output items of t's message, position by
      position; only the call ids that came late differ. */
  lemma {:induction false} FollowsItem(s: Stream, t: Total, k: nat)
    requires Follows(s, t) && LateHasId(t.calls) && k < |s.entries|
    ensures k < |MessageItems(MessageOf(t))| == |s.entries|
    ensures Bare(Finished(s.entries[k])) == Bare(MessageItems(MessageOf(t))[k])
    ensures Anonymous(Finished(s.entries[k])) == MessageItems(MessageOf(t))[k]
            <==> (k >= Prose(t) ==> !t.calls[k - Prose(t)].late)
  {
    hide Join;
    var items := MessageItems(MessageOf(t));
    if k >= Prose(t) {
      var j := k - Prose(t);
      assert CallMatches(s.entries[Prose(t) + j], t.calls[j]);
      assert items[k] == CallItems(ChatCalls(t.calls))[j];
    }
  }

  lemma {:induction false} OutputsAgree(s: Stream, t: Total)
    requires Follows(s, t) && LateHasId(t.calls)
    ensures var output := Outputs(s.entries); var items := MessageItems(MessageOf(t));
            BareAll(output) == BareAll(items) && (AnonymousAll(output) == items <==> !AnyLate(t.calls))
  {
    var output := Outputs(s.entries);
    var items := MessageItems(MessageOf(t));
    forall k | 0 <= k < |s.entries|
      ensures |items| == |s.entries| && Bare(output[k]) == Bare(items[k])
      ensures Anonymous(output[k]) == items[k] <==> (k >= Prose(t) ==> !t.calls[k - Prose(t)].late)
    {
      FollowsItem(s, t, k);
    }
    assert |items| == |s.entries|;
    if AnyLate(t.calls) {
      var j :| 0 <= j < |t.calls| && t.calls[j].late;
      assert AnonymousAll(output)[Prose(t) + j] != items[Prose(t) + j];
    } else {
      assert AnonymousAll(output) == items;
    }
  }

  /** Agreement.  For every body whose lines carry reasoning first, then content,
      then tool deltas (indexes interleaved freely), the terminal output of the
      stream is that of the non-stream conversion of the accumulated message; call
      ids agree exactly when no call gets its id after its first delta. */
  lemma {:induction false} StreamAgreesWithMessage(d: Decoder, body: Bytes)
    requires InOrder(BodyLines(d, body, Eof))
    ensures var s := Transcript(d, body, Eof).stream; var t := Accumulate(BodyLines(d, body, Eof));
            && |s.log| > 0
            && EndsAs(s.log[|s.log| - 1], MessageItems(MessageOf(t)), !AnyLate(t.calls), StatusOf(t.finishReason))
  {
    var f := BodyFollows(d, body);
    AccumulateLate(BodyLines(d, body, Eof));
    OutputsAgree(f.stream, Accumulate(BodyLines(d, body, Eof)));
  }

  /** A terminal event with this status whose output is these items: always up to
      identifiers, and up to generated identifiers exactly when `ids` holds. */
  predicate EndsAs(last: Payload, items: seq<Item>, ids: bool, status: Status) {
    && (last.Completed? || last.Incomplete?)
    && BareAll(last.output) == BareAll(items)
    && (AnonymousAll(last.output) == items <==> ids)
    && status == (if last.Completed? then StatusCompleted else StatusIncomplete(last.reason))
  }

  /** A call whose first delta has no id keeps its generated one: the id that comes
      later is lost, although the source has a branch to fill it in. */
  lemma {:induction false} LateIdIsLost(s: Stream, t: Total, a: ToolDelta, b: ToolDelta)
    requires Follows(s, t) && a.index !in s.active && a.id == ""
    requires b.index == a.index && b.id != ""
    ensures var calls := Gather(Gather(t.calls, a), b); var r := AddCall(AddCall(s, a), b); var p := |t.calls|;
            && |calls| == p + 1 && |r.entries| == Prose(t) + p + 1
            && calls[p].id == b.id && calls[p].late
            && r.entries[Prose(t) + p].callId.Minted?
  {
    hide Follows, AddCall, Gather;
    var t1 := t.(calls := Gather(t.calls, a));
    var t2 := t1.(calls := Gather(t1.calls, b));
    FollowsActive(s, t);
    GatherLateId(t.calls, a, b);
    CallFollows(s, t, a);
    CallFollows(AddCall(s, a), t1, b);
    FollowsCall(AddCall(AddCall(s, a), b), t2, |t.calls|);
  }

  /** A call gathered without an id, and its id after that. */
  lemma {:induction false} GatherLateId(calls: seq<Gathered>, a: ToolDelta, b: ToolDelta)
    requires a.index !in Indexes(calls) && a.id == "" && b.index == a.index && b.id != ""
    ensures var all := Gather(Gather(calls, a), b); var p := |calls|;
            |all| == p + 1 && all[p].id == b.id && all[p].late
  {
    PositionIff(Indexes(calls), a.index);
    var once := Gather(calls, a);
    assert once == calls + [Gathered(a.index, "", false, a.name, a.arguments)];
    assert Indexes(once) == Indexes(calls) + [a.index];
    ResponsesStream.PositionSnoc(Indexes(calls), a.index, b.index);
  }
}
