/** Line splitting of server-sent event bodies, and the mutable buffers that do
    it piece by piece. */
module SseLines {
  import opened Wrappers

  /** A byte string, one character for each byte. */
  type Bytes = seq<char>

  const LF := '\n'
  const CR := '\r'

  // ----- Splitting a whole text -----

  /** Position of the first line feed, or the length when there is none. */
  function FirstLF(s: Bytes): (i: nat)
    ensures i <= |s|
  {
    if |s| == 0 || s[0] == LF then 0 else 1 + FirstLF(s[1..])
  }

  /** The terminated lines, without their line feeds. */
  function RawLines(s: Bytes): seq<Bytes>
    decreases |s|
  {
    var i := FirstLF(s);
    if i == |s| then [] else [s[..i]] + RawLines(s[i + 1..])
  }

  /** What follows the last line feed. */
  function Rest(s: Bytes): Bytes
    decreases |s|
  {
    var i := FirstLF(s);
    if i == |s| then s else Rest(s[i + 1..])
  }

  function TrimCR(line: Bytes): Bytes {
    if |line| > 0 && line[|line| - 1] == CR then TrimCR(line[..|line| - 1]) else line
  }

  /** The terminated lines, without line feeds and trailing carriage returns. */
  function Lines(s: Bytes): seq<Bytes>
    decreases |s|
  {
    var i := FirstLF(s);
    if i == |s| then [] else [TrimCR(s[..i])] + Lines(s[i + 1..])
  }

  lemma {:induction false} TrimmedCons(line: Bytes, lines: seq<Bytes>, raw: seq<Bytes>)
    requires |lines| == |raw| && forall k :: 0 <= k < |lines| ==> lines[k] == TrimCR(raw[k])
    ensures forall k :: 0 <= k < |lines| + 1 ==> ([TrimCR(line)] + lines)[k] == TrimCR(([line] + raw)[k])
  {
  }

  /** The lines a reader gets are the pieces between line feeds, each without its CRs. */
  lemma {:induction false} LinesAreTrimmed(s: Bytes)
    ensures |Lines(s)| == |RawLines(s)|
    ensures forall k :: 0 <= k < |Lines(s)| ==> Lines(s)[k] == TrimCR(RawLines(s)[k])
    decreases |s|
  {
    hide Lines, RawLines, TrimCR, FirstLF;
    var i := FirstLF(s);
    FirstLine(s);
    FirstRaw(s);
    if i < |s| {
      LinesAreTrimmed(s[i + 1..]);
      TrimmedCons(s[..i], Lines(s[i + 1..]), RawLines(s[i + 1..]));
    }
  }

  /** The inverse of splitting: every line followed by a line feed. */
  function Unlines(lines: seq<Bytes>): Bytes {
    if |lines| == 0 then [] else lines[0] + [LF] + Unlines(lines[1..])
  }

  predicate Unbroken(line: Bytes) { LF !in line }

  lemma {:induction false} FirstLFAt(line: Bytes, tail: Bytes)
    requires Unbroken(line)
    ensures FirstLF(line + [LF] + tail) == |line|
  {
    var s := line + [LF] + tail;
    if |line| > 0 {
      assert line[0] in line;
      assert s[1..] == line[1..] + [LF] + tail;
      FirstLFAt(line[1..], tail);
    }
  }

  lemma {:induction false} NoLF(s: Bytes)
    requires Unbroken(s)
    ensures FirstLF(s) == |s|
  {
    if |s| > 0 {
      assert s[0] in s;
      NoLF(s[1..]);
    }
  }

  lemma {:induction false} FirstLFCuts(s: Bytes)
    ensures var i := FirstLF(s); Unbroken(s[..i]) && (i < |s| ==> s == s[..i] + [LF] + s[i + 1..])
  {
    if |s| > 0 && s[0] != LF {
      FirstLFCuts(s[1..]);
      assert s[..FirstLF(s)] == [s[0]] + s[1..][..FirstLF(s[1..])];
    }
  }

  lemma {:induction false} FirstLine(s: Bytes)
    ensures var i := FirstLF(s);
            if i < |s| then Lines(s) == [TrimCR(s[..i])] + Lines(s[i + 1..]) && Rest(s) == Rest(s[i + 1..])
            else Lines(s) == [] && Rest(s) == s
  {
  }

  /** Splitting loses nothing. */
  lemma {:induction false} SplitThenJoin(s: Bytes)
    ensures Unlines(RawLines(s)) + Rest(s) == s
    ensures Unbroken(Rest(s)) && forall line :: line in RawLines(s) ==> Unbroken(line)
    decreases |s|
  {
    var i := FirstLF(s);
    FirstLFCuts(s);
    if i < |s| {
      var head, tail := s[..i], s[i + 1..];
      SplitThenJoin(tail);
      var raw := RawLines(tail);
      assert RawLines(s) == [head] + raw;
      assert ([head] + raw)[1..] == raw;
      assert Unlines([head] + raw) == head + [LF] + Unlines(raw);
      Regroup(head + [LF], Unlines(raw), Rest(tail));
    }
  }

  /** Splitting is the only way to read a text as lines: any decomposition into
      pieces free of line feeds is the one it finds. */
  lemma {:induction false} JoinThenSplit(lines: seq<Bytes>, rest: Bytes)
    requires Unbroken(rest) && forall line :: line in lines ==> Unbroken(line)
    ensures RawLines(Unlines(lines) + rest) == lines
    ensures Rest(Unlines(lines) + rest) == rest
  {
    var s := Unlines(lines) + rest;
    if |lines| == 0 {
      assert s == rest;
      NoLF(s);
    } else {
      var tail := Unlines(lines[1..]) + rest;
      JoinThenSplit(lines[1..], rest);
      Regroup(lines[0] + [LF], Unlines(lines[1..]), rest);
      FirstLFAt(lines[0], tail);
      assert s[..|lines[0]|] == lines[0] && s[|lines[0]| + 1..] == tail;
      assert lines == [lines[0]] + lines[1..];
    }
  }

  /** Chunking independence: reading on from the unfinished rest of a text gives
      the lines of the whole. */
  lemma {:induction false} LinesAppend(a: Bytes, b: Bytes)
    ensures Lines(a + b) == Lines(a) + Lines(Rest(a) + b)
    ensures Rest(a + b) == Rest(Rest(a) + b)
    decreases |a|
  {
    hide Lines, Rest, FirstLF, TrimCR;
    var i := FirstLF(a);
    FirstLine(a);
    FirstLine(a + b);
    if i < |a| {
      FirstLFCuts(a);
      Regroup(a[..i] + [LF], a[i + 1..], b);
      FirstLFAt(a[..i], a[i + 1..] + b);
      assert (a + b)[..i] == a[..i] && (a + b)[i + 1..] == a[i + 1..] + b;
      LinesAppend(a[i + 1..], b);
    }
  }

  /** bytes.TrimSpace on ASCII white space. */
  function TrimBytes(s: Bytes): Bytes
    decreases |s|
  {
    if |s| == 0 then s
    else if IsBlank(s[0]) then TrimBytes(s[1..])
    else if IsBlank(s[|s| - 1]) then TrimBytes(s[..|s| - 1])
    else s
  }

  predicate IsBlank(b: char) { b == ' ' || '\t' <= b <= '\r' }

  // ----- Reading line by line -----

  class LineBuffer {
    var data: Bytes

    constructor ()
      ensures data == []
    {
      data := [];
    }

    method Write(chunk: Bytes)
      modifies this
      ensures data == old(data) + chunk
    {
      data := data + chunk;
    }

    /** The next complete line, or ok false when no line feed has arrived. */
    method ReadLine() returns (line: Bytes, ok: bool)
      modifies this
      ensures ok <==> LF in old(data)
      ensures ok ==> Lines(old(data)) == [line] + Lines(data) && Rest(old(data)) == Rest(data)
      ensures ok ==> |data| < |old(data)|
      ensures !ok ==> data == old(data) && Lines(data) == [] && Rest(data) == data
    {
      var index := FirstLF(data);
      FirstLine(data);
      FirstLFCuts(data);
      if index == |data| {
        return [], false;
      }
      line := TrimCR(data[..index]);
      data := data[index + 1..];
      ok := true;
    }
  }

  // ----- The upstream body -----

  datatype Ending = Eof | Interrupted

  /** An upstream body: the bytes it will still deliver, then how it ends.  Read
      cuts them at arbitrary places. */
  class Upstream {
    var pending: Bytes
    const ending: Ending

    constructor (body: Bytes, ending: Ending)
      ensures pending == body && this.ending == ending
    {
      pending, this.ending := body, ending;
    }

    /** Some bytes, or none and the ending. */
    method Read() returns (chunk: Bytes, end: Option<Ending>)
      modifies this
      ensures chunk + pending == old(pending)
      ensures end.Some? <==> old(pending) == []
      ensures end.Some? ==> end.value == ending
      ensures end.None? ==> |pending| < |old(pending)|
    {
      if |pending| == 0 {
        return [], Some(ending);
      }
      var n :| 0 < n <= |pending|;
      chunk, pending := pending[..n], pending[n..];
      end := None;
    }

    /** Everything through the next line feed; the ending comes with a line that
        has none. */
    method ReadBytes() returns (line: Bytes, end: Option<Ending>)
      modifies this
      ensures var i := FirstLF(old(pending));
              if i < |old(pending)|
              then line == old(pending)[..i + 1] && pending == old(pending)[i + 1..] && end == None
              else line == old(pending) && pending == [] && end == Some(ending)
    {
      var i := FirstLF(pending);
      if i < |pending| {
        line, pending, end := pending[..i + 1], pending[i + 1..], None;
      } else {
        line, pending, end := pending, [], Some(ending);
      }
    }
  }

  // ----- The first event -----

  predicate IsEventBoundary(line: Bytes) {
    |line| > 0 && forall i :: 0 <= i < |line| ==> line[i] == CR || line[i] == LF
  }

  /** The text through its first blank line, or all of it. */
  function FirstEvent(s: Bytes): (e: Bytes)
    ensures e <= s
    decreases |s|
  {
    var i := FirstLF(s);
    if i == |s| then s
    else if IsEventBoundary(s[..i + 1]) then s[..i + 1]
    else
      var e := s[..i + 1] + FirstEvent(s[i + 1..]);
      assert s == s[..i + 1] + s[i + 1..];
      e
  }

  lemma {:induction false} FirstEventStep(s: Bytes)
    ensures var i := FirstLF(s);
            FirstEvent(s) == if i == |s| then s
                             else if IsEventBoundary(s[..i + 1]) then s[..i + 1]
                             else s[..i + 1] + FirstEvent(s[i + 1..])
  {
  }

  method ReadFirstEvent(reader: Upstream) returns (event: Bytes, end: Option<Ending>)
    modifies reader
    ensures event == FirstEvent(old(reader.pending))
    ensures event + reader.pending == old(reader.pending)
    ensures end.Some? ==> end.value == reader.ending && reader.pending == []
    ensures end.None? ==> |event| > 0
  {
    hide FirstEvent;
    event := [];
    while true
      invariant event + reader.pending == old(reader.pending)
      invariant event + FirstEvent(reader.pending) == FirstEvent(old(reader.pending))
      decreases |reader.pending|
    {
      FirstEventStep(reader.pending);
      ghost var before, seen := reader.pending, event;
      var line;
      line, end := reader.ReadBytes();
      event := event + line;
      assert before == line + reader.pending;
      Regroup(seen, line, reader.pending);
      if IsEventBoundary(line) || end.Some? {
        return;
      }
      Regroup(seen, line, FirstEvent(reader.pending));
    }
  }

  /** Position of the first blank line. */
  function FirstBlank(lines: seq<Bytes>): (n: nat)
    ensures n <= |lines|
    ensures forall i :: 0 <= i < n ==> TrimCR(lines[i]) != []
    ensures n < |lines| ==> TrimCR(lines[n]) == []
  {
    if |lines| == 0 || TrimCR(lines[0]) == [] then 0 else 1 + FirstBlank(lines[1..])
  }

  /** The first event is the lines of the text up to and including the first
      blank one, and the whole text when there is none. */
  lemma {:induction false} FirstEventEndsAtBlankLine(s: Bytes)
    ensures var raw := RawLines(s); var n := FirstBlank(raw);
            FirstEvent(s) == if n < |raw| then Unlines(raw[..n + 1])
                             else s
    decreases |s|
  {
    hide FirstEvent, RawLines, FirstBlank, Unlines, IsEventBoundary, FirstLF, TrimCR;
    var i := FirstLF(s);
    FirstEventStep(s);
    FirstRaw(s);
    if i < |s| {
      var content, tail := s[..i], s[i + 1..];
      FirstLFCuts(s);
      assert s[..i + 1] == content + [LF];
      BoundaryIsBlank(content);
      FirstBlankCons(content, RawLines(tail));
      UnlinesFirst(content, RawLines(tail), FirstBlank(RawLines(tail)));
      if TrimCR(content) != [] { FirstEventEndsAtBlankLine(tail); }
    }
  }

  lemma {:induction false} FirstRaw(s: Bytes)
    ensures var i := FirstLF(s); RawLines(s) == if i < |s| then [s[..i]] + RawLines(s[i + 1..]) else []
  {
  }

  lemma {:induction false} FirstBlankCons(line: Bytes, lines: seq<Bytes>)
    ensures FirstBlank([line] + lines) == if TrimCR(line) == [] then 0 else 1 + FirstBlank(lines)
  {
    assert ([line] + lines)[1..] == lines;
  }

  lemma {:induction false} UnlinesFirst(content: Bytes, lines: seq<Bytes>, n: nat)
    requires n <= |lines|
    ensures Unlines(([content] + lines)[..1]) == content + [LF]
    ensures n < |lines| ==> Unlines(([content] + lines)[..n + 2]) == content + [LF] + Unlines(lines[..n + 1])
  {
    assert ([content] + lines)[..1] == [content];
    assert Unlines([content]) == content + [LF] + Unlines([]);
    if n < |lines| {
      assert ([content] + lines)[..n + 2] == [content] + lines[..n + 1];
      assert ([content] + lines[..n + 1])[1..] == lines[..n + 1];
    }
  }

  lemma {:induction false} BoundaryIsBlank(content: Bytes)
    requires Unbroken(content)
    ensures IsEventBoundary(content + [LF]) <==> TrimCR(content) == []
  {
    var line := content + [LF];
    if |content| > 0 {
      var shorter := content[..|content| - 1];
      var last := content[|content| - 1];
      assert last in content && last != LF && line[|content| - 1] == last;
      if last == CR {
        BoundaryIsBlank(shorter);
        assert forall i :: 0 <= i < |shorter| ==> (shorter + [LF])[i] == line[i];
      }
    }
  }
}
