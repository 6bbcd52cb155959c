/** The lines of an upstream body as both adapters read them. */
module UpstreamLines {
  import opened SseLines
  import opened ResponsesProtocol

  /** The JSON side of a stream: what a line says, the usage snapshot after it, and
      whether a first event must be refused. */
  datatype Decoder = Decoder(
    decode: Bytes -> Line,
    scan: (Bytes, Usage) -> Usage,
    refused: Bytes -> bool)

  const NO_USAGE := Usage(0, 0, 0, 0)

  function DecodeAll(d: Decoder, lines: seq<Bytes>): seq<Line> {
    seq(|lines|, i requires 0 <= i < |lines| => d.decode(lines[i]))
  }

  function ScanAll(d: Decoder, lines: seq<Bytes>): Usage {
    if |lines| == 0 then NO_USAGE else d.scan(lines[|lines| - 1], ScanAll(d, lines[..|lines| - 1]))
  }

  /** The first event is consumed by its lines, the unterminated one included. */
  function EventLines(event: Bytes): seq<Bytes> {
    Lines(event) + [TrimCR(Rest(event))]
  }

  /** The usage of the first event, which is scanned as a whole. */
  function EventUsage(d: Decoder, event: Bytes): Usage {
    ScanAll(d, RawLines(event) + [Rest(event)])
  }

  predicate Errs(lines: seq<Line>) {
    exists i :: 0 <= i < |lines| && lines[i].UpstreamError?
  }

  /** The unterminated last line counts when the body ended properly and it is not blank. */
  function Remainder(rest: Bytes, ending: Ending): seq<Bytes> {
    if ending.Eof? && TrimBytes(rest) != [] then [TrimBytes(rest)] else []
  }

  /** Every line of a body, decoded. */
  function BodyLines(d: Decoder, body: Bytes, ending: Ending): seq<Line> {
    var event := FirstEvent(body);
    var rest := body[|event|..];
    DecodeAll(d, EventLines(event)) + DecodeAll(d, Lines(rest)) + DecodeAll(d, Remainder(Rest(rest), ending))
  }

  lemma {:induction false} DecodeSnoc(d: Decoder, lines: seq<Bytes>)
    requires |lines| > 0
    ensures var n := |lines| - 1; DecodeAll(d, lines) == DecodeAll(d, lines[..n]) + [d.decode(lines[n])]
  {
  }
}
