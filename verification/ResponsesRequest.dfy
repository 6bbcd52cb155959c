/** Responses input items become chat messages: reading the items, then placing
    the messages so that tool answers follow their calls. */
module ResponsesRequest {
  import opened Wrappers
  import opened ResponsesProtocol

  // ----- Decoded input -----

  datatype Part = Part(kind: string, text: string)

  /** A content or summary field: missing, a string, a list of parts, or anything else. */
  datatype Content = Absent | Plain(text: string) | Parts(parts: seq<Part>) | Malformed

  /** The type field of an item. */
  datatype ItemType = NoType | MessageType | ReasoningType | CallType | OutputType | OtherType(name: string)

  datatype InputItem = InputItem(
    kind: ItemType, role: string, content: Content, summary: Content,
    callId: CallId, name: string, arguments: string, output: string)

  /** The input field of a request, decoded; an item that is not an object is None. */
  datatype Input = NoInput | TextInput(text: string) | ItemsInput(items: seq<Option<InputItem>>) | BadInput

  datatype ToolCall = ToolCall(id: CallId, name: string, arguments: string)

  datatype ChatMessage = ChatMessage(role: string, content: string, calls: seq<ToolCall>, toolCallId: CallId,
                                     reasoning: string)

  const NO_ID := Given("")

  predicate TextPart(kind: string) {
    kind == "input_text" || kind == "output_text" || kind == "text" || kind == "summary_text"
  }

  function Texts(parts: seq<Part>): (r: seq<string>)
    ensures |r| == |parts|
  {
    seq(|parts|, i requires 0 <= i < |parts| => parts[i].text)
  }

  lemma {:induction false} TextsSnoc(parts: seq<Part>, i: nat)
    requires i < |parts|
    ensures Join(Texts(parts[..i + 1])) == Join(Texts(parts[..i])) + parts[i].text
  {
    hide Join;
    assert Texts(parts[..i + 1]) == Texts(parts[..i]) + [parts[i].text];
    JoinSnoc(Texts(parts[..i]), parts[i].text);
  }

  /** Parts are refused exactly if one has another kind than these four; else their texts are
      joined. */
  method FlattenContent(content: Content) returns (r: Result<string, string>)
    ensures r == Flattened(content)
    ensures content.Absent? ==> r == Success("")
    ensures content.Plain? ==> r == Success(content.text)
    ensures content.Malformed? ==> r.Failure?
    ensures content.Parts? ==>
      && (r.Failure? <==> exists p :: p in content.parts && p.kind != "input_text" && p.kind != "output_text"
                                      && p.kind != "text" && p.kind != "summary_text")
      && (r.Success? ==> r.value == Join(Texts(content.parts)))
  {
    match content
    case Absent => r := Success("");
    case Plain(text) => r := Success(text);
    case Malformed => r := Failure("invalid message content");
    case Parts(parts) =>
      var text := "";
      for i := 0 to |parts|
        invariant forall j :: 0 <= j < i ==> TextPart(parts[j].kind)
        invariant text == Join(Texts(parts[..i]))
      {
        if !TextPart(parts[i].kind) {
          assert parts[i] in parts;
          return Failure("unsupported content part type");
        }
        TextsSnoc(parts, i);
        text := text + parts[i].text;
      }
      assert parts[..|parts|] == parts;
      r := Success(text);
  }

  function Flattened(content: Content): Result<string, string> {
    match content
    case Absent => Success("")
    case Plain(text) => Success(text)
    case Malformed => Failure("invalid message content")
    case Parts(parts) =>
      if exists j :: 0 <= j < |parts| && !TextPart(parts[j].kind) then Failure("unsupported content part type")
      else Success(Join(Texts(parts)))
  }

  /** Reasoning text never fails: parts of other kinds are skipped. */
  function FieldText(content: Content): string {
    match content
    case Absent => ""
    case Plain(text) => text
    case Malformed => ""
    case Parts(parts) => ReasoningParts(parts)
  }

  function ReasoningParts(parts: seq<Part>): string {
    if |parts| == 0 then ""
    else ReasoningParts(parts[..|parts| - 1])
         + (if TextPart(parts[|parts| - 1].kind) || parts[|parts| - 1].kind == "" then parts[|parts| - 1].text else "")
  }

  function ExtractReasoningText(item: InputItem): string {
    FieldText(item.summary) + FieldText(item.content)
  }

  /** The kind of an item: one with a role and no type is a message. */
  function KindOf(item: InputItem): ItemType {
    if item.kind == NoType && item.role != "" then MessageType else item.kind
  }

  function RoleOf(item: InputItem): string {
    if item.role == "" then "user" else if item.role == "developer" then "system" else item.role
  }

  // ----- Reading: units in input order -----

  /** What an input says, in order: a message, a maximal run of calls, the answer
      to a call, or a thought. */
  datatype Unit =
    | Say(role: string, content: string)
    | Calls(calls: seq<ToolCall>)
    | Answer(id: CallId, output: string)
    | Think(text: string)

  /** Neighbouring calls are one run. */
  function Extend(units: seq<Unit>, u: Unit): seq<Unit> {
    if u.Calls? && |units| > 0 && units[|units| - 1].Calls?
    then units[..|units| - 1] + [Calls(units[|units| - 1].calls + u.calls)]
    else units + [u]
  }

  function CallOf(item: InputItem, minted: nat): ToolCall {
    ToolCall(if item.callId == NO_ID then Minted(minted) else item.callId, item.name,
             if item.arguments == "" then "{}" else item.arguments)
  }

  function UnitOf(item: InputItem, minted: nat): Result<Unit, string> {
    match KindOf(item)
    case MessageType =>
      (match Flattened(item.content)
       case Success(text) => Success(Say(RoleOf(item), text))
       case Failure(e) => Failure(e))
    case ReasoningType => Success(Think(TrimSpace(ExtractReasoningText(item))))
    case CallType => Success(Calls([CallOf(item, minted)]))
    case OutputType => Success(Answer(item.callId, item.output))
    case NoType => Failure("unsupported input item type")
    case OtherType(name) => Failure("unsupported input item type")
  }

  /** The units of an item list; generated ids are numbered by position. */
  function Units(items: seq<Option<InputItem>>): Result<seq<Unit>, string> {
    if |items| == 0 then Success([])
    else
      var n := |items| - 1;
      match Units(items[..n])
      case Failure(e) => Failure(e)
      case Success(units) =>
        match items[n]
        case None => Failure("invalid input item")
        case Some(item) =>
          match UnitOf(item, n)
          case Failure(e) => Failure(e)
          case Success(u) => Success(Extend(units, u))
  }

  // ----- Attaching thoughts: tokens -----

  /** A chat message with its part in the conversation.  `thoughts` are the
      reasoning texts it carries. */
  datatype Token =
    | Regular(role: string, content: string, thoughts: seq<string>)
    | Batch(calls: seq<ToolCall>, thoughts: seq<string>)
    | Reply(id: CallId, output: string)
    | Orphan(thoughts: seq<string>)

  function JoinLines(texts: seq<string>): string {
    if |texts| == 0 then "" else if |texts| == 1 then texts[0]
    else JoinLines(texts[..|texts| - 1]) + "\n" + texts[|texts| - 1]
  }

  function MessageOf(t: Token): ChatMessage {
    match t
    case Regular(role, content, thoughts) => ChatMessage(role, content, [], NO_ID, JoinLines(thoughts))
    case Batch(calls, thoughts) => ChatMessage("assistant", "", calls, NO_ID, JoinLines(thoughts))
    case Reply(id, output) => ChatMessage("tool", output, [], id, "")
    case Orphan(thoughts) => ChatMessage("assistant", "", [], NO_ID, JoinLines(thoughts))
  }

  datatype Attached = Attached(tokens: seq<Token>, pending: seq<string>)

  function AttachOne(a: Attached, u: Unit): Attached {
    match u
    case Say(role, content) =>
      if role == "assistant" then Attached(a.tokens + [Regular(role, content, a.pending)], [])
      else a.(tokens := a.tokens + [Regular(role, content, [])])
    case Calls(calls) => Attached(a.tokens + [Batch(calls, a.pending)], [])
    case Answer(id, output) => a.(tokens := a.tokens + [Reply(id, output)])
    case Think(text) => if text == "" then a else a.(pending := a.pending + [text])
  }

  function Attach(units: seq<Unit>): Attached {
    if |units| == 0 then Attached([], []) else AttachOne(Attach(units[..|units| - 1]), units[|units| - 1])
  }

  lemma {:induction false} AttachSnoc(units: seq<Unit>, u: Unit)
    ensures Attach(units + [u]) == AttachOne(Attach(units), u)
  {
    assert (units + [u])[..|units|] == units;
  }

  function Tokens(units: seq<Unit>): seq<Token> {
    var a := Attach(units);
    if a.pending == [] then a.tokens else a.tokens + [Orphan(a.pending)]
  }

  // ----- Placing: answers directly follow their calls -----

  function KeyOf(id: CallId): CallId {
    if id.Given? then Given(TrimSpace(id.text)) else id
  }

  predicate Blank(id: CallId) { KeyOf(id) == NO_ID }

  function Opened(calls: seq<ToolCall>): set<CallId> {
    set i | 0 <= i < |calls| && !Blank(calls[i].id) :: calls[i].id
  }

  datatype Placed = Placed(tokens: seq<Token>, awaiting: set<CallId>, deferred: seq<Token>)

  function PlaceOne(p: Placed, t: Token): Placed {
    match t
    case Batch(calls, _) => p.(tokens := p.tokens + [t], awaiting := p.awaiting + Opened(calls))
    case Reply(id, _) =>
      var awaiting := if Blank(id) then p.awaiting else p.awaiting - {KeyOf(id)};
      if awaiting == {} then Placed(p.tokens + [t] + p.deferred, awaiting, [])
      else Placed(p.tokens + [t], awaiting, p.deferred)
    case _ => if p.awaiting != {} then p.(deferred := p.deferred + [t]) else p.(tokens := p.tokens + [t])
  }

  function PlaceAll(tokens: seq<Token>): Placed {
    if |tokens| == 0 then Placed([], {}, []) else PlaceOne(PlaceAll(tokens[..|tokens| - 1]), tokens[|tokens| - 1])
  }

  lemma {:induction false} PlaceSnoc(tokens: seq<Token>, t: Token)
    ensures PlaceAll(tokens + [t]) == PlaceOne(PlaceAll(tokens), t)
  {
    assert (tokens + [t])[..|tokens|] == tokens;
  }

  function Schedule(tokens: seq<Token>): seq<Token> {
    PlaceAll(tokens).tokens + PlaceAll(tokens).deferred
  }

  function Messages(tokens: seq<Token>): (r: seq<ChatMessage>)
    ensures |r| == |tokens|
  {
    seq(|tokens|, i requires 0 <= i < |tokens| => MessageOf(tokens[i]))
  }

  /** The meaning of a request's input, in separate passes: read the units, attach
      the thoughts, place the messages. */
  function Converted(instructions: string, input: Input): Result<seq<ChatMessage>, string> {
    var system := if TrimSpace(instructions) == "" then []
                  else [ChatMessage("system", TrimSpace(instructions), [], NO_ID, "")];
    match input
    case NoInput => Success(system)
    case TextInput(text) => Success(system + [ChatMessage("user", text, [], NO_ID, "")])
    case BadInput => Failure("invalid input")
    case ItemsInput(items) =>
      match Units(items)
      case Failure(e) => Failure(e)
      case Success(units) => Success(system + Messages(Schedule(Tokens(units))))
  }
}
