/** What the conversion keeps: every tool answer's place, and everything the
    input says. */
module ResponsesConversation {
  import opened Wrappers
  import opened ResponsesProtocol
  import opened ResponsesRequest

  // ----- Tool adjacency -----

  /** The call ids opened by a batch and not answered yet, up to white space. */
  function Outstanding(tokens: seq<Token>): set<CallId> {
    if |tokens| == 0 then {}
    else
      var before := Outstanding(tokens[..|tokens| - 1]);
      match tokens[|tokens| - 1]
      case Batch(calls, _) => before + Keys(calls)
      case Reply(id, _) => before - {KeyOf(id)}
      case _ => before
  }

  function Keys(calls: seq<ToolCall>): set<CallId> {
    set i | 0 <= i < |calls| && !Blank(calls[i].id) :: KeyOf(calls[i].id)
  }

  predicate Plain(t: Token) { t.Regular? || t.Orphan? }

  /** Position i stands where no answer is outstanding, or in a final tail of
      plain messages. */
  predicate WellPlaced(tokens: seq<Token>, i: nat)
    requires i < |tokens|
  {
    Outstanding(tokens[..i]) == {} || forall j :: i <= j < |tokens| ==> Plain(tokens[j])
  }

  ghost predicate Adjacent(tokens: seq<Token>) {
    forall i :: 0 <= i < |tokens| && Plain(tokens[i]) ==> Outstanding(tokens[..i]) == {}
  }

  lemma {:induction false} OutstandingSnoc(tokens: seq<Token>, t: Token)
    ensures Outstanding(tokens + [t]) ==
      match t
      case Batch(calls, _) => Outstanding(tokens) + Keys(calls)
      case Reply(id, _) => Outstanding(tokens) - {KeyOf(id)}
      case _ => Outstanding(tokens)
  {
    assert (tokens + [t])[..|tokens|] == tokens;
  }

  lemma {:induction false} OutstandingPlain(tokens: seq<Token>, more: seq<Token>)
    requires forall j :: 0 <= j < |more| ==> Plain(more[j])
    ensures Outstanding(tokens + more) == Outstanding(tokens)
  {
    if |more| == 0 {
      assert tokens + more == tokens;
    } else {
      var n := |more| - 1;
      OutstandingPlain(tokens, more[..n]);
      OutstandingSnoc(tokens + more[..n], more[n]);
      assert tokens + more == tokens + more[..n] + [more[n]];
    }
  }

  lemma {:induction false} AdjacentSnoc(tokens: seq<Token>, t: Token)
    requires Adjacent(tokens) && (Plain(t) ==> Outstanding(tokens) == {})
    ensures Adjacent(tokens + [t])
  {
    var all := tokens + [t];
    forall i | 0 <= i < |all| && Plain(all[i])
      ensures Outstanding(all[..i]) == {}
    {
      if i < |tokens| { assert all[..i] == tokens[..i]; } else { assert all[..i] == tokens; }
    }
  }

  lemma {:induction false} AdjacentPlain(tokens: seq<Token>, more: seq<Token>)
    requires Adjacent(tokens) && Outstanding(tokens) == {}
    requires forall j :: 0 <= j < |more| ==> Plain(more[j])
    ensures Adjacent(tokens + more) && Outstanding(tokens + more) == {}
  {
    OutstandingPlain(tokens, more);
    if |more| == 0 {
      assert tokens + more == tokens;
    } else {
      var n := |more| - 1;
      AdjacentPlain(tokens, more[..n]);
      AdjacentSnoc(tokens + more[..n], more[n]);
      Regroup(tokens, more[..n], [more[n]]);
      assert more == more[..n] + [more[n]];
    }
  }

  /** Every outstanding id is one the pass still waits for. */
  ghost predicate Covers(awaiting: set<CallId>, outstanding: set<CallId>) {
    forall k :: k in outstanding ==> exists x :: x in awaiting && KeyOf(x) == k
  }

  ghost predicate PlacedWell(p: Placed) {
    && Adjacent(p.tokens)
    && Covers(p.awaiting, Outstanding(p.tokens))
    && (forall j :: 0 <= j < |p.deferred| ==> Plain(p.deferred[j]))
    && (p.awaiting == {} ==> p.deferred == [])
  }

  lemma {:induction false} CoversBatch(awaiting: set<CallId>, outstanding: set<CallId>, calls: seq<ToolCall>)
    requires Covers(awaiting, outstanding)
    ensures Covers(awaiting + Opened(calls), outstanding + Keys(calls))
  {
    forall k | k in outstanding + Keys(calls)
      ensures exists x :: x in awaiting + Opened(calls) && KeyOf(x) == k
    {
      if k in outstanding {
        var x :| x in awaiting && KeyOf(x) == k;
        assert x in awaiting + Opened(calls);
      } else {
        var i :| 0 <= i < |calls| && !Blank(calls[i].id) && KeyOf(calls[i].id) == k;
        assert calls[i].id in awaiting + Opened(calls);
      }
    }
  }

  lemma {:induction false} CoversReply(awaiting: set<CallId>, outstanding: set<CallId>, id: CallId)
    requires Covers(awaiting, outstanding)
    ensures Covers(awaiting - {KeyOf(id)}, outstanding - {KeyOf(id)})
  {
    KeyIdempotent(id);
    forall k | k in outstanding - {KeyOf(id)}
      ensures exists x :: x in awaiting - {KeyOf(id)} && KeyOf(x) == k
    {
      var x :| x in awaiting && KeyOf(x) == k;
      assert x in awaiting - {KeyOf(id)};
    }
  }

  lemma {:induction false} KeyIdempotent(id: CallId)
    ensures KeyOf(KeyOf(id)) == KeyOf(id)
  {
    if id.Given? { TrimIdempotent(id.text); }
  }

  lemma {:induction false} PlaceOneWell(p: Placed, t: Token)
    requires PlacedWell(p)
    ensures PlacedWell(PlaceOne(p, t))
  {
    OutstandingSnoc(p.tokens, t);
    match t
    case Batch(calls, _) =>
      AdjacentSnoc(p.tokens, t);
      CoversBatch(p.awaiting, Outstanding(p.tokens), calls);
      if p.awaiting + Opened(calls) == {} { assert p.awaiting == {}; }
    case Reply(id, _) =>
      AdjacentSnoc(p.tokens, t);
      CoversReply(p.awaiting, Outstanding(p.tokens), id);
      var awaiting := if Blank(id) then p.awaiting else p.awaiting - {KeyOf(id)};
      if awaiting == {} {
        NothingOutstanding(Outstanding(p.tokens + [t]), awaiting);
        AdjacentPlain(p.tokens + [t], p.deferred);
      }
    case _ =>
      if p.awaiting == {} {
        NothingOutstanding(Outstanding(p.tokens), p.awaiting);
        AdjacentSnoc(p.tokens, t);
      }
  }

  lemma {:induction false} NothingOutstanding(outstanding: set<CallId>, awaiting: set<CallId>)
    requires Covers(awaiting, outstanding) && awaiting == {}
    ensures outstanding == {}
  {
    if outstanding != {} {
      var k := Pick(outstanding);
      assert false;
    }
  }

  lemma {:induction false} PlaceAllWell(tokens: seq<Token>)
    ensures PlacedWell(PlaceAll(tokens))
  {
    if |tokens| > 0 {
      PlaceAllWell(tokens[..|tokens| - 1]);
      PlaceOneWell(PlaceAll(tokens[..|tokens| - 1]), tokens[|tokens| - 1]);
    }
  }

  /** Tool adjacency, for every input: each plain message of the result stands where
      no answer is outstanding, or in a final tail of plain messages. */
  lemma {:induction false} ToolAdjacency(tokens: seq<Token>)
    ensures forall i :: 0 <= i < |Schedule(tokens)| && Plain(Schedule(tokens)[i]) ==> WellPlaced(Schedule(tokens), i)
  {
    PlaceAllWell(tokens);
    var p := PlaceAll(tokens);
    var r := Schedule(tokens);
    forall i | 0 <= i < |r| && Plain(r[i])
      ensures WellPlaced(r, i)
    {
      if i < |p.tokens| {
        assert r[..i] == p.tokens[..i] && Plain(p.tokens[i]);
      } else {
        forall j | i <= j < |r| ensures Plain(r[j]) { assert r[j] == p.deferred[j - |p.tokens|]; }
      }
    }
  }

  /** When every call is answered, no plain message stands between a call and its
      answer at all. */
  lemma {:induction false} AllAnsweredAdjacency(tokens: seq<Token>)
    requires Outstanding(Schedule(tokens)) == {}
    ensures Adjacent(Schedule(tokens))
  {
    PlaceAllWell(tokens);
    var p := PlaceAll(tokens);
    OutstandingPlain(p.tokens, p.deferred);
    AdjacentPlain(p.tokens, p.deferred);
  }

  // ----- Placing loses and duplicates nothing -----

  datatype Group = Plains | Tools

  function GroupOf(t: Token): Group {
    if Plain(t) then Plains else Tools
  }

  function Select(tokens: seq<Token>, g: Group): seq<Token> {
    if |tokens| == 0 then []
    else Select(tokens[..|tokens| - 1], g) + if GroupOf(tokens[|tokens| - 1]) == g then [tokens[|tokens| - 1]] else []
  }

  lemma {:induction false} SelectAppend(a: seq<Token>, b: seq<Token>, g: Group)
    ensures Select(a + b, g) == Select(a, g) + Select(b, g)
  {
    if |b| == 0 {
      assert a + b == a;
    } else {
      assert (a + b)[..|a + b| - 1] == a + b[..|b| - 1];
      SelectAppend(a, b[..|b| - 1], g);
    }
  }

  lemma {:induction false} SelectOne(t: Token, g: Group)
    ensures Select([t], g) == if GroupOf(t) == g then [t] else []
  {
    assert [t][..0] == [];
  }

  lemma {:induction false} SelectPlain(tokens: seq<Token>, g: Group)
    requires forall j :: 0 <= j < |tokens| ==> Plain(tokens[j])
    ensures Select(tokens, g) == if g == Plains then tokens else []
  {
    if |tokens| > 0 {
      SelectPlain(tokens[..|tokens| - 1], g);
      assert tokens == tokens[..|tokens| - 1] + [tokens[|tokens| - 1]];
    }
  }

  lemma {:induction false} PlaceAllKeeps(tokens: seq<Token>, g: Group)
    ensures var p := PlaceAll(tokens); Select(p.tokens + p.deferred, g) == Select(tokens, g)
  {
    if |tokens| == 0 {
    } else {
      var n := |tokens| - 1;
      var q, t := PlaceAll(tokens[..n]), tokens[n];
      PlaceAllKeeps(tokens[..n], g);
      PlaceAllWell(tokens[..n]);
      PlaceOneKeeps(q, t, g);
    }
  }

  /** One message more, at the end of the placed ones or of the waiting ones. */
  lemma {:induction false} SelectInsert(placed: seq<Token>, waiting: seq<Token>, t: Token, g: Group)
    requires forall j :: 0 <= j < |waiting| ==> Plain(waiting[j])
    requires !Plain(t)
    ensures Select((placed + [t]) + waiting, g) == Select(placed + waiting, g) + if GroupOf(t) == g then [t] else []
  {
    SelectAppend(placed + [t], waiting, g);
    SelectAppend(placed, [t], g);
    SelectAppend(placed, waiting, g);
    SelectOne(t, g);
    SelectPlain(waiting, g);
    var mine := if GroupOf(t) == g then [t] else [];
    if g == Plains {
      assert Select(placed, g) + [] == Select(placed, g);
    } else {
      assert Select(placed, g) + mine + [] == Select(placed, g) + [] + mine;
    }
  }

  lemma {:induction false} SelectLast(tokens: seq<Token>, t: Token, g: Group)
    ensures Select(tokens + [t], g) == Select(tokens, g) + if GroupOf(t) == g then [t] else []
  {
    assert (tokens + [t])[..|tokens|] == tokens;
  }

  lemma {:induction false} PlaceOneKeeps(q: Placed, t: Token, g: Group)
    requires PlacedWell(q)
    ensures var p := PlaceOne(q, t);
            Select(p.tokens + p.deferred, g) == Select(q.tokens + q.deferred, g) + if GroupOf(t) == g then [t] else []
  {
    if Plain(t) {
      SelectLast(q.tokens + q.deferred, t, g);
      if q.awaiting != {} {
        Regroup(q.tokens, q.deferred, [t]);
      } else {
        assert q.tokens + q.deferred == q.tokens && q.tokens + [t] + [] == q.tokens + [t];
      }
    } else {
      SelectInsert(q.tokens, q.deferred, t, g);
      assert q.tokens + [t] + q.deferred + [] == q.tokens + [t] + q.deferred;
    }
  }

  /** Each group of messages keeps its order and its members: plain messages, and call
      batches with tool answers. */
  lemma {:induction false} ScheduleKeepsGroups(tokens: seq<Token>, g: Group)
    ensures Select(Schedule(tokens), g) == Select(tokens, g)
  {
    PlaceAllKeeps(tokens, g);
  }

  lemma {:induction false} PlaceOnePermutes(q: Placed, t: Token)
    ensures var p := PlaceOne(q, t); multiset(p.tokens + p.deferred) == multiset(q.tokens + q.deferred) + multiset{t}
  {
    match t
    case Batch(_, _) => assert multiset(q.tokens + [t]) == multiset(q.tokens) + multiset{t};
    case Reply(_, _) =>
      assert multiset(q.tokens + [t]) == multiset(q.tokens) + multiset{t};
      assert q.tokens + [t] + q.deferred + [] == q.tokens + [t] + q.deferred;
    case _ =>
      if q.awaiting != {} { assert q.tokens + (q.deferred + [t]) == q.tokens + q.deferred + [t]; }
  }

  /** Placing only reorders: no message is lost and none is made up. */
  lemma {:induction false} SchedulePermutes(tokens: seq<Token>)
    ensures multiset(Schedule(tokens)) == multiset(tokens)
  {
    if |tokens| > 0 {
      var n := |tokens| - 1;
      SchedulePermutes(tokens[..n]);
      PlaceOnePermutes(PlaceAll(tokens[..n]), tokens[n]);
      assert tokens == tokens[..n] + [tokens[n]];
    }
  }

  // ----- Attaching loses and duplicates nothing -----

  /** What a token says, without the reasoning it carries. */
  function Said(t: Token): seq<Unit> {
    match t
    case Regular(role, content, _) => [Say(role, content)]
    case Batch(calls, _) => [Calls(calls)]
    case Reply(id, output) => [Answer(id, output)]
    case Orphan(_) => []
  }

  function SaidAll(tokens: seq<Token>): seq<Unit> {
    if |tokens| == 0 then [] else SaidAll(tokens[..|tokens| - 1]) + Said(tokens[|tokens| - 1])
  }

  function Spoken(units: seq<Unit>): seq<Unit> {
    if |units| == 0 then []
    else Spoken(units[..|units| - 1]) + if units[|units| - 1].Think? then [] else [units[|units| - 1]]
  }

  /** The units that carry reasoning or are reasoning: every thought that is not
      blank, every assistant message, and every batch of calls. */
  predicate Bears(u: Unit) {
    match u
    case Say(role, _) => role == "assistant"
    case Calls(_) => true
    case Answer(_, _) => false
    case Think(text) => text != ""
  }

  function Bearers(units: seq<Unit>): seq<Unit> {
    if |units| == 0 then []
    else Bearers(units[..|units| - 1]) + if Bears(units[|units| - 1]) then [units[|units| - 1]] else []
  }

  function Thoughts(texts: seq<string>): (r: seq<Unit>)
    ensures |r| == |texts|
  {
    seq(|texts|, i requires 0 <= i < |texts| => Think(texts[i]))
  }

  /** A token's reasoning texts, then the message that carries them. */
  function Unrolled(t: Token): seq<Unit> {
    match t
    case Regular(role, content, thoughts) => Thoughts(thoughts)
      + if role == "assistant" then [Say(role, content)] else []
    case Batch(calls, thoughts) => Thoughts(thoughts) + [Calls(calls)]
    case Reply(_, _) => []
    case Orphan(thoughts) => Thoughts(thoughts)
  }

  function UnrolledAll(tokens: seq<Token>): seq<Unit> {
    if |tokens| == 0 then [] else UnrolledAll(tokens[..|tokens| - 1]) + Unrolled(tokens[|tokens| - 1])
  }

  lemma {:induction false} TokensSnoc(tokens: seq<Token>, t: Token)
    ensures SaidAll(tokens + [t]) == SaidAll(tokens) + Said(t)
    ensures UnrolledAll(tokens + [t]) == UnrolledAll(tokens) + Unrolled(t)
  {
    assert (tokens + [t])[..|tokens|] == tokens;
  }

  lemma {:induction false} ThoughtsSnoc(texts: seq<string>, text: string)
    ensures Thoughts(texts + [text]) == Thoughts(texts) + [Think(text)] && Thoughts([]) == []
  {
  }

  /** A message that takes the waiting thoughts, or takes none. */
  lemma {:induction false} UnrollTaken(before: seq<Unit>, waiting: seq<Unit>, u: Unit)
    ensures (before + (waiting + [u])) + [] == (before + waiting) + [u]
    ensures (before + []) + waiting == (before + waiting) + []
  {
  }

  lemma {:induction false} AttachOneKeeps(a: Attached, u: Unit)
    ensures var b := AttachOne(a, u);
            && SaidAll(b.tokens) == SaidAll(a.tokens) + (if u.Think? then [] else [u])
            && UnrolledAll(b.tokens) + Thoughts(b.pending) ==
               UnrolledAll(a.tokens) + Thoughts(a.pending) + if Bears(u) then [u] else []
  {
    hide SaidAll, UnrolledAll, Thoughts;
    UnrollTaken(UnrolledAll(a.tokens), Thoughts(a.pending), u);
    ThoughtsSnoc(a.pending, if u.Think? then u.text else "");
    match u
    case Say(role, content) =>
      TokensSnoc(a.tokens, Regular(role, content, if role == "assistant" then a.pending else []));
    case Calls(calls) => TokensSnoc(a.tokens, Batch(calls, a.pending));
    case Answer(id, output) => TokensSnoc(a.tokens, Reply(id, output));
    case Think(text) =>
      assert SaidAll(a.tokens) + [] == SaidAll(a.tokens);
      Regroup(UnrolledAll(a.tokens), Thoughts(a.pending), [u]);
  }

  lemma {:induction false} AttachKeeps(units: seq<Unit>)
    ensures SaidAll(Attach(units).tokens) == Spoken(units)
    ensures UnrolledAll(Attach(units).tokens) + Thoughts(Attach(units).pending) == Bearers(units)
  {
    if |units| > 0 {
      AttachKeeps(units[..|units| - 1]);
      AttachOneKeeps(Attach(units[..|units| - 1]), units[|units| - 1]);
    }
  }

  /** Attaching keeps everything said, in order; and every reasoning text that is not
      blank is carried exactly once, by the next assistant message or batch of calls
      in input order, or by a final message of its own. */
  lemma {:induction false} TokensKeep(units: seq<Unit>)
    ensures SaidAll(Tokens(units)) == Spoken(units)
    ensures UnrolledAll(Tokens(units)) == Bearers(units)
  {
    AttachKeeps(units);
    var a := Attach(units);
    if a.pending == [] {
      assert UnrolledAll(a.tokens) + [] == UnrolledAll(a.tokens);
    } else {
      assert (a.tokens + [Orphan(a.pending)])[..|a.tokens|] == a.tokens;
    }
  }

  // ----- Reading loses and duplicates nothing -----

  function Single(u: Unit): seq<Unit> {
    if u.Calls? then seq(|u.calls|, i requires 0 <= i < |u.calls| => Calls([u.calls[i]])) else [u]
  }

  /** The units with every run of calls taken apart. */
  function Singles(units: seq<Unit>): seq<Unit> {
    if |units| == 0 then [] else Singles(units[..|units| - 1]) + Single(units[|units| - 1])
  }

  /** Neighbouring calls always share a batch. */
  predicate Maximal(units: seq<Unit>) {
    forall i :: 0 < i < |units| ==> !(units[i - 1].Calls? && units[i].Calls?)
  }

  lemma {:induction false} ExtendKeeps(units: seq<Unit>, u: Unit)
    requires Maximal(units)
    ensures Maximal(Extend(units, u)) && Singles(Extend(units, u)) == Singles(units) + Single(u)
  {
    var n := |units|;
    if u.Calls? && n > 0 && units[n - 1].Calls? {
      assert units == units[..n - 1] + [Calls(units[n - 1].calls)];
      hide Singles, Single;
      JoinKeeps(units[..n - 1], units[n - 1].calls, u.calls);
    } else {
      hide Singles, Single;
      SinglesLast(units, u);
    }
  }

  lemma {:induction false} JoinKeeps(front: seq<Unit>, a: seq<ToolCall>, b: seq<ToolCall>)
    ensures Singles(front + [Calls(a + b)]) == Singles(front + [Calls(a)]) + Single(Calls(b))
  {
    SinglesLast(front, Calls(a));
    SinglesLast(front, Calls(a + b));
    SingleJoin(a, b);
    hide Singles, Single;
    Regroup(Singles(front), Single(Calls(a)), Single(Calls(b)));
  }

  lemma {:induction false} SinglesLast(units: seq<Unit>, u: Unit)
    ensures Singles(units + [u]) == Singles(units) + Single(u)
  {
    assert (units + [u])[..|units|] == units;
  }

  lemma {:induction false} SingleJoin(a: seq<ToolCall>, b: seq<ToolCall>)
    ensures Single(Calls(a + b)) == Single(Calls(a)) + Single(Calls(b))
  {
  }

  /** Each item became one unit, in order, up to the joining of neighbouring calls. */
  ghost predicate ReadsAs(items: seq<Option<InputItem>>, units: seq<Unit>) {
    && |units| == |items|
    && forall i :: 0 <= i < |items| ==> items[i].Some? && UnitOf(items[i].value, i) == Success(units[i])
  }

  lemma {:induction false} UnitOfSingle(item: InputItem, n: nat)
    requires UnitOf(item, n).Success?
    ensures Single(UnitOf(item, n).value) == [UnitOf(item, n).value]
  {
  }

  lemma {:induction false} ReadsFront(items: seq<Option<InputItem>>, each: seq<Unit>)
    requires ReadsAs(items, each) && |items| > 0
    ensures var n := |items| - 1;
            && |each| == n + 1 && ReadsAs(items[..n], each[..n]) && each == each[..n] + [each[n]]
            && items[n].Some? && UnitOf(items[n].value, n) == Success(each[n])
  {
    hide UnitOf;
    var n := |items| - 1;
    assert forall i :: 0 <= i < n ==> items[..n][i] == items[i] && each[..n][i] == each[i];
  }

  lemma {:induction false} UnitsKeep(items: seq<Option<InputItem>>, each: seq<Unit>)
    requires ReadsAs(items, each)
    ensures Units(items).Success? && Maximal(Units(items).value) && Singles(Units(items).value) == each
  {
    if |items| > 0 {
      hide *;
      var n := |items| - 1;
      ReadsFront(items, each);
      UnitsKeep(items[..n], each[..n]);
      UnitsStep(items, Units(items[..n]).value, each[..n], each[n]);
    }
  }

  lemma {:induction false} UnitsStep(items: seq<Option<InputItem>>, units: seq<Unit>, each: seq<Unit>, u: Unit)
    requires |items| > 0 && Units(items[..|items| - 1]) == Success(units)
    requires items[|items| - 1].Some? && UnitOf(items[|items| - 1].value, |items| - 1) == Success(u)
    requires Maximal(units) && Singles(units) == each
    ensures Units(items).Success? && Maximal(Units(items).value) && Singles(Units(items).value) == each + [u]
  {
    ExtendKeeps(units, u);
    UnitOfSingle(items[|items| - 1].value, |items| - 1);
  }

  predicate Readable(items: seq<Option<InputItem>>, i: nat)
    requires i < |items|
  {
    items[i].Some? && UnitOf(items[i].value, i).Success?
  }

  lemma {:induction false} UnitsSuccess(items: seq<Option<InputItem>>)
    requires |items| > 0
    ensures Units(items).Success? <==> Units(items[..|items| - 1]).Success? && Readable(items, |items| - 1)
  {
    hide UnitOf, Extend;
  }

  lemma {:induction false} NoUnits(items: seq<Option<InputItem>>)
    requires items == []
    ensures Units(items).Success?
  {
  }

  lemma {:induction false} ReadableFront(items: seq<Option<InputItem>>, i: nat)
    requires i < |items| - 1
    ensures Readable(items[..|items| - 1], i) <==> Readable(items, i)
  {
    hide UnitOf;
  }

  /** Reading fails exactly when some item alone cannot be read. */
  lemma {:induction false} UnitsFailOnBadItem(items: seq<Option<InputItem>>)
    ensures Units(items).Success? <==> forall i :: 0 <= i < |items| ==> Readable(items, i)
  {
    hide Units, Readable;
    if |items| == 0 {
      NoUnits(items);
    } else {
      var n := |items| - 1;
      UnitsSuccess(items);
      UnitsFailOnBadItem(items[..n]);
      forall i | 0 <= i < n ensures Readable(items[..n], i) <==> Readable(items, i) { ReadableFront(items, i); }
    }
  }
}
