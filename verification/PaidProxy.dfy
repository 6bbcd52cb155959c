/** Paid requests through egress proxies: at most two proxies, then direct. */
module PaidProxy {
  import opened Wrappers
  import opened ZenPool
  import opened ZenAcquire
  import opened ZenRuns
  import opened ZenService
  import opened ZenFailover
  import Proxies = ProxyPool

  /** What the environment gives one request: the three possible key calls, and for each
      proxy round the clock, the store and the cancellation it meets. */
  datatype ProxyStep = ProxyStep(at: int, lists: bool, cancelled: bool, coolAt: int, cools: bool)

  datatype Request = Request(enabled: bool, first: Call, second: Call, direct: Call, one: ProxyStep, two: ProxyStep)

  datatype Answer = KeyAnswer(result: PaidResult) | ProxyError(error: Proxies.AcquireError)

  datatype Round = Through(proxy: Proxies.Selected) | Direct

  /** The answer with the proxy it names, and the rounds made. */
  datatype Reply = Reply(answer: Answer, carrier: Option<Proxies.Selected>, rounds: seq<Round>)

  /** The proxy side of failover: a key error or the network may switch the egress. */
  predicate ShouldSwitch(r: PaidResult) {
    match r
    case Response => false
    case NoKey(_) => true
    case DialError(d) =>
      match d
      case Answered => false
      case Aborted => false
      case Refused(code) => code == 429 || code == 403 || code >= 500
      case _ => true
  }

  predicate ShouldCool(r: PaidResult) { r.DialError? && r.dial.Refused? }

  function CooldownFor(r: PaidResult): int {
    if r.DialError? && r.dial == Refused(429) then Proxies.RATE_LIMIT_COOLDOWN else Proxies.DEFAULT_COOLDOWN
  }

  // ----- The protocol -----

  /** The keys, the proxies and their counter. */
  datatype World = World(keys: State, proxies: seq<Proxies.Proxy>, rr: nat)

  /** A finished request; `directFrom` are the keys the direct round started with. */
  datatype Done = Done(world: World, reply: Reply, directFrom: Option<State>)

  function GoDirect(w: World, q: Request, before: seq<Round>, set_: Setting): Done {
    var p := Attempts(w.keys, q.direct.(egress := false), 0, [], None, set_);
    Done(w.(keys := p.state), Reply(KeyAnswer(p.result), None, before + [Direct]), Some(w.keys))
  }

  /** The request ends with this round. */
  predicate Stops(step: ProxyStep, r: PaidResult) {
    r == Response || step.cancelled || !ShouldSwitch(r)
  }

  /** One proxy round: the keys are tried through it, and a status failure rests it. */
  function GoThrough(w: World, call: Call, step: ProxyStep, id: Proxies.ProxyId, set_: Setting): (World, PaidResult) {
    var p := Attempts(w.keys, call.(egress := true), 0, [], None, set_);
    var cools := !Stops(step, p.result) && ShouldCool(p.result) && step.cools;
    var proxies := if cools then Proxies.Cooled(w.proxies, id, step.coolAt + CooldownFor(p.result)) else w.proxies;
    (World(p.state, proxies, w.rr), p.result)
  }

  function SecondRound(w: World, q: Request, first: Proxies.Selected, set_: Setting, box: Proxies.Box): Done {
    var (rr, r) := if q.two.lists then Proxies.Acquire(w.proxies, w.rr, first.id, q.two.at, box)
                   else (w.rr, Failure(Proxies.ListFailed));
    if r.Failure? then GoDirect(w.(rr := rr), q, [Through(first)], set_)
    else
      var (v, result) := GoThrough(w.(rr := rr), q.second, q.two, r.value.id, set_);
      if Stops(q.two, result)
      then Done(v, Reply(KeyAnswer(result), Some(r.value), [Through(first), Through(r.value)]), None)
      else GoDirect(v, q, [Through(first), Through(r.value)], set_)
  }

  function DialedPaid(w: World, q: Request, set_: Setting, box: Proxies.Box): Done {
    if !q.enabled then GoDirect(w, q, [], set_)
    else
      var (rr, r) := if q.one.lists then Proxies.Acquire(w.proxies, w.rr, "", q.one.at, box)
                     else (w.rr, Failure(Proxies.ListFailed));
      if r == Failure(Proxies.NoHealthyProxy) then GoDirect(w.(rr := rr), q, [], set_)
      else if r.Failure? then Done(w.(rr := rr), Reply(ProxyError(r.error), None, []), None)
      else
        var (v, result) := GoThrough(w.(rr := rr), q.first, q.one, r.value.id, set_);
        if Stops(q.one, result) then Done(v, Reply(KeyAnswer(result), Some(r.value), [Through(r.value)]), None)
        else SecondRound(v, q, r.value, set_, box)
  }

  // ----- The method -----

  ghost function WorldOf(keys: Service, proxies: Proxies.Pool): World
    reads keys, proxies
  {
    World(StateOf(keys), proxies.rows, proxies.rr)
  }

  ghost predicate Usable(keys: Service, call: Call) {
    && RealRows(call) && call.policy == keys.policy
    && forall affinity, id :: keys.keys.rank(affinity)(id) >= 0.0
  }

  ghost predicate AllUsable(keys: Service, q: Request) {
    Usable(keys, q.first) && Usable(keys, q.second) && Usable(keys, q.direct)
  }

  method DialPaid(keys: Service, proxies: Proxies.Pool, q: Request) returns (reply: Reply)
    requires AllUsable(keys, q) && Proxies.DistinctIds(proxies.rows)
    modifies keys, proxies
    ensures var d := DialedPaid(old(WorldOf(keys, proxies)), q, SettingOf(keys), proxies.box);
            reply == d.reply && WorldOf(keys, proxies) == d.world
  {
    hide Attempts, Proxies.Acquire;
    if !q.enabled {
      reply := DialDirect(keys, proxies, q, []);
      return;
    }
    var first := proxies.AcquireExcluding("", q.one.at, q.one.lists);
    if first == Failure(Proxies.NoHealthyProxy) {
      reply := DialDirect(keys, proxies, q, []);
      return;
    }
    if first.Failure? {
      return Reply(ProxyError(first.error), None, []);
    }
    var result := DialThrough(keys, proxies, q.first, q.one, first.value);
    if result == Response || q.one.cancelled || !ShouldSwitch(result) {
      return Reply(KeyAnswer(result), Some(first.value), [Through(first.value)]);
    }
    reply := DialSecond(keys, proxies, q, first.value);
  }

  method DialSecond(keys: Service, proxies: Proxies.Pool, q: Request, first: Proxies.Selected) returns (reply: Reply)
    requires AllUsable(keys, q) && Proxies.DistinctIds(proxies.rows)
    modifies keys, proxies
    ensures var d := SecondRound(old(WorldOf(keys, proxies)), q, first, SettingOf(keys), proxies.box);
            reply == d.reply && WorldOf(keys, proxies) == d.world
  {
    hide Attempts, Proxies.Acquire;
    var rounds := [Through(first)];
    var second := proxies.AcquireExcluding(first.id, q.two.at, q.two.lists);
    if second.Success? {
      var result := DialThrough(keys, proxies, q.second, q.two, second.value);
      rounds := [Through(first), Through(second.value)];
      if result == Response || q.two.cancelled || !ShouldSwitch(result) {
        return Reply(KeyAnswer(result), Some(second.value), rounds);
      }
    }
    reply := DialDirect(keys, proxies, q, rounds);
  }

  method DialThrough(keys: Service, proxies: Proxies.Pool, call: Call, step: ProxyStep, proxy: Proxies.Selected)
    returns (result: PaidResult)
    requires Usable(keys, call) && Proxies.DistinctIds(proxies.rows)
    modifies keys, proxies`rows
    ensures Proxies.DistinctIds(proxies.rows)
    ensures (WorldOf(keys, proxies), result)
            == GoThrough(old(WorldOf(keys, proxies)), call, step, proxy.id, SettingOf(keys))
  {
    hide Attempts;
    var dialed;
    result, dialed := ProxyPaid(keys, call.(egress := true));
    if result == Response || step.cancelled || !ShouldSwitch(result) {
      return;
    }
    if ShouldCool(result) {
      CooledDistinct(proxies.rows, proxy.id, step.coolAt + CooldownFor(result));
      proxies.MarkCooldown(proxy.id, CooldownFor(result), step.coolAt, step.cools);
    }
  }

  method DialDirect(keys: Service, proxies: Proxies.Pool, q: Request, before: seq<Round>) returns (reply: Reply)
    requires AllUsable(keys, q)
    modifies keys
    ensures var d := GoDirect(old(WorldOf(keys, proxies)), q, before, SettingOf(keys));
            reply == d.reply && WorldOf(keys, proxies) == d.world
  {
    hide Attempts;
    var result, dialed := ProxyPaid(keys, q.direct.(egress := false));
    reply := Reply(KeyAnswer(result), None, before + [Direct]);
  }

  lemma {:induction false} CooledDistinct(rows: seq<Proxies.Proxy>, id: Proxies.ProxyId, until: int)
    requires Proxies.DistinctIds(rows)
    ensures Proxies.DistinctIds(Proxies.Cooled(rows, id, until))
  {
    var r := Proxies.Cooled(rows, id, until);
    forall i, j | 0 <= i < j < |r|
      ensures Proxies.IdOf(r[i]) != Proxies.IdOf(r[j])
    {
      assert Proxies.IdOf(rows[i]) != Proxies.IdOf(rows[j]);
    }
  }

  // ----- What the protocol promises -----

  /** At most two proxy rounds, through different proxies, then at most one direct one. */
  predicate ShortRounds(rounds: seq<Round>) {
    && (forall i :: 0 <= i < |rounds| && rounds[i].Direct? ==> i == |rounds| - 1)
    && (|rounds| > 2 ==> |rounds| == 3 && rounds[2].Direct?)
    && (|rounds| >= 2 && rounds[0].Through? && rounds[1].Through? ==> rounds[0].proxy.id != rounds[1].proxy.id)
  }

  function CarrierOf(rounds: seq<Round>): Option<Proxies.Selected> {
    if |rounds| == 0 || rounds[|rounds| - 1].Direct? then None else Some(rounds[|rounds| - 1].proxy)
  }

  lemma {:induction false} SecondDiffers(rows: seq<Proxies.Proxy>, rr: nat, excluded: Proxies.ProxyId, now: int,
                                         box: Proxies.Box)
    ensures Proxies.Acquire(rows, rr, excluded, now, box).1.Success?
            ==> Proxies.Acquire(rows, rr, excluded, now, box).1.value.id != excluded
  {
    Proxies.NoHealthyProxyIff(rows, rr, excluded, now, box);
  }

  /** A request makes at most two proxy rounds, through different proxies, and at most one
      direct round, last; the reply names the proxy of the last round, or none. */
  lemma {:induction false} RoundsAreShort(w: World, q: Request, set_: Setting, box: Proxies.Box)
    ensures var r := DialedPaid(w, q, set_, box).reply;
            && ShortRounds(r.rounds) && r.carrier == CarrierOf(r.rounds)
            && (r.answer == KeyAnswer(Response) ==> |r.rounds| > 0)
            && (!q.enabled ==> r.rounds == [Direct])
  {
    hide Attempts, Proxies.Acquire;
    if q.enabled && q.one.lists {
      var (rr, r) := Proxies.Acquire(w.proxies, w.rr, "", q.one.at, box);
      if r.Success? {
        var v := GoThrough(w.(rr := rr), q.first, q.one, r.value.id, set_).0;
        SecondDiffers(v.proxies, v.rr, r.value.id, q.two.at, box);
      }
    }
  }

  lemma {:induction false} SameKeysTwice(p: Pool, q: Pool, r: Pool, now: int)
    requires SameKeys(p, q, now) && SameKeys(q, r, now)
    ensures SameKeys(p, r, now)
  {
  }

  ghost predicate ListedBy(call: Call, now: int) {
    forall j: nat :: j < call.Max() ==> call.env(j).listAt <= now
  }

  lemma {:induction false} ThroughSpares(w: World, call: Call, step: ProxyStep, id: Proxies.ProxyId, set_: Setting,
                                         now: int)
    requires AllBlameless(call.(egress := true)) && ListedBy(call, now)
    ensures SameKeys(w.keys.pool, GoThrough(w, call, step, id, set_).0.keys.pool, now)
  {
    hide Attempts;
    EgressSparesKeys(w.keys, call.(egress := true), 0, [], None, set_, now);
  }

  /** When the proxy rounds end only in 429, 403, 5xx or network errors, the direct round
      finds every key's health, cooldown and bench as the request found them, and so
      the same keys eligible. */
  lemma {:induction false} DirectFindsSameKeys(w: World, q: Request, set_: Setting, box: Proxies.Box, now: int)
    requires AllBlameless(q.first.(egress := true)) && AllBlameless(q.second.(egress := true))
    requires ListedBy(q.first, now) && ListedBy(q.second, now)
    requires DialedPaid(w, q, set_, box).directFrom.Some?
    ensures SameKeys(w.keys.pool, DialedPaid(w, q, set_, box).directFrom.value.pool, now)
  {
    hide Attempts, Proxies.Acquire, SameKeys;
    SameKeysSelf(w.keys.pool, now);
    if q.enabled {
      var (rr, r) := if q.one.lists then Proxies.Acquire(w.proxies, w.rr, "", q.one.at, box)
                     else (w.rr, Failure(Proxies.ListFailed));
      if r.Success? {
        var u := w.(rr := rr);
        ThroughSpares(u, q.first, q.one, r.value.id, set_, now);
        var v := GoThrough(u, q.first, q.one, r.value.id, set_).0;
        SecondSpares(v, q, r.value, set_, box, now);
        SameKeysChain(w.keys.pool, v.keys.pool, SecondRound(v, q, r.value, set_, box).directFrom, now);
      }
    }
  }

  lemma {:induction false} SameKeysSelf(p: Pool, now: int)
    ensures SameKeys(p, p, now)
  {
  }

  lemma {:induction false} SameKeysChain(p: Pool, q: Pool, r: Option<State>, now: int)
    requires SameKeys(p, q, now) && (r.Some? ==> SameKeys(q, r.value.pool, now))
    ensures r.Some? ==> SameKeys(p, r.value.pool, now)
  {
    if r.Some? { SameKeysTwice(p, q, r.value.pool, now); }
  }

  lemma {:induction false} SecondSpares(w: World, q: Request, first: Proxies.Selected, set_: Setting, box: Proxies.Box,
                                        now: int)
    requires AllBlameless(q.second.(egress := true)) && ListedBy(q.second, now)
    ensures SecondRound(w, q, first, set_, box).directFrom.Some? ==>
            SameKeys(w.keys.pool, SecondRound(w, q, first, set_, box).directFrom.value.pool, now)
  {
    hide Attempts, Proxies.Acquire, SameKeys;
    SameKeysSelf(w.keys.pool, now);
    var (rr, r) := if q.two.lists then Proxies.Acquire(w.proxies, w.rr, first.id, q.two.at, box)
                   else (w.rr, Failure(Proxies.ListFailed));
    if r.Success? { ThroughSpares(w.(rr := rr), q.second, q.two, r.value.id, set_, now); }
  }

  // ----- When which round is made -----

  /** Another way to the upstream may help: no key was found, the rate was limited, the way was
      forbidden, the upstream or the network failed; and the client still waits. */
  predicate GoesOn(r: PaidResult, cancelled: bool) {
    && !cancelled
    && (r.NoKey?
        || (r.DialError? && (r.dial.Unreachable? || r.dial.EgressFault?
              || (r.dial.Refused? && (r.dial.code == 403 || r.dial.code == 429 || r.dial.code >= 500)))))
  }

  /** A refusal rests the proxy that carried it, for two minutes after a 429 and one after
      others, if the store takes the mark. */
  function RestedBy(rows: seq<Proxies.Proxy>, id: Proxies.ProxyId, r: PaidResult, step: ProxyStep)
    : (rested: seq<Proxies.Proxy>)
    ensures |rested| == |rows|
  {
    seq(|rows|, i requires 0 <= i < |rows| =>
      if rows[i].id == id && r.DialError? && r.dial.Refused? && step.cools then
        var rest := if r.dial.code == 429 then 120_000_000_000 else 60_000_000_000;
        rows[i].(cooldown := Proxies.Until(step.coolAt + rest))
      else rows[i])
  }

  lemma {:induction false} RestsBy(rows: seq<Proxies.Proxy>, id: Proxies.ProxyId, r: PaidResult, step: ProxyStep)
    ensures RestedBy(rows, id, r, step) ==
            if ShouldCool(r) && step.cools then Proxies.Cooled(rows, id, step.coolAt + CooldownFor(r)) else rows
  {
  }

  lemma {:induction false} StopsIff(step: ProxyStep, r: PaidResult)
    ensures Stops(step, r) <==> !GoesOn(r, step.cancelled)
  {
  }

  /** A round through a proxy, and the rows after it when the request goes on. */
  lemma {:induction false} RoundThrough(w: World, call: Call, step: ProxyStep, id: Proxies.ProxyId, set_: Setting)
    ensures var (v, r) := GoThrough(w, call, step, id, set_);
            var p := Attempts(w.keys, call.(egress := true), 0, [], None, set_);
            && r == p.result && v.keys == p.state && v.rr == w.rr
            && v.proxies == if GoesOn(r, step.cancelled) then RestedBy(w.proxies, id, r, step) else w.proxies
  {
    hide Attempts;
    var p := Attempts(w.keys, call.(egress := true), 0, [], None, set_);
    StopsIff(step, p.result);
    RestsBy(w.proxies, id, p.result, step);
  }

  /** When the request goes direct, the answer is that of the keys without a proxy. */
  predicate AnswersDirect(d: Done, q: Request, keys: State, before: seq<Round>, set_: Setting) {
    && d.reply.rounds == before + [Direct] && d.reply.carrier == None
    && d.reply.answer == KeyAnswer(Attempts(keys, q.direct.(egress := false), 0, [], None, set_).result)
  }

  /** The whole course of a request.  Without proxies, or without a healthy one, it goes
      direct; a listing that fails ends it.  A round that does not go on ends it with that
      round's answer; after one that does, another proxy carries the next round, and when
      there is none, or that round goes on too, the request goes direct. */
  lemma {:induction false} Course(w: World, q: Request, set_: Setting, box: Proxies.Box)
    ensures var d := DialedPaid(w, q, set_, box);
            var (r1, first) := Proxies.Acquire(w.proxies, w.rr, "", q.one.at, box);
            if !q.enabled || (q.one.lists && first.Failure?) then AnswersDirect(d, q, w.keys, [], set_)
            else if !q.one.lists then d.reply == Reply(ProxyError(Proxies.ListFailed), None, [])
            else
              var one := Attempts(w.keys, q.first.(egress := true), 0, [], None, set_);
              if !GoesOn(one.result, q.one.cancelled) then
                d.reply == Reply(KeyAnswer(one.result), Some(first.value), [Through(first.value)])
              else
                var rested := RestedBy(w.proxies, first.value.id, one.result, q.one);
                var second := Proxies.Acquire(rested, r1, first.value.id, q.two.at, box).1;
                if !q.two.lists || second.Failure? then AnswersDirect(d, q, one.state, [Through(first.value)], set_)
                else
                  var two := Attempts(one.state, q.second.(egress := true), 0, [], None, set_);
                  if GoesOn(two.result, q.two.cancelled) then
                    AnswersDirect(d, q, two.state, [Through(first.value), Through(second.value)], set_)
                    && d.world.proxies == RestedBy(rested, second.value.id, two.result, q.two)
                  else
                    && d.reply == Reply(KeyAnswer(two.result), Some(second.value),
                                        [Through(first.value), Through(second.value)])
                    && d.world.proxies == rested
  {
    hide Attempts, Proxies.Acquire, GoesOn, RestedBy, Stops, ShouldCool;
    var (r1, first) := Proxies.Acquire(w.proxies, w.rr, "", q.one.at, box);
    FailsHealthy(w.proxies, w.rr, "", q.one.at, box);
    if q.enabled && q.one.lists && first.Success? {
      var u := w.(rr := r1);
      var (v, result) := GoThrough(u, q.first, q.one, first.value.id, set_);
      RoundThrough(u, q.first, q.one, first.value.id, set_);
      StopsIff(q.one, result);
      var (r2, second) := Proxies.Acquire(v.proxies, v.rr, first.value.id, q.two.at, box);
      if !Stops(q.one, result) && q.two.lists && second.Success? {
        var t := v.(rr := r2);
        RoundThrough(t, q.second, q.two, second.value.id, set_);
        StopsIff(q.two, GoThrough(t, q.second, q.two, second.value.id, set_).1);
      }
    }
  }

  lemma {:induction false} FailsHealthy(rows: seq<Proxies.Proxy>, rr: nat, excluded: Proxies.ProxyId, now: int,
                                        box: Proxies.Box)
    ensures var r := Proxies.Acquire(rows, rr, excluded, now, box).1;
            r.Failure? ==> r == Failure(Proxies.NoHealthyProxy)
  {
    hide Proxies.PickOpening;
  }
}
