/** The state of the key pool and the meaning of each operation on it. */
module ZenPool {
  import opened Wrappers
  import opened ZenScoring
  import opened ZenGuard

  type KeyId = string

  datatype Provider = Unspecified | OpenCode | Ollama | OtherProvider(name: string)

  function Resolved(p: Provider): Provider { if p == Unspecified then OpenCode else p }

  const LOAD_WINDOW := 5 * MINUTE
  const PERSIST_INTERVAL := 30 * SECOND
  const DEFAULT_COOLDOWN := 60 * SECOND

  /** A stored cooldown column: a deadline, or text that does not parse. */
  datatype Deadline = Until(at: int) | Unreadable

  datatype Runtime = Runtime(requests: seq<int>, inflight: nat, probing: bool, lastPersist: Option<int>)

  const IDLE := Runtime([], 0, false, None)

  /** `stored` and `cooldowns` are the database; the rest is process memory.  `dirty`
      holds health not written back yet. */
  datatype Pool = Pool(
    stored: map<KeyId, Health>, cooldowns: map<KeyId, Deadline>, benched: map<KeyId, int>, dirty: map<KeyId, Health>,
    runtime: map<KeyId, Runtime>, windows: map<Provider, seq<Sample>>)

  /** The health a reader sees: the unwritten one, else the stored row, else a cold start. */
  function Effective(p: Pool, id: KeyId): Health {
    if id in p.dirty then p.dirty[id] else if id in p.stored then p.stored[id] else COLD_START
  }

  function RuntimeOf(p: Pool, id: KeyId): Runtime {
    if id in p.runtime then p.runtime[id] else IDLE
  }

  function WindowOf(p: Pool, provider: Provider): seq<Sample> {
    if provider in p.windows then p.windows[provider] else []
  }

  // ----- Requests in flight -----

  function NoteAcquire(p: Pool, id: KeyId, probing: bool, now: int): Pool {
    var r := RuntimeOf(p, id);
    p.(runtime := p.runtime[id := r.(requests := r.requests + [now], inflight := r.inflight + 1,
                                     probing := r.probing || probing)])
  }

  /** Any finisher clears the probing flag. */
  function NoteRelease(p: Pool, id: KeyId): Pool {
    if id !in p.runtime then p
    else
      var r := p.runtime[id];
      p.(runtime := p.runtime[id := r.(inflight := if r.inflight > 0 then r.inflight - 1 else 0, probing := false)])
  }

  // ----- Recording an outcome -----

  /** How a dial ended.  Aborted is a cancelled or expired request. */
  datatype Dial = Answered | Refused(code: int) | Unreachable | Aborted | EgressFault

  function Classified(d: Dial): ErrorClass {
    match d
    case Refused(code) =>
      if code == 401 then Unauthorized else if code == 429 then RateLimited else if code >= 500 then Upstream5xx
      else NoClass
    case _ => NoClass
  }

  datatype Outcome = Outcome(id: KeyId, provider: Provider, probing: bool, dial: Dial, latency: int, now: int)

  /** What the environment lets through: the context, and the three store calls. */
  datatype Io = Io(cancelled: bool, loads: bool, sets: bool, upserts: bool)

  function NoteOutcome(p: Pool, provider: Provider, is5xx: bool, now: int): Pool {
    p.(windows := p.windows[provider := Noted(WindowOf(p, provider), is5xx, now)])
  }

  function Persisted(p: Pool, id: KeyId, h: Health, upserts: bool): Pool {
    if upserts then p.(stored := p.stored[id := h], dirty := p.dirty - {id}) else p.(dirty := p.dirty[id := h])
  }

  predicate Due(r: Runtime, now: int) {
    r.lastPersist == None || now - r.lastPersist.value >= PERSIST_INTERVAL
  }

  /** The throttle: the pool after asking, which remembers the time of a yes. */
  function AskPersist(p: Pool, id: KeyId, now: int): Pool {
    var r := RuntimeOf(p, id);
    p.(runtime := p.runtime[id := if Due(r, now) then r.(lastPersist := Some(now)) else r])
  }

  function SetCooldown(p: Pool, id: KeyId, deadline: Option<int>, sets: bool): Pool {
    if !sets then p
    else if deadline == None then p.(cooldowns := p.cooldowns - {id})
    else p.(cooldowns := p.cooldowns[id := Until(deadline.value)])
  }

  function Bench(p: Pool, id: KeyId, until: int): Pool {
    p.(benched := p.benched[id := until])
  }

  function Floored(h: Health, probing: bool): Health {
    if probing && h.score < PROBE_FLOOR then h.(score := PROBE_FLOOR) else h
  }

  /** The health a success leaves. */
  function Succeeded(h: Health, o: Outcome): Health {
    Floored(AfterSuccess(Decayed(h, o.now), o.latency, o.now, None), o.probing)
  }

  function WithSuccess(p: Pool, o: Outcome, io: Io): Pool {
    var before := Decayed(Effective(p, o.id), o.now);
    var h := Succeeded(Effective(p, o.id), o);
    var q := SetCooldown(NoteOutcome(p, Resolved(o.provider), false, o.now), o.id, None, io.sets);
    if o.probing || before.reason != NoClass || before.consecutive > 0 then Persisted(q, o.id, h, io.upserts)
    else
      var asked := AskPersist(q, o.id, o.now);
      if Due(RuntimeOf(q, o.id), o.now) then Persisted(asked, o.id, h, io.upserts)
      else asked.(dirty := asked.dirty[o.id := h])
  }

  /** The health a counted failure leaves. */
  function Failed(h: Health, o: Outcome): Health {
    AfterFailure(Decayed(h, o.now), Classified(o.dial), o.now, None)
  }

  function WithFailure(p: Pool, o: Outcome, io: Io, benchDuration: int): Pool {
    var class_ := Classified(o.dial);
    var h := Failed(Effective(p, o.id), o);
    var q := NoteOutcome(p, Resolved(o.provider), class_ == Upstream5xx, o.now);
    Persisted(Rested(q, o.id, class_, h.consecutive, o.now, io.sets, benchDuration), o.id, h, io.upserts)
  }

  /** A counted failure rests the key: on the bench after a 401, else by cooldown, else
      on the bench when the cooldown cannot be stored. */
  function Rested(p: Pool, id: KeyId, class_: ErrorClass, consecutive: nat, now: int, sets: bool,
                  benchDuration: int): Pool {
    if class_ == Unauthorized then Bench(p, id, now + benchDuration)
    else if sets then SetCooldown(p, id, Some(now + CooldownForFailures(consecutive)), true)
    else Bench(p, id, now + DEFAULT_COOLDOWN)
  }

  /** A 5xx during a storm of its provider counts for nobody. */
  predicate Frozen(p: Pool, o: Outcome) {
    Classified(o.dial) == Upstream5xx && Storm(Pruned(WindowOf(p, Resolved(o.provider)), o.now))
  }

  predicate Heard(io: Io) { !io.cancelled && io.loads }

  /** RecordPaidOutcome. */
  function Recorded(p: Pool, o: Outcome, io: Io, benchDuration: int): Pool {
    if o.id == "" then p else NoteRelease(if Heard(io) then Judged(p, o, io, benchDuration) else p, o.id)
  }

  function Judged(p: Pool, o: Outcome, io: Io, benchDuration: int): Pool {
    if o.dial == Answered then WithSuccess(p, o, io)
    else if Classified(o.dial) == NoClass then NoteOutcome(p, Resolved(o.provider), false, o.now)
    else if Frozen(p, o) then NoteOutcome(p, Resolved(o.provider), true, o.now)
    else WithFailure(p, o, io, benchDuration)
  }

  // ----- When a success lowers the score -----

  /** The most a success leaves a row with, from its counts: what they earn, or the floor of
      a probe. */
  function Best(h: Health, probing: bool): real {
    var earned := Earned(h.successes + 1, h.failures);
    if probing && earned < PROBE_FLOOR then PROBE_FLOOR else earned
  }

  /** For every row, idle or floored before or not: a success lowers the score a reader
      sees exactly if that score is above what the counts then earn. */
  lemma {:induction false} SuccessLowersIff(h: Health, o: Outcome)
    ensures Succeeded(h, o).score == Best(h, o.probing)
    ensures Succeeded(h, o).score < Decayed(h, o.now).score <==> Best(h, o.probing) < Decayed(h, o.now).score
  {
    SuccessEarns(Decayed(h, o.now), o.latency, o.now);
  }

  /** A row with one success and twenty failures earned 17.6; idle for a quarter of an hour
      it rises above 22, and the next success takes it back to 20. */
  lemma {:induction false} IdleSuccessLowers(o: Outcome) returns (h: Health)
    requires !o.probing && o.now == 3 * DECAY_INTERVAL
    ensures Reachable(h) && h.score == Composed(h, None) < 18.0
    ensures Decayed(h, o.now).score > 22.0 && Succeeded(h, o).score == 20.0
  {
    h := COLD_START.(successes := 1, failures := 20, lastSuccess := Some(0), updated := Some(0));
    h := h.(score := Composed(h, None));
    assert ReliabilityRate(1, 20) == 1.0 / 21.0;
    ReachesTwenty();
    SuccessLowersIff(h, o);
    DecayRaises(h, o.now);
    assert Steps(0, o.now) == 3;
    RelaxedStep(h.score, 0);
    RelaxedStep(h.score, 1);
    RelaxedStep(h.score, 2);
    assert Power(1.0 - DECAY_FRACTION, 0) == 1.0;
  }

  lemma {:induction false} ReachesTwenty()
    ensures Earned(2, 20) == 20.0
  {
    assert ReliabilityRate(2, 20) == 1.0 / 11.0;
  }

  /** A probe that succeeds lifts a row with twenty failures to the floor of 55; the next
      success takes it down to 20. */
  lemma {:induction false} FlooredSuccessLowers(h: Health, probe: Outcome, next: Outcome)
    requires h.successes == 0 && h.failures == 20
    requires probe.probing && !next.probing && probe.now <= next.now
    ensures Succeeded(h, probe).score == PROBE_FLOOR
    ensures Succeeded(Succeeded(h, probe), next).score == 20.0 < Decayed(Succeeded(h, probe), next.now).score
  {
    assert ReliabilityRate(1, 20) == 1.0 / 21.0;
    SuccessLowersIff(h, probe);
    ReachesTwenty();
    SuccessLowersIff(Succeeded(h, probe), next);
    var floored := Succeeded(h, probe);
    RelaxedBetween(floored.score, Steps(floored.updated.value, next.now));
  }
}
