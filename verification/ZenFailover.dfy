/** Paid failover: one request tries several keys, each at most once. */
module ZenFailover {
  import opened Wrappers
  import opened ZenScoring
  import opened ZenPool
  import opened ZenAcquire
  import opened ZenSelection
  import opened ZenRuns
  import opened ZenHistory
  import opened ZenService

  const MIN_ATTEMPTS := 2
  const MAX_ATTEMPTS := 4

  function ClampMaxAttempts(n: int): (r: nat)
    ensures MIN_ATTEMPTS <= r <= MAX_ATTEMPTS
  {
    if n < MIN_ATTEMPTS then MIN_ATTEMPTS else if n > MAX_ATTEMPTS then MAX_ATTEMPTS else n
  }

  predicate ShouldFailover(d: Dial) {
    match d
    case Answered => false
    case Aborted => false
    case Refused(code) => code == 401 || code == 429 || code >= 500
    case _ => true
  }

  predicate EgressAttributable(d: Dial) {
    d.Refused? && (d.code == 429 || d.code == 403 || d.code >= 500)
  }

  /** What the environment gives one attempt: the listed rows, the clock readings, how
      the dial ends, which store calls get through, and whether the request is
      cancelled by then. */
  datatype Attempt = Attempt(rows: Option<seq<Row>>, listAt: int, startedAt: int, dial: Dial, doneAt: int, io: Io,
                             cancelled: bool)

  /** `attempts` is the configured number, clamped when it is read. */
  datatype Call = Call(provider: Provider, affinity: string, policy: Policy, egress: bool, attempts: int,
                       env: nat -> Attempt) {
    function Max(): nat { ClampMaxAttempts(attempts) }
  }

  datatype PaidResult = Response | DialError(dial: Dial) | NoKey(error: AcquireError)

  /** `dialed` are the keys tried, in order. */
  datatype Paid = Paid(state: State, dialed: seq<KeyId>, result: PaidResult)

  function OptionsOf(call: Call, tried: seq<KeyId>): Options {
    Options(call.provider, tried, call.affinity, Some(call.policy), true)
  }

  /** Through an egress proxy 429, 403 and 5xx are blamed on the proxy. */
  function Blamed(call: Call, d: Dial): Dial {
    if call.egress && EgressAttributable(d) then EgressFault else d
  }

  function OutcomeOf(call: Call, a: Attempt, k: Selected): Outcome {
    Outcome(k.id, k.provider, k.probing, Blamed(call, a.dial), a.doneAt - a.startedAt, a.doneAt)
  }

  function AcquiredBy(s: State, call: Call, a: Attempt, tried: seq<KeyId>, keys: Keys): Acquisition {
    Acquire(s.pool, s.rr, s.turn, a.rows, OptionsOf(call, tried), call.policy, a.listAt, keys)
  }

  /** The state after one key was dialed and its outcome recorded. */
  function Dialed(q: Acquisition, call: Call, a: Attempt, set_: Setting): State
    requires q.result.Success?
  {
    var k := q.result.value;
    State(Recorded(NoteAcquire(q.pool, k.id, k.probing, a.startedAt), OutcomeOf(call, a, k), a.io, set_.benchDuration),
          q.rr, q.turn)
  }

  function Attempts(s: State, call: Call, i: nat, tried: seq<KeyId>, last: Option<Dial>, set_: Setting): Paid
    decreases if i < call.Max() then call.Max() - i else 0
  {
    if i >= call.Max() then Paid(s, tried, if last.Some? then DialError(last.value) else NoKey(NoHealthyKey))
    else
      var a := call.env(i);
      var q := AcquiredBy(s, call, a, tried, set_.keys);
      if q.result.Failure? then Paid(State(q.pool, q.rr, q.turn), tried,
                                     if last.Some? then DialError(last.value) else NoKey(q.result.error))
      else
        var next, all := Dialed(q, call, a, set_), tried + [q.result.value.id];
        if a.dial == Answered then Paid(next, all, Response)
        else if a.cancelled || !ShouldFailover(a.dial) then Paid(next, all, DialError(a.dial))
        else Attempts(next, call, i + 1, all, Some(a.dial), set_)
  }

  predicate WellKeyed(rows: seq<Row>) {
    PrimaryKeys(rows) && forall i :: 0 <= i < |rows| ==> rows[i].id != ""
  }

  /** The store lists rows with distinct generated ids. */
  ghost predicate RealRows(call: Call) {
    forall i: nat :: call.env(i).rows.Some? ==> WellKeyed(call.env(i).rows.value)
  }

  ghost function StateOf(service: Service): State
    reads service
  {
    State(service.View(), service.rr, service.probeSequence)
  }

  ghost function SettingOf(service: Service): Setting { Setting(service.benchDuration, service.keys) }

  /** The state after one attempt that acquired q. */
  function Attempted(q: Acquisition, call: Call, a: Attempt, set_: Setting): State {
    if q.result.Success? then Dialed(q, call, a, set_) else State(q.pool, q.rr, q.turn)
  }

  method ProxyPaid(service: Service, call: Call) returns (result: PaidResult, dialed: seq<KeyId>)
    requires RealRows(call) && call.policy == service.policy
    requires forall affinity, id :: service.keys.rank(affinity)(id) >= 0.0
    modifies service
    ensures Paid(StateOf(service), dialed, result)
            == Attempts(old(StateOf(service)), call, 0, [], None, SettingOf(service))
  {
    hide AcquiredBy, Dialed;
    ghost var set_ := SettingOf(service);
    ghost var start := StateOf(service);
    var lastErr: Option<Dial> := None;
    dialed := [];
    var attempt := 0;
    while attempt < call.Max()
      invariant attempt == 0 || lastErr.Some?
      invariant attempt <= call.Max()
      invariant Attempts(StateOf(service), call, attempt, dialed, lastErr, set_)
                == Attempts(start, call, 0, [], None, set_)
    {
      var a := call.env(attempt);
      var selected := TryOne(service, call, a, dialed);
      if selected.Failure? {
        return if lastErr.Some? then DialError(lastErr.value) else NoKey(selected.error), dialed;
      }
      dialed := dialed + [selected.value.id];
      if a.dial == Answered {
        return Response, dialed;
      }
      lastErr := Some(a.dial);
      if a.cancelled || !ShouldFailover(a.dial) {
        return DialError(a.dial), dialed;
      }
      attempt := attempt + 1;
    }
    result := DialError(lastErr.value);
  }

  method TryOne(service: Service, call: Call, a: Attempt, tried: seq<KeyId>)
    returns (selected: Result<Selected, AcquireError>)
    requires call.policy == service.policy && (a.rows.Some? ==> WellKeyed(a.rows.value))
    requires forall affinity, id :: service.keys.rank(affinity)(id) >= 0.0
    modifies service
    ensures var q := AcquiredBy(old(StateOf(service)), call, a, tried, service.keys);
            selected == q.result && StateOf(service) == Attempted(q, call, a, SettingOf(service))
  {
    hide Acquire, Recorded, ZenPool.NoteAcquire;
    selected := service.AcquireFor(a.rows, OptionsOf(call, tried), a.listAt);
    if selected.Success? {
      DialWith(service, call, a, selected.value);
    }
  }

  method DialWith(service: Service, call: Call, a: Attempt, selected: Selected)
    modifies service`stored, service`cooldowns, service`benched, service`dirty, service`runtime, service`windows
    ensures service.View() ==
            Recorded(ZenPool.NoteAcquire(old(service.View()), selected.id, selected.probing, a.startedAt),
                     OutcomeOf(call, a, selected), a.io, service.benchDuration)
  {
    hide Recorded, ZenPool.NoteAcquire;
    service.NoteAcquire(selected.id, selected.probing, a.startedAt);
    var recorded := if call.egress && EgressAttributable(a.dial) then EgressFault else a.dial;
    service.RecordPaidOutcome(
      Outcome(selected.id, selected.provider, selected.probing, recorded, a.doneAt - a.startedAt, a.doneAt), a.io);
  }

  // ----- Each key at most once -----

  predicate Distinct(ids: seq<KeyId>) {
    forall i, j :: 0 <= i < j < |ids| ==> ids[i] != ids[j]
  }

  lemma {:induction false} SelectedIsNew(s: State, call: Call, a: Attempt, tried: seq<KeyId>, keys: Keys)
    requires AcquiredBy(s, call, a, tried, keys).result.Success? && (a.rows.Some? ==> WellKeyed(a.rows.value))
    ensures AcquiredBy(s, call, a, tried, keys).result.value.id !in tried
    ensures AcquiredBy(s, call, a, tried, keys).result.value.id != ""
  {
    var row := SelectedIsEligible(s.pool, s.rr, s.turn, a.rows.value, OptionsOf(call, tried), call.policy, a.listAt,
                                  keys);
  }

  /** A call dials pairwise distinct keys, at most as many as it may attempt. */
  lemma {:induction false} DialsDistinctKeys(s: State, call: Call, i: nat, tried: seq<KeyId>, last: Option<Dial>,
                                             set_: Setting)
    requires RealRows(call) && Distinct(tried) && |tried| == i <= call.Max()
    ensures Distinct(Attempts(s, call, i, tried, last, set_).dialed)
    ensures |Attempts(s, call, i, tried, last, set_).dialed| <= call.Max() <= MAX_ATTEMPTS
    decreases call.Max() - i
  {
    hide AcquiredBy, Dialed;
    if i < call.Max() {
      var a := call.env(i);
      var q := AcquiredBy(s, call, a, tried, set_.keys);
      if q.result.Success? {
        SelectedIsNew(s, call, a, tried, set_.keys);
        if a.dial != Answered && !a.cancelled && ShouldFailover(a.dial) {
          DialsDistinctKeys(Dialed(q, call, a, set_), call, i + 1, tried + [q.result.value.id], Some(a.dial), set_);
        }
      }
    }
  }

  // ----- Requests in flight are restored -----

  function Inflight(p: Pool, id: KeyId): nat { RuntimeOf(p, id).inflight }

  lemma {:induction false} PersistedInflight(p: Pool, id: KeyId, h: Health, upserts: bool, other: KeyId)
    ensures Inflight(Persisted(p, id, h, upserts), other) == Inflight(p, other)
  {
  }

  lemma {:induction false} SuccessInflight(p: Pool, o: Outcome, io: Io, other: KeyId)
    ensures Inflight(WithSuccess(p, o, io), other) == Inflight(p, other)
  {
    hide Succeeded, Decayed;
    var h := Succeeded(Effective(p, o.id), o);
    var q := SetCooldown(NoteOutcome(p, Resolved(o.provider), false, o.now), o.id, None, io.sets);
    PersistedInflight(q, o.id, h, io.upserts, other);
    PersistedInflight(AskPersist(q, o.id, o.now), o.id, h, io.upserts, other);
  }

  lemma {:induction false} FailureInflight(p: Pool, o: Outcome, io: Io, benchDuration: int, other: KeyId)
    ensures Inflight(WithFailure(p, o, io, benchDuration), other) == Inflight(p, other)
  {
    hide Failed, CooldownForFailures;
  }

  lemma {:induction false} RecordedInflight(p: Pool, o: Outcome, io: Io, benchDuration: int, other: KeyId)
    requires o.id != "" && o.id in p.runtime
    ensures Inflight(Recorded(p, o, io, benchDuration), other) ==
            if other == o.id then (if Inflight(p, other) > 0 then Inflight(p, other) - 1 else 0) else Inflight(p, other)
  {
    hide WithSuccess, WithFailure, Judged, Inflight;
    var q := if Heard(io) then Judged(p, o, io, benchDuration) else p;
    JudgedInflight(p, o, io, benchDuration, other);
    StillKnown(p, o, io, benchDuration);
    ReleasedInflight(q, o.id, other);
  }

  lemma {:induction false} JudgedInflight(p: Pool, o: Outcome, io: Io, benchDuration: int, other: KeyId)
    ensures Inflight(Judged(p, o, io, benchDuration), other) == Inflight(p, other)
  {
    hide WithSuccess, WithFailure;
    SuccessInflight(p, o, io, other);
    FailureInflight(p, o, io, benchDuration, other);
  }

  lemma {:induction false} ReleasedInflight(p: Pool, id: KeyId, other: KeyId)
    requires id in p.runtime
    ensures Inflight(NoteRelease(p, id), other) ==
            if other == id then (if Inflight(p, other) > 0 then Inflight(p, other) - 1 else 0) else Inflight(p, other)
  {
  }

  lemma {:induction false} SuccessKnown(p: Pool, o: Outcome, io: Io)
    requires o.id in p.runtime
    ensures o.id in WithSuccess(p, o, io).runtime
  {
    hide Succeeded, Decayed, Effective, Due, Persisted;
    var h := Succeeded(Effective(p, o.id), o);
    var q := SetCooldown(NoteOutcome(p, Resolved(o.provider), false, o.now), o.id, None, io.sets);
    PersistedRuntime(q, o.id, h, io.upserts);
    PersistedRuntime(AskPersist(q, o.id, o.now), o.id, h, io.upserts);
  }

  lemma {:induction false} FailureKnown(p: Pool, o: Outcome, io: Io, benchDuration: int)
    requires o.id in p.runtime
    ensures o.id in WithFailure(p, o, io, benchDuration).runtime
  {
    hide Failed, CooldownForFailures;
  }

  lemma {:induction false} StillKnown(p: Pool, o: Outcome, io: Io, benchDuration: int)
    requires o.id in p.runtime
    ensures o.id in Judged(p, o, io, benchDuration).runtime
  {
    hide WithSuccess, WithFailure;
    SuccessKnown(p, o, io);
    FailureKnown(p, o, io, benchDuration);
  }

  lemma {:induction false} AttemptInflight(s: State, call: Call, a: Attempt, tried: seq<KeyId>, set_: Setting,
                                           id: KeyId)
    requires a.rows.Some? ==> WellKeyed(a.rows.value)
    ensures Inflight(Attempted(AcquiredBy(s, call, a, tried, set_.keys), call, a, set_).pool, id)
            == Inflight(s.pool, id)
  {
    hide Recorded, Examined, PickFrom, PickList;
    var q := AcquiredBy(s, call, a, tried, set_.keys);
    if a.rows.Some? {
      ExaminedSame(Purged(s.pool, a.listAt), OfProvider(a.rows.value, Resolved(call.provider)), OptionsOf(call, tried),
                   a.listAt, id);
    }
    assert Inflight(q.pool, id) == Inflight(s.pool, id);
    if q.result.Success? {
      SelectedIsNew(s, call, a, tried, set_.keys);
      RecordedInflight(ZenPool.NoteAcquire(q.pool, q.result.value.id, q.result.value.probing, a.startedAt),
                       OutcomeOf(call, a, q.result.value), a.io, set_.benchDuration, id);
    }
  }

  /** A call leaves every key's count of requests in flight as it found it. */
  lemma {:induction false} RestoresInflight(s: State, call: Call, i: nat, tried: seq<KeyId>, last: Option<Dial>,
                                            set_: Setting, id: KeyId)
    requires RealRows(call)
    ensures Inflight(Attempts(s, call, i, tried, last, set_).state.pool, id) == Inflight(s.pool, id)
    decreases if i < call.Max() then call.Max() - i else 0
  {
    hide AcquiredBy, Dialed, RuntimeOf;
    if i < call.Max() {
      var a := call.env(i);
      var q := AcquiredBy(s, call, a, tried, set_.keys);
      AttemptInflight(s, call, a, tried, set_, id);
      if q.result.Success? && a.dial != Answered && !a.cancelled && ShouldFailover(a.dial) {
        RestoresInflight(Dialed(q, call, a, set_), call, i + 1, tried + [q.result.value.id], Some(a.dial), set_, id);
      }
    }
  }

  // ----- Egress failures leave the keys alone -----

  /** A failure an egress round does not hold against the key: 429, 403, 5xx, or the network. */
  predicate Blameless(d: Dial) { d.Unreachable? || EgressAttributable(d) }

  ghost predicate AllBlameless(call: Call) {
    call.egress && forall i: nat :: i < call.Max() ==> Blameless(call.env(i).dial)
  }

  /** Health, cooldowns and, from this time on, benches are the same, and so is which of the
      keys with a failure behind them are being probed. */
  ghost predicate SameKeys(p: Pool, q: Pool, now: int) {
    && q.stored == p.stored && q.dirty == p.dirty && q.cooldowns == p.cooldowns
    && (forall id :: id in q.benched ==> id in p.benched && q.benched[id] == p.benched[id])
    && (forall id :: id in p.benched && id !in q.benched ==> p.benched[id] <= now)
    && forall id :: id != "" && Effective(p, id).reason != NoClass ==>
         RuntimeOf(q, id).probing == RuntimeOf(p, id).probing
  }

  /** An attempt with such a key probes it alone, and takes the mark back at its end. */
  lemma {:induction false} AttemptProbing(s: State, call: Call, a: Attempt, tried: seq<KeyId>, set_: Setting, id: KeyId)
    requires id != "" && Effective(s.pool, id).reason != NoClass
    ensures RuntimeOf(Attempted(AcquiredBy(s, call, a, tried, set_.keys), call, a, set_).pool, id).probing
            == RuntimeOf(s.pool, id).probing
  {
    hide Recorded, Examined, PickFrom, PickList, RuntimeOf, SaysYes, Effective;
    var q := AcquiredBy(s, call, a, tried, set_.keys);
    if a.rows.Some? {
      ExaminedSame(Purged(s.pool, a.listAt), OfProvider(a.rows.value, Resolved(call.provider)), OptionsOf(call, tried),
                   a.listAt, id);
    }
    PurgedRuntime(s.pool, a.listAt, id);
    if q.result.Success? {
      var k := q.result.value;
      var began := ZenPool.NoteAcquire(q.pool, k.id, k.probing, a.startedAt);
      BeganRuntime(q.pool, k.id, k.probing, a.startedAt, id);
      RecordedRuntime(began, OutcomeOf(call, a, k), a.io, set_.benchDuration, id);
      if k.id == id { SelectedUnmarked(s, call, a, tried, set_.keys); }
    }
  }

  lemma {:induction false} PurgedRuntime(p: Pool, now: int, id: KeyId)
    ensures RuntimeOf(Purged(p, now), id) == RuntimeOf(p, id)
  {
  }

  lemma {:induction false} SelectedUnmarked(s: State, call: Call, a: Attempt, tried: seq<KeyId>, keys: Keys)
    requires AcquiredBy(s, call, a, tried, keys).result.Success?
    requires Effective(s.pool, AcquiredBy(s, call, a, tried, keys).result.value.id).reason != NoClass
    ensures !RuntimeOf(s.pool, AcquiredBy(s, call, a, tried, keys).result.value.id).probing
  {
    var row := SelectedIsEligible(s.pool, s.rr, s.turn, a.rows.value, OptionsOf(call, tried), call.policy, a.listAt,
                                  keys);
  }

  lemma {:induction false} BlamelessRecorded(p: Pool, o: Outcome, io: Io, benchDuration: int)
    requires Classified(o.dial) == NoClass && o.dial != Answered
    ensures var q := Recorded(p, o, io, benchDuration); q == p.(runtime := q.runtime, windows := q.windows)
  {
  }

  lemma {:induction false} BlamelessAttempt(s: State, call: Call, a: Attempt, tried: seq<KeyId>, set_: Setting,
                                            now: int)
    requires call.egress && Blameless(a.dial) && a.listAt <= now
    ensures SameKeys(s.pool, Attempted(AcquiredBy(s, call, a, tried, set_.keys), call, a, set_).pool, now)
  {
    hide Recorded, Examined, PickFrom, PickList;
    var q := AcquiredBy(s, call, a, tried, set_.keys);
    if a.rows.Some? {
      ExaminedKeeps(Purged(s.pool, a.listAt), OfProvider(a.rows.value, Resolved(call.provider)), OptionsOf(call, tried),
                    a.listAt);
    }
    if q.result.Success? {
      BlamelessRecorded(ZenPool.NoteAcquire(q.pool, q.result.value.id, q.result.value.probing, a.startedAt),
                        OutcomeOf(call, a, q.result.value), a.io, set_.benchDuration);
    }
    forall id | id != "" && Effective(s.pool, id).reason != NoClass
      ensures RuntimeOf(Attempted(q, call, a, set_).pool, id).probing == RuntimeOf(s.pool, id).probing
    {
      AttemptProbing(s, call, a, tried, set_, id);
    }
  }

  /** An egress call whose dials end only in 429, 403, 5xx or network errors changes no
      health, cooldown or bench, and leaves the same failed keys being probed. */
  lemma {:induction false} EgressSparesKeys(s: State, call: Call, i: nat, tried: seq<KeyId>, last: Option<Dial>,
                                            set_: Setting, now: int)
    requires AllBlameless(call) && forall j: nat :: j < call.Max() ==> call.env(j).listAt <= now
    ensures SameKeys(s.pool, Attempts(s, call, i, tried, last, set_).state.pool, now)
    decreases if i < call.Max() then call.Max() - i else 0
  {
    hide AcquiredBy, Dialed;
    if i < call.Max() {
      var a := call.env(i);
      var q := AcquiredBy(s, call, a, tried, set_.keys);
      BlamelessAttempt(s, call, a, tried, set_, now);
      if q.result.Success? && !a.cancelled && ShouldFailover(a.dial) {
        EgressSparesKeys(Dialed(q, call, a, set_), call, i + 1, tried + [q.result.value.id], Some(a.dial), set_, now);
      }
    }
  }

  /** Pools with the same keys make the same keys eligible, active, and candidates of a probe,
      from then on. */
  lemma {:induction false} SameKeysEligible(p: Pool, q: Pool, row: Row, opts: Options, now: int)
    requires SameKeys(p, q, now)
    ensures Eligible(p, row, opts, now) <==> Eligible(q, row, opts, now)
    ensures IsActive(p, row, opts, now) <==> IsActive(q, row, opts, now)
    ensures row.id != "" ==> (IsProbe(p, row, opts, now) <==> IsProbe(q, row, opts, now))
  {
    assert Effective(p, row.id) == Effective(q, row.id);
  }
}
