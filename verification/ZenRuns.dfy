/** The key pool over whole runs: the write-back cache against an engine that always
    writes through, the rows that can arise, and how failed keys rest. */
module ZenRuns {
  import opened Wrappers
  import opened ZenScoring
  import opened ZenGuard
  import opened ZenPool
  import opened ZenAcquire
  import opened ZenSelection

  /** What happens to a pool.  `Take` is a selection, `Begin` the start of its dial. */
  datatype Step =
    | Record(o: Outcome, io: Io)
    | Take(rows: Option<seq<Row>>, opts: Options, own: Policy, at: int)
    | Begin(id: KeyId, probing: bool, at: int)

  function TimeOf(s: Step): int { if s.Record? then s.o.now else s.at }

  datatype State = State(pool: Pool, rr: nat, turn: nat)

  /** What does not change during a run. */
  datatype Setting = Setting(benchDuration: int, keys: Keys)

  function Taken(s: State, step: Step, set_: Setting): Acquisition
    requires step.Take?
  {
    Acquire(s.pool, s.rr, s.turn, step.rows, step.opts, step.own, step.at, set_.keys)
  }

  function Stepped(s: State, step: Step, set_: Setting): State {
    match step
    case Record(o, io) => s.(pool := Recorded(s.pool, o, io, set_.benchDuration))
    case Take(_, _, _, _) => State(Taken(s, step, set_).pool, Taken(s, step, set_).rr, Taken(s, step, set_).turn)
    case Begin(id, probing, at) => s.(pool := NoteAcquire(s.pool, id, probing, at))
  }

  function Ran(s: State, steps: seq<Step>, set_: Setting): State {
    if |steps| == 0 then s else Stepped(Ran(s, steps[..|steps| - 1], set_), steps[|steps| - 1], set_)
  }

  // ----- A selection touches neither health nor cooldowns -----

  lemma {:induction false} ExaminedKeeps(p: Pool, rows: seq<Row>, opts: Options, now: int)
    ensures Examined(p, rows, opts, now) == p.(runtime := Examined(p, rows, opts, now).runtime)
  {
    if |rows| > 0 { ExaminedKeeps(p, rows[..|rows| - 1], opts, now); }
  }

  lemma {:induction false} TakeKeeps(s: State, step: Step, set_: Setting)
    requires step.Take?
    ensures var q := Taken(s, step, set_).pool;
            q == s.pool.(runtime := q.runtime, benched := q.benched)
            && (q.benched == s.pool.benched || q.benched == Purged(s.pool, step.at).benched)
  {
    if step.rows.Some? {
      ExaminedKeeps(Purged(s.pool, step.at), OfProvider(step.rows.value, Resolved(step.opts.provider)), step.opts,
                    step.at);
    }
  }

  // ----- Refinement: write-back against write-through -----

  /** The ideal engine keeps each row current; only the guard windows matter besides. */
  datatype Ideal = Ideal(health: map<KeyId, Health>, windows: map<Provider, seq<Sample>>)

  function IdealHealth(m: Ideal, id: KeyId): Health { if id in m.health then m.health[id] else COLD_START }

  function IdealWindow(m: Ideal, provider: Provider): seq<Sample> {
    if provider in m.windows then m.windows[provider] else []
  }

  function IdealNoted(m: Ideal, o: Outcome, is5xx: bool): Ideal {
    m.(windows := m.windows[Resolved(o.provider) := Noted(IdealWindow(m, Resolved(o.provider)), is5xx, o.now)])
  }

  /** One outcome at the ideal engine: no throttle, no failing writes. */
  function IdealRecorded(m: Ideal, o: Outcome, io: Io): Ideal {
    if o.id == "" || !Heard(io) then m
    else if o.dial == Answered then
      IdealNoted(m, o, false).(health := m.health[o.id := Succeeded(IdealHealth(m, o.id), o)])
    else if Classified(o.dial) == NoClass then IdealNoted(m, o, false)
    else if Classified(o.dial) == Upstream5xx && Storm(Pruned(IdealWindow(m, Resolved(o.provider)), o.now)) then
      IdealNoted(m, o, true)
    else
      var noted := IdealNoted(m, o, Classified(o.dial) == Upstream5xx);
      noted.(health := m.health[o.id := Failed(IdealHealth(m, o.id), o)])
  }

  function IdealRan(m: Ideal, steps: seq<Step>): Ideal {
    if |steps| == 0 then m
    else
      var before, last := IdealRan(m, steps[..|steps| - 1]), steps[|steps| - 1];
      if last.Record? then IdealRecorded(before, last.o, last.io) else before
  }

  ghost predicate Refines(p: Pool, m: Ideal) {
    p.windows == m.windows && forall id :: Effective(p, id) == IdealHealth(m, id)
  }

  lemma {:induction false} PersistedShows(p: Pool, id: KeyId, h: Health, upserts: bool, other: KeyId)
    ensures Effective(Persisted(p, id, h, upserts), other) == if other == id then h else Effective(p, other)
  {
  }

  lemma {:induction false} PersistedRuntime(p: Pool, id: KeyId, h: Health, upserts: bool)
    ensures Persisted(p, id, h, upserts).runtime == p.runtime
  {
  }

  /** What one outcome makes of the health of its key. */
  function HealthAfter(h: Health, o: Outcome, io: Io, frozen: bool): Health {
    if !Heard(io) then h
    else if o.dial == Answered then Succeeded(h, o)
    else if Classified(o.dial) == NoClass || frozen then h
    else Failed(h, o)
  }

  lemma {:induction false} ThrottledShows(p: Pool, id: KeyId, h: Health, io: Io, now: int, other: KeyId)
    ensures var asked := AskPersist(p, id, now);
            && asked == p.(runtime := asked.runtime)
            && Effective(Persisted(asked, id, h, io.upserts), other) == (if other == id then h else Effective(p, other))
            && Effective(asked.(dirty := asked.dirty[id := h]), other)
              == (if other == id then h else Effective(p, other))
  {
  }

  lemma {:induction false} SuccessShows(p: Pool, o: Outcome, io: Io, other: KeyId)
    ensures Effective(WithSuccess(p, o, io), other) == if other == o.id then Succeeded(Effective(p, o.id), o)
                                                       else Effective(p, other)
    ensures WithSuccess(p, o, io).windows == NoteOutcome(p, Resolved(o.provider), false, o.now).windows
  {
    var q := SetCooldown(NoteOutcome(p, Resolved(o.provider), false, o.now), o.id, None, io.sets);
    assert Effective(q, other) == Effective(p, other);
    PersistedShows(q, o.id, Succeeded(Effective(p, o.id), o), io.upserts, other);
    ThrottledShows(q, o.id, Succeeded(Effective(p, o.id), o), io, o.now, other);
  }

  lemma {:induction false} RestedKeeps(p: Pool, id: KeyId, class_: ErrorClass, consecutive: nat, now: int, sets: bool,
                                       benchDuration: int)
    ensures var q := Rested(p, id, class_, consecutive, now, sets, benchDuration);
            q == p.(benched := q.benched, cooldowns := q.cooldowns)
  {
  }

  lemma {:induction false} FailureShows(p: Pool, o: Outcome, io: Io, benchDuration: int, other: KeyId)
    ensures Effective(WithFailure(p, o, io, benchDuration), other)
            == if other == o.id then Failed(Effective(p, o.id), o) else Effective(p, other)
    ensures WithFailure(p, o, io, benchDuration).windows
            == NoteOutcome(p, Resolved(o.provider), Classified(o.dial) == Upstream5xx, o.now).windows
  {
    var q := NoteOutcome(p, Resolved(o.provider), Classified(o.dial) == Upstream5xx, o.now);
    var h := Failed(Effective(p, o.id), o);
    RestedKeeps(q, o.id, Classified(o.dial), h.consecutive, o.now, io.sets, benchDuration);
    PersistedShows(Rested(q, o.id, Classified(o.dial), h.consecutive, o.now, io.sets, benchDuration), o.id, h,
                   io.upserts, other);
  }

  lemma {:induction false} JudgedShows(p: Pool, o: Outcome, io: Io, benchDuration: int, other: KeyId)
    requires Heard(io)
    ensures Effective(Judged(p, o, io, benchDuration), other) ==
            if other == o.id then HealthAfter(Effective(p, o.id), o, io, Frozen(p, o)) else Effective(p, other)
  {
    if o.dial == Answered {
      SuccessShows(p, o, io, other);
    } else if Classified(o.dial) != NoClass && !Frozen(p, o) {
      FailureShows(p, o, io, benchDuration, other);
    }
  }

  lemma {:induction false} RecordedShows(p: Pool, o: Outcome, io: Io, benchDuration: int, other: KeyId)
    requires o.id != ""
    ensures Effective(Recorded(p, o, io, benchDuration), other) ==
            if other == o.id then HealthAfter(Effective(p, o.id), o, io, Frozen(p, o)) else Effective(p, other)
  {
    if Heard(io) { JudgedShows(p, o, io, benchDuration, other); }
  }

  lemma {:induction false} IdealShows(m: Ideal, o: Outcome, io: Io, frozen: bool, other: KeyId)
    requires o.id != ""
    requires frozen == (Classified(o.dial) == Upstream5xx && Storm(Pruned(IdealWindow(m, Resolved(o.provider)), o.now)))
    ensures IdealHealth(IdealRecorded(m, o, io), other) ==
            if other == o.id then HealthAfter(IdealHealth(m, o.id), o, io, frozen) else IdealHealth(m, other)
  {
  }

  /** What one outcome makes of the guard windows. */
  function WindowsAfter(windows: map<Provider, seq<Sample>>, o: Outcome, io: Io): map<Provider, seq<Sample>> {
    if o.id == "" || !Heard(io) then windows
    else
      var provider := Resolved(o.provider);
      windows[provider := Noted(if provider in windows then windows[provider] else [],
                                Classified(o.dial) == Upstream5xx, o.now)]
  }

  lemma {:induction false} RecordedWindows(p: Pool, o: Outcome, io: Io, benchDuration: int)
    ensures Recorded(p, o, io, benchDuration).windows == WindowsAfter(p.windows, o, io)
  {
    if o.id != "" && Heard(io) { JudgedWindows(p, o, io, benchDuration); }
  }

  lemma {:induction false} JudgedWindows(p: Pool, o: Outcome, io: Io, benchDuration: int)
    ensures Judged(p, o, io, benchDuration).windows
            == NoteOutcome(p, Resolved(o.provider), Classified(o.dial) == Upstream5xx, o.now).windows
  {
    if o.dial == Answered {
      SuccessShows(p, o, io, o.id);
    } else if Classified(o.dial) != NoClass && !Frozen(p, o) {
      FailureShows(p, o, io, benchDuration, o.id);
    }
  }

  lemma {:induction false} IdealWindows(m: Ideal, o: Outcome, io: Io)
    ensures IdealRecorded(m, o, io).windows == WindowsAfter(m.windows, o, io)
  {
  }

  lemma {:induction false} WindowsAgree(p: Pool, m: Ideal, o: Outcome, io: Io, benchDuration: int)
    requires p.windows == m.windows
    ensures Recorded(p, o, io, benchDuration).windows == IdealRecorded(m, o, io).windows
  {
    RecordedWindows(p, o, io, benchDuration);
    IdealWindows(m, o, io);
  }

  lemma {:induction false} RecordedRefines(p: Pool, m: Ideal, o: Outcome, io: Io, benchDuration: int)
    requires Refines(p, m)
    ensures Refines(Recorded(p, o, io, benchDuration), IdealRecorded(m, o, io))
  {
    WindowsAgree(p, m, o, io, benchDuration);
    if o.id != "" {
      forall id
        ensures Effective(Recorded(p, o, io, benchDuration), id) == IdealHealth(IdealRecorded(m, o, io), id)
      {
        RecordedShows(p, o, io, benchDuration, id);
        IdealShows(m, o, io, Frozen(p, o), id);
        assert Effective(p, id) == IdealHealth(m, id) && Effective(p, o.id) == IdealHealth(m, o.id);
      }
    }
  }

  /** Over any run, and whatever writes fail or are put off, every reader sees the
      health of the ideal engine. */
  lemma {:induction false} WriteBackRefinesWriteThrough(s: State, m: Ideal, steps: seq<Step>, set_: Setting)
    requires Refines(s.pool, m)
    ensures Refines(Ran(s, steps, set_).pool, IdealRan(m, steps))
  {
    if |steps| > 0 {
      var front, last := steps[..|steps| - 1], steps[|steps| - 1];
      WriteBackRefinesWriteThrough(s, m, front, set_);
      var t := Ran(s, front, set_);
      match last
      case Record(o, io) => RecordedRefines(t.pool, IdealRan(m, front), o, io, set_.benchDuration);
      case Take(_, _, _, _) =>
        TakeKeeps(t, last, set_);
        assert forall id :: Effective(Taken(t, last, set_).pool, id) == Effective(t.pool, id);
      case Begin(id, probing, at) =>
        assert forall k :: Effective(NoteAcquire(t.pool, id, probing, at), k) == Effective(t.pool, k);
    }
  }

  /** A counted failure. */
  predicate CountedFailure(p: Pool, o: Outcome, io: Io) {
    o.id != "" && Heard(io) && o.dial != Answered && Classified(o.dial) != NoClass && !Frozen(p, o)
  }

  /** After a scored failure, and after a success that ends a failure or a probe, a
      successful upsert makes the stored row itself current. */
  lemma {:induction false} ForcedWriteStores(p: Pool, o: Outcome, io: Io, benchDuration: int)
    requires o.id != "" && Heard(io) && io.upserts
    requires CountedFailure(p, o, io) || (o.dial == Answered && (o.probing || Effective(p, o.id).consecutive > 0))
    ensures var q := Recorded(p, o, io, benchDuration);
            o.id in q.stored && q.stored[o.id] == Effective(q, o.id) && o.id !in q.dirty
            && q.stored[o.id]
              == (if o.dial == Answered then Succeeded(Effective(p, o.id), o) else Failed(Effective(p, o.id), o))
  {
    assert Decayed(Effective(p, o.id), o.now).consecutive == Effective(p, o.id).consecutive;
  }

  // ----- The rows that arise -----

  /** Every row the service holds has a score from 0 to 70, and a cooldown reason
      exactly while failures are consecutive. */
  ghost predicate AllReachable(p: Pool) {
    forall id :: Reachable(Effective(p, id))
  }

  lemma {:induction false} ScoredReachable(h: Health, o: Outcome)
    requires Reachable(h)
    ensures Reachable(Succeeded(h, o))
    ensures Classified(o.dial) != NoClass ==> Reachable(Failed(h, o))
  {
    DecayRaises(h, o.now);
    SuccessReachable(Decayed(h, o.now), o.latency, o.now);
    if Classified(o.dial) != NoClass { FailureReachable(Decayed(h, o.now), Classified(o.dial), o.now); }
  }

  lemma {:induction false} IdealStays(m: Ideal, steps: seq<Step>)
    requires forall id :: Reachable(IdealHealth(m, id))
    ensures forall id :: Reachable(IdealHealth(IdealRan(m, steps), id))
  {
    if |steps| > 0 {
      var front, last := steps[..|steps| - 1], steps[|steps| - 1];
      IdealStays(m, front);
      var before := IdealRan(m, front);
      if last.Record? {
        assert Reachable(IdealHealth(before, last.o.id));
        ScoredReachable(IdealHealth(before, last.o.id), last.o);
        forall id
          ensures Reachable(IdealHealth(IdealRecorded(before, last.o, last.io), id))
        {
          assert Reachable(IdealHealth(before, id));
        }
      }
    }
  }

  const EMPTY := Pool(map[], map[], map[], map[], map[], map[])

  /** Along every run from an empty store: scores from 0 to 70, and a cooldown reason is
      set exactly while there are consecutive failures. */
  lemma {:induction false} RunsStayReachable(rr: nat, turn: nat, steps: seq<Step>, set_: Setting)
    ensures AllReachable(Ran(State(EMPTY, rr, turn), steps, set_).pool)
  {
    var m := Ideal(map[], map[]);
    assert Refines(EMPTY, m);
    WriteBackRefinesWriteThrough(State(EMPTY, rr, turn), m, steps, set_);
    IdealStays(m, steps);
    forall id
      ensures Reachable(Effective(Ran(State(EMPTY, rr, turn), steps, set_).pool, id))
    {
      assert Reachable(IdealHealth(IdealRan(m, steps), id));
    }
  }

  // ----- Probation and backoff -----

  predicate MonotoneFrom(steps: seq<Step>, from: int) {
    && (forall i :: 0 <= i < |steps| ==> from <= TimeOf(steps[i]))
    && (forall i, j :: 0 <= i < j < |steps| ==> TimeOf(steps[i]) <= TimeOf(steps[j]))
  }

  /** The step records no success for this key. */
  predicate NoSuccess(step: Step, id: KeyId) {
    step.Record? && step.o.id == id && step.o.dial == Answered ==> !Heard(step.io)
  }

  /** When a key that failed at this time, for the c-th time in a row, may be tried
      again: after its cooldown, or after a minute if the cooldown was not stored. */
  function RestUntil(c: nat, at: int, sets: bool): int {
    at + if sets then CooldownForFailures(c) else DEFAULT_COOLDOWN
  }

  /** The key failed then for the c-th time, and has not succeeded since. */
  ghost predicate Resting(p: Pool, id: KeyId, c: nat, at: int, sets: bool, clock: int) {
    && Effective(p, id).reason != NoClass && Effective(p, id).consecutive >= c >= 1 && at <= clock
    && (sets ==> id in p.cooldowns && p.cooldowns[id].Until? && p.cooldowns[id].at >= RestUntil(c, at, sets))
    && (!sets ==> clock >= RestUntil(c, at, sets) || (id in p.benched && p.benched[id] >= RestUntil(c, at, sets)))
  }

  lemma {:induction false} CooldownGrows(c: nat, d: nat)
    requires 1 <= c <= d
    ensures DEFAULT_COOLDOWN <= CooldownForFailures(c) <= CooldownForFailures(d)
  {
    ShiftedGrows(0, if c - 1 > 4 then 4 else c - 1);
    ShiftedGrows(if c - 1 > 4 then 4 else c - 1, if d - 1 > 4 then 4 else d - 1);
  }

  lemma {:induction false} PersistedRest(p: Pool, id: KeyId, h: Health, upserts: bool)
    ensures Persisted(p, id, h, upserts).cooldowns == p.cooldowns && Persisted(p, id, h, upserts).benched == p.benched
  {
  }

  lemma {:induction false} NotedRest(p: Pool, provider: Provider, is5xx: bool, now: int, id: KeyId, class_: ErrorClass,
                                     c: nat, sets: bool, benchDuration: int)
    ensures var q, r := Rested(NoteOutcome(p, provider, is5xx, now), id, class_, c, now, sets, benchDuration),
                        Rested(p, id, class_, c, now, sets, benchDuration);
            q.cooldowns == r.cooldowns && q.benched == r.benched
  {
  }

  /** What a counted failure does to cooldowns and the bench. */
  lemma {:induction false} FailureRest(p: Pool, o: Outcome, io: Io, benchDuration: int)
    ensures var q := WithFailure(p, o, io, benchDuration);
            var r := Rested(p, o.id, Classified(o.dial), Failed(Effective(p, o.id), o).consecutive, o.now, io.sets,
                            benchDuration);
            q.cooldowns == r.cooldowns && q.benched == r.benched
  {
    var class_, c := Classified(o.dial), Failed(Effective(p, o.id), o).consecutive;
    var q := NoteOutcome(p, Resolved(o.provider), class_ == Upstream5xx, o.now);
    NotedRest(p, Resolved(o.provider), class_ == Upstream5xx, o.now, o.id, class_, c, io.sets, benchDuration);
    PersistedRest(Rested(q, o.id, class_, c, o.now, io.sets, benchDuration), o.id, Failed(Effective(p, o.id), o),
                  io.upserts);
  }

  lemma {:induction false} RecordedRest(p: Pool, o: Outcome, io: Io, benchDuration: int)
    requires CountedFailure(p, o, io)
    ensures Recorded(p, o, io, benchDuration).cooldowns == WithFailure(p, o, io, benchDuration).cooldowns
    ensures Recorded(p, o, io, benchDuration).benched == WithFailure(p, o, io, benchDuration).benched
  {
  }

  /** The failure that starts the rest. */
  lemma {:induction false} FailureRests(p: Pool, o: Outcome, io: Io, benchDuration: int)
    requires CountedFailure(p, o, io) && (Classified(o.dial).RateLimited? || Classified(o.dial).Upstream5xx?)
    ensures var q, c := Recorded(p, o, io, benchDuration), Effective(p, o.id).consecutive + 1;
            Effective(q, o.id).consecutive == c && Resting(q, o.id, c, o.now, io.sets, o.now)
  {
    RecordedShows(p, o, io, benchDuration, o.id);
    RecordedRest(p, o, io, benchDuration);
    FailureRest(p, o, io, benchDuration);
    assert Effective(Recorded(p, o, io, benchDuration), o.id) == Failed(Effective(p, o.id), o);
  }

  /** Later failures of the key never shorten its rest. */
  lemma {:induction false} LaterFailureRests(p: Pool, o: Outcome, io: Io, benchDuration: int, c: nat, at: int,
                                             sets: bool, clock: int)
    requires Resting(p, o.id, c, at, sets, clock) && clock <= o.now && benchDuration >= DEFAULT_COOLDOWN
    requires CountedFailure(p, o, io)
    ensures Resting(Recorded(p, o, io, benchDuration), o.id, c, at, sets, o.now)
  {
    hide Recorded, WithFailure, Effective, CooldownForFailures;
    RecordedShows(p, o, io, benchDuration, o.id);
    RecordedRest(p, o, io, benchDuration);
    FailureRest(p, o, io, benchDuration);
    assert Effective(Recorded(p, o, io, benchDuration), o.id) == Failed(Effective(p, o.id), o);
    CooldownGrows(c, Failed(Effective(p, o.id), o).consecutive);
  }

  /** An outcome that is not a counted failure or a success leaves every key's rest, and so
      does an outcome of another key. */
  lemma {:induction false} OtherOutcomeRests(p: Pool, o: Outcome, io: Io, benchDuration: int, id: KeyId, c: nat,
                                             at: int, sets: bool, clock: int)
    requires Resting(p, id, c, at, sets, clock) && clock <= o.now
    requires o.id != id || (!CountedFailure(p, o, io) && (o.dial == Answered ==> !Heard(io)))
    ensures Resting(Recorded(p, o, io, benchDuration), id, c, at, sets, o.now)
  {
    if o.id != "" {
      RecordedShows(p, o, io, benchDuration, id);
      if Heard(io) { OtherRest(p, o, io, benchDuration, id); }
    }
  }

  /** Two pools rest this key alike. */
  predicate SameRest(p: Pool, q: Pool, id: KeyId) {
    && (id in q.cooldowns <==> id in p.cooldowns) && (id in p.cooldowns ==> q.cooldowns[id] == p.cooldowns[id])
    && (id in q.benched <==> id in p.benched) && (id in p.benched ==> q.benched[id] == p.benched[id])
  }

  lemma {:induction false} OtherRest(p: Pool, o: Outcome, io: Io, benchDuration: int, id: KeyId)
    requires Heard(io) && (o.id != id || (o.dial != Answered && (Classified(o.dial) == NoClass || Frozen(p, o))))
    ensures SameRest(p, Judged(p, o, io, benchDuration), id)
  {
    if o.dial == Answered {
      SuccessRest(p, o, io);
    } else if Classified(o.dial) != NoClass && !Frozen(p, o) {
      FailureRest(p, o, io, benchDuration);
      RestedOther(p, o.id, Classified(o.dial), Failed(Effective(p, o.id), o).consecutive, o.now, io.sets, benchDuration,
                  id);
    }
  }

  lemma {:induction false} RestedOther(p: Pool, id: KeyId, class_: ErrorClass, c: nat, now: int, sets: bool,
                                       benchDuration: int, other: KeyId)
    requires other != id
    ensures SameRest(p, Rested(p, id, class_, c, now, sets, benchDuration), other)
  {
  }

  lemma {:induction false} SuccessRest(p: Pool, o: Outcome, io: Io)
    ensures WithSuccess(p, o, io).benched == p.benched
    ensures WithSuccess(p, o, io).cooldowns == if io.sets then p.cooldowns - {o.id} else p.cooldowns
  {
    var q := SetCooldown(NoteOutcome(p, Resolved(o.provider), false, o.now), o.id, None, io.sets);
    assert q.benched == p.benched && q.cooldowns == if io.sets then p.cooldowns - {o.id} else p.cooldowns;
    PersistedRest(q, o.id, Succeeded(Effective(p, o.id), o), io.upserts);
    ThrottledRest(q, o.id, Succeeded(Effective(p, o.id), o), io.upserts, o.now);
  }

  lemma {:induction false} ThrottledRest(p: Pool, id: KeyId, h: Health, upserts: bool, now: int)
    ensures var asked := AskPersist(p, id, now);
            && asked.benched == p.benched && asked.cooldowns == p.cooldowns
            && Persisted(asked, id, h, upserts).benched == p.benched
              && Persisted(asked, id, h, upserts).cooldowns == p.cooldowns
  {
  }

  lemma {:induction false} TakeRests(s: State, step: Step, set_: Setting, id: KeyId, c: nat, at: int, sets: bool,
                                     clock: int)
    requires step.Take? && Resting(s.pool, id, c, at, sets, clock) && clock <= step.at
    ensures Resting(Taken(s, step, set_).pool, id, c, at, sets, step.at)
  {
    TakeKeeps(s, step, set_);
  }

  lemma {:induction false} StepRests(s: State, step: Step, set_: Setting, id: KeyId, c: nat, at: int, sets: bool,
                                     clock: int)
    requires Resting(s.pool, id, c, at, sets, clock) && clock <= TimeOf(step) && NoSuccess(step, id)
             && set_.benchDuration >= DEFAULT_COOLDOWN
    ensures Resting(Stepped(s, step, set_).pool, id, c, at, sets, TimeOf(step))
  {
    match step
    case Record(o, io) =>
      if o.id == id && CountedFailure(s.pool, o, io) {
        LaterFailureRests(s.pool, o, io, set_.benchDuration, c, at, sets, clock);
      } else {
        OtherOutcomeRests(s.pool, o, io, set_.benchDuration, id, c, at, sets, clock);
      }
    case Take(_, _, _, _) => TakeRests(s, step, set_, id, c, at, sets, clock);
    case Begin(other, probing, now) =>
      assert Effective(NoteAcquire(s.pool, other, probing, now), id) == Effective(s.pool, id);
  }

  lemma {:induction false} RunRests(s: State, steps: seq<Step>, set_: Setting, id: KeyId, c: nat, at: int, sets: bool,
                                    clock: int)
    requires Resting(s.pool, id, c, at, sets, clock) && MonotoneFrom(steps, clock)
             && set_.benchDuration >= DEFAULT_COOLDOWN
    requires forall i :: 0 <= i < |steps| ==> NoSuccess(steps[i], id)
    ensures Resting(Ran(s, steps, set_).pool, id, c, at, sets,
                    if |steps| == 0 then clock else TimeOf(steps[|steps| - 1]))
  {
    if |steps| > 0 {
      var n := |steps| - 1;
      RunRests(s, steps[..n], set_, id, c, at, sets, clock);
      StepRests(Ran(s, steps[..n], set_), steps[n], set_, id, c, at, sets,
                if n == 0 then clock else TimeOf(steps[n - 1]));
    }
  }

  /** A resting key is selected only after its deadline, and only to probe. */
  lemma {:induction false} RestingSelection(s: State, step: Step, set_: Setting, id: KeyId, c: nat, at: int, sets: bool,
                                            clock: int)
    requires step.Take? && Resting(s.pool, id, c, at, sets, clock) && clock <= step.at
    requires Taken(s, step, set_).result.Success? && Taken(s, step, set_).result.value.id == id
    ensures RestUntil(c, at, sets) <= step.at && Taken(s, step, set_).result.value.probing && step.opts.forAttempt
  {
    var row := SelectedIsEligible(s.pool, s.rr, s.turn, step.rows.value, step.opts, step.own, step.at, set_.keys);
  }

  /** Probation and backoff, over every run: from the c-th consecutive counted 429 or 5xx
      of a key, and until a success is recorded for it, the key is not selected before
      min(2^(c-1), 16) minutes have passed (one minute when the cooldown could not be
      stored), and after that only to probe, by a real attempt. */
  lemma {:induction false} ProbationAndBackoff(s: State, o: Outcome, io: Io, steps: seq<Step>, take: Step,
                                               set_: Setting)
    requires CountedFailure(s.pool, o, io) && (Classified(o.dial).RateLimited? || Classified(o.dial).Upstream5xx?)
    requires set_.benchDuration >= DEFAULT_COOLDOWN
    requires take.Take? && MonotoneFrom(steps + [take], o.now)
    requires forall i :: 0 <= i < |steps| ==> NoSuccess(steps[i], o.id)
    ensures var failed := Stepped(s, Record(o, io), set_);
            var r := Taken(Ran(failed, steps, set_), take, set_).result;
            var c := Effective(failed.pool, o.id).consecutive;
            r.Success? && r.value.id == o.id ==>
              && RestUntil(c, o.now, io.sets) <= take.at
              && r.value.probing && take.opts.forAttempt
  {
    var failed := Stepped(s, Record(o, io), set_);
    var c := Effective(failed.pool, o.id).consecutive;
    FailureRests(s.pool, o, io, set_.benchDuration);
    var all := steps + [take];
    assert forall i :: 0 <= i < |steps| ==> all[i] == steps[i];
    assert all[|steps|] == take;
    RunRests(failed, steps, set_, o.id, c, o.now, io.sets, o.now);
    var r := Taken(Ran(failed, steps, set_), take, set_).result;
    if r.Success? && r.value.id == o.id {
      RestingSelection(Ran(failed, steps, set_), take, set_, o.id, c, o.now, io.sets,
                       if |steps| == 0 then o.now else TimeOf(steps[|steps| - 1]));
    }
  }
}
