/** What the pool's memory holds along a run, told by the run itself: the guard windows,
    the load of each key, and the throttle of health writes. */
module ZenHistory {
  import opened Wrappers
  import opened ZenScoring
  import opened ZenGuard
  import opened ZenPool
  import opened ZenAcquire
  import opened ZenRuns

  /** The clock does not go back during the run, nor before this reading. */
  predicate ClockedBy(steps: seq<Step>, now: int) {
    && (forall i, j :: 0 <= i < j < |steps| ==> TimeOf(steps[i]) <= TimeOf(steps[j]))
    && (forall i :: 0 <= i < |steps| ==> TimeOf(steps[i]) <= now)
  }

  function From(rr: nat, turn: nat, steps: seq<Step>, set_: Setting): Pool {
    Ran(State(EMPTY, rr, turn), steps, set_).pool
  }

  lemma {:induction false} FromSnoc(rr: nat, turn: nat, steps: seq<Step>, set_: Setting)
    requires |steps| > 0
    ensures var front, last := steps[..|steps| - 1], steps[|steps| - 1];
            var s := Ran(State(EMPTY, rr, turn), front, set_);
            s.pool == From(rr, turn, front, set_) && From(rr, turn, steps, set_) == Stepped(s, last, set_).pool
  {
  }

  // ----- The guard windows -----

  /** The outcomes of a provider that the service heard. */
  function HeardOf(steps: seq<Step>, provider: Provider): seq<Event> {
    if |steps| == 0 then []
    else
      var last := steps[|steps| - 1];
      HeardOf(steps[..|steps| - 1], provider)
        + if HeardFrom(last, provider) then [Note(last.o.now, Classified(last.o.dial) == Upstream5xx)] else []
  }

  predicate HeardFrom(step: Step, provider: Provider)
    ensures HeardFrom(step, provider) ==> step.Record?
  {
    step.Record? && step.o.id != "" && Heard(step.io) && Resolved(step.o.provider) == provider
  }

  lemma {:induction false} AfterSnoc(events: seq<Event>, e: Event)
    requires e.Note?
    ensures After(events + [e]) == Noted(After(events), e.is5xx, e.now)
  {
    assert (events + [e])[..|events|] == events;
  }

  /** What a step makes of a window: one more outcome, if the service heard it of this provider. */
  lemma {:induction false} StepWindow(s: State, step: Step, set_: Setting, provider: Provider)
    ensures var w, q := WindowOf(s.pool, provider), WindowOf(Stepped(s, step, set_).pool, provider);
            q == if HeardFrom(step, provider) then Noted(w, Classified(step.o.dial) == Upstream5xx, step.o.now) else w
  {
    hide Recorded, Taken, Noted, Classified;
    match step
    case Record(o, io) => RecordedWindows(s.pool, o, io, set_.benchDuration);
    case Take(_, _, _, _) => TakeKeeps(s, step, set_);
    case Begin(_, _, _) =>
  }

  /** Along every run a window holds what the guard keeps of its provider's outcomes. */
  lemma {:induction false} WindowFollows(rr: nat, turn: nat, steps: seq<Step>, set_: Setting, provider: Provider)
    ensures WindowOf(From(rr, turn, steps, set_), provider) == After(HeardOf(steps, provider))
  {
    if |steps| > 0 {
      hide Ran, From, After, Stepped, WindowOf, Noted, HeardFrom;
      var front, last := steps[..|steps| - 1], steps[|steps| - 1];
      FromSnoc(rr, turn, steps, set_);
      WindowFollows(rr, turn, front, set_, provider);
      StepWindow(Ran(State(EMPTY, rr, turn), front, set_), last, set_, provider);
      if HeardFrom(last, provider) {
        AfterSnoc(HeardOf(front, provider), Note(last.o.now, Classified(last.o.dial) == Upstream5xx));
      } else {
        assert HeardOf(front, provider) + [] == HeardOf(front, provider);
      }
    }
  }

  lemma {:induction false} HeardInOrder(steps: seq<Step>, provider: Provider, now: int)
    requires ClockedBy(steps, now)
    ensures Monotone(HeardOf(steps, provider))
    ensures forall i :: 0 <= i < |HeardOf(steps, provider)| ==> HeardOf(steps, provider)[i].now <= now
  {
    if |steps| > 0 {
      var front, last := steps[..|steps| - 1], steps[|steps| - 1];
      HeardInOrder(front, provider, TimeOf(last));
    }
  }

  /** A 5xx is held against nobody exactly when, of all the outcomes of its provider heard
      in the last 60 seconds of the run, at least five are 5xx, making up at least half. */
  lemma {:induction false} FrozenIff(rr: nat, turn: nat, steps: seq<Step>, set_: Setting, o: Outcome)
    requires ClockedBy(steps, o.now)
    ensures Frozen(From(rr, turn, steps, set_), o) <==>
            var recent := Recent(History(HeardOf(steps, Resolved(o.provider))), o.now);
            Classified(o.dial) == Upstream5xx && Fives(recent) >= GUARD_MIN_COUNT && 2 * Fives(recent) >= |recent|
  {
    hide From;
    WindowFollows(rr, turn, steps, set_, Resolved(o.provider));
    HeardInOrder(steps, Resolved(o.provider), o.now);
    GuardMeansStorm(HeardOf(steps, Resolved(o.provider)), o.now);
  }

  // ----- What one step does to a key's runtime -----

  /** The write throttle is asked for this key, and says yes. */
  predicate SaysYes(p: Pool, step: Step, id: KeyId) {
    && step.Record? && step.o.id == id != "" && Heard(step.io) && step.o.dial == Answered && !step.o.probing
    && Decayed(Effective(p, id), step.o.now).reason == NoClass && Decayed(Effective(p, id), step.o.now).consecutive == 0
    && Due(RuntimeOf(p, id), step.o.now)
  }

  /** The step records the end of a dial of this key. */
  predicate Finishes(step: Step, id: KeyId) { step.Record? && step.o.id == id != "" }

  lemma {:induction false} AskedRuntime(p: Pool, id: KeyId, now: int, other: KeyId)
    ensures var r := RuntimeOf(p, other);
            RuntimeOf(AskPersist(p, id, now), other) == if other == id && Due(r, now) then r.(lastPersist := Some(now))
                                                        else r
  {
  }

  lemma {:induction false} ClearedRuntime(p: Pool, o: Outcome, sets: bool)
    ensures var q := SetCooldown(NoteOutcome(p, Resolved(o.provider), false, o.now), o.id, None, sets);
            q.runtime == p.runtime && forall id :: RuntimeOf(q, id) == RuntimeOf(p, id)
  {
  }

  lemma {:induction false} SuccessRuntime(p: Pool, o: Outcome, io: Io, id: KeyId)
    requires o.id != "" && o.dial == Answered && Heard(io)
    ensures var r, q := RuntimeOf(p, id), RuntimeOf(WithSuccess(p, o, io), id);
            && q.requests == r.requests && q.probing == r.probing
            && q.lastPersist == if SaysYes(p, Record(o, io), id) then Some(o.now) else r.lastPersist
  {
    hide Succeeded, Decayed, Effective, Persisted, AskPersist, SetCooldown, NoteOutcome, Due;
    var h := Succeeded(Effective(p, o.id), o);
    var q := SetCooldown(NoteOutcome(p, Resolved(o.provider), false, o.now), o.id, None, io.sets);
    ClearedRuntime(p, o, io.sets);
    assert RuntimeOf(q, o.id) == RuntimeOf(p, o.id);
    AskedRuntime(q, o.id, o.now, id);
    PersistedRuntime(q, o.id, h, io.upserts);
    PersistedRuntime(AskPersist(q, o.id, o.now), o.id, h, io.upserts);
  }

  lemma {:induction false} FailureRuntime(p: Pool, o: Outcome, io: Io, benchDuration: int)
    ensures WithFailure(p, o, io, benchDuration).runtime == p.runtime
  {
    hide Failed, Effective, Persisted, Rested, NoteOutcome;
    var class_, h := Classified(o.dial), Failed(Effective(p, o.id), o);
    var q := NoteOutcome(p, Resolved(o.provider), class_ == Upstream5xx, o.now);
    assert q.runtime == p.runtime by { NotedRuntime(p, Resolved(o.provider), class_ == Upstream5xx, o.now); }
    RestedKeeps(q, o.id, class_, h.consecutive, o.now, io.sets, benchDuration);
    PersistedRuntime(Rested(q, o.id, class_, h.consecutive, o.now, io.sets, benchDuration), o.id, h, io.upserts);
  }

  lemma {:induction false} NotedRuntime(p: Pool, provider: Provider, is5xx: bool, now: int)
    ensures NoteOutcome(p, provider, is5xx, now).runtime == p.runtime
  {
  }

  lemma {:induction false} ReleasedRuntime(p: Pool, id: KeyId, other: KeyId)
    ensures var r, q := RuntimeOf(p, other), RuntimeOf(NoteRelease(p, id), other);
            q.requests == r.requests && q.lastPersist == r.lastPersist && q.probing == (r.probing && other != id)
  {
  }

  lemma {:induction false} RecordedRuntime(p: Pool, o: Outcome, io: Io, benchDuration: int, id: KeyId)
    ensures var r, q := RuntimeOf(p, id), RuntimeOf(Recorded(p, o, io, benchDuration), id);
            && q.requests == r.requests && q.probing == (r.probing && !Finishes(Record(o, io), id))
            && q.lastPersist == if SaysYes(p, Record(o, io), id) then Some(o.now) else r.lastPersist
  {
    hide WithSuccess, WithFailure, SaysYes, NoteRelease, Heard;
    if o.id != "" && o.dial == Answered && Heard(io) {
      SuccessRuntime(p, o, io, id);
    } else {
      SilentThrottle(p, o, io, id);
      FailureRuntime(p, o, io, benchDuration);
    }
    ReleasedRuntime(if Heard(io) then Judged(p, o, io, benchDuration) else p, o.id, id);
  }

  lemma {:induction false} SilentThrottle(p: Pool, o: Outcome, io: Io, id: KeyId)
    requires !(o.id != "" && o.dial == Answered && Heard(io))
    ensures !SaysYes(p, Record(o, io), id)
  {
  }

  /** A selection may drop stale request times, nothing else. */
  lemma {:induction false} ExaminedRuntime(p: Pool, rows: seq<Row>, opts: Options, now: int, id: KeyId)
    ensures var r, q := RuntimeOf(p, id), RuntimeOf(Examined(p, rows, opts, now), id);
            q == r || q == Fresh(r, now)
  {
    DropTwice(RuntimeOf(p, id).requests, now);
    if |rows| > 0 {
      hide Eligible;
      ExaminedRuntime(p, rows[..|rows| - 1], opts, now, id);
    }
  }

  lemma {:induction false} TakenRuntime(s: State, step: Step, set_: Setting, id: KeyId)
    requires step.Take?
    ensures var r, q := RuntimeOf(s.pool, id), RuntimeOf(Taken(s, step, set_).pool, id);
            q == r || q == Fresh(r, step.at)
  {
    if step.rows.Some? {
      ExaminedRuntime(Purged(s.pool, step.at), OfProvider(step.rows.value, Resolved(step.opts.provider)), step.opts,
                      step.at, id);
    }
  }

  // ----- The load of a key -----

  /** When its dials began. */
  function Begun(steps: seq<Step>, id: KeyId): seq<int> {
    if |steps| == 0 then []
    else
      var last := steps[|steps| - 1];
      Begun(steps[..|steps| - 1], id) + if last.Begin? && last.id == id then [last.at] else []
  }

  /** Those of the last five minutes. */
  function Lately(times: seq<int>, now: int): seq<int> {
    if |times| == 0 then []
    else
      var last := times[|times| - 1];
      Lately(times[..|times| - 1], now) + if last < now - 300_000_000_000 then [] else [last]
  }

  predicate InOrder(times: seq<int>) {
    forall i, j :: 0 <= i < j < |times| ==> times[i] <= times[j]
  }

  /** The kept times are the last ones; each one dropped is stale. */
  ghost predicate Keeps(kept: seq<int>, times: seq<int>, clock: int) {
    && |kept| <= |times| && kept == times[|times| - |kept|..]
    && forall i :: 0 <= i < |times| - |kept| ==> times[i] < clock - LOAD_WINDOW
  }

  lemma {:induction false} DropKeeps(kept: seq<int>, times: seq<int>, now: int)
    requires Keeps(kept, times, now)
    ensures Keeps(DropStale(kept, now), times, now)
  {
    if |kept| > 0 && kept[0] < now - LOAD_WINDOW {
      var k := |times| - |kept|;
      assert kept[0] == times[k] && kept[1..] == times[k + 1..];
      DropKeeps(kept[1..], times, now);
    }
  }

  lemma {:induction false} BeganRuntime(p: Pool, id: KeyId, probing: bool, now: int, other: KeyId)
    ensures var r, q := RuntimeOf(p, other), RuntimeOf(NoteAcquire(p, id, probing, now), other);
            && q.requests == (r.requests + if other == id then [now] else []) && q.lastPersist == r.lastPersist
            && q.probing == (r.probing || (other == id && probing))
  {
  }

  lemma {:induction false} BeginKeeps(kept: seq<int>, times: seq<int>, more: seq<int>, clock: int)
    requires Keeps(kept, times, clock)
    ensures Keeps(kept + more, times + more, clock)
  {
  }

  lemma {:induction false} LaterKeeps(kept: seq<int>, times: seq<int>, clock: int, now: int)
    requires Keeps(kept, times, clock) && clock <= now
    ensures Keeps(kept, times, now)
  {
  }

  lemma {:induction false} BegunInOrder(steps: seq<Step>, id: KeyId, now: int)
    requires ClockedBy(steps, now)
    ensures InOrder(Begun(steps, id))
    ensures forall i :: 0 <= i < |Begun(steps, id)| ==> Begun(steps, id)[i] <= now
  {
    if |steps| > 0 { BegunInOrder(steps[..|steps| - 1], id, TimeOf(steps[|steps| - 1])); }
  }

  lemma {:induction false} RequestsKept(rr: nat, turn: nat, steps: seq<Step>, set_: Setting, id: KeyId, now: int)
    requires ClockedBy(steps, now)
    ensures Keeps(RuntimeOf(From(rr, turn, steps, set_), id).requests, Begun(steps, id), now)
  {
    if |steps| > 0 {
      hide Ran, From, Keeps, RuntimeOf, Recorded, Taken, NoteAcquire, Fresh;
      var front, last := steps[..|steps| - 1], steps[|steps| - 1];
      var s := Ran(State(EMPTY, rr, turn), front, set_);
      FromSnoc(rr, turn, steps, set_);
      RequestsKept(rr, turn, front, set_, id, TimeOf(last));
      StepKeeps(s, last, set_, id, Begun(front, id));
      LaterKeeps(RuntimeOf(From(rr, turn, steps, set_), id).requests, Begun(steps, id), TimeOf(last), now);
    }
  }

  lemma {:induction false} StepKeeps(s: State, step: Step, set_: Setting, id: KeyId, times: seq<int>)
    requires Keeps(RuntimeOf(s.pool, id).requests, times, TimeOf(step))
    ensures Keeps(RuntimeOf(Stepped(s, step, set_).pool, id).requests,
                  times + if step.Begin? && step.id == id then [step.at] else [], TimeOf(step))
  {
    hide Keeps, RuntimeOf, Recorded, Taken, NoteAcquire;
    var kept := RuntimeOf(s.pool, id).requests;
    assert times + [] == times && kept + [] == kept;
    match step
    case Record(o, io) => RecordedRuntime(s.pool, o, io, set_.benchDuration, id);
    case Take(_, _, _, at) =>
      TakenRuntime(s, step, set_, id);
      DropKeeps(kept, times, at);
    case Begin(other, probing, at) =>
      BeganRuntime(s.pool, other, probing, at, id);
      BeginKeeps(kept, times, if other == id then [at] else [], at);
  }

  /** In order, the recent ones are a suffix. */
  lemma {:induction false} LatelyIsSuffix(times: seq<int>, now: int, k: nat)
    requires k <= |times| && (forall i :: 0 <= i < k ==> times[i] < now - LOAD_WINDOW)
    requires forall i :: k <= i < |times| ==> times[i] >= now - LOAD_WINDOW
    ensures Lately(times, now) == times[k..]
  {
    if |times| > 0 {
      var front := times[..|times| - 1];
      assert forall i :: 0 <= i < |front| ==> front[i] == times[i];
      if k == |times| {
        LatelyIsSuffix(front, now, k - 1);
      } else {
        LatelyIsSuffix(front, now, k);
        assert times[k..] == front[k..] + [times[|times| - 1]];
      }
    }
  }

  lemma {:induction false} DroppedFront(kept: seq<int>, now: int)
    ensures var d := DropStale(kept, now); |d| > 0 ==> d[0] >= now - LOAD_WINDOW
  {
    if |kept| > 0 && kept[0] < now - LOAD_WINDOW { DroppedFront(kept[1..], now); }
  }

  /** The requests a key's load counts are exactly the dials begun in the last five
      minutes, whatever was selected, recorded and dropped in between. */
  lemma {:induction false} LoadIsRecent(rr: nat, turn: nat, steps: seq<Step>, set_: Setting, id: KeyId, now: int)
    requires ClockedBy(steps, now)
    ensures DropStale(RuntimeOf(From(rr, turn, steps, set_), id).requests, now) == Lately(Begun(steps, id), now)
    ensures Requests(From(rr, turn, steps, set_), id, now) == |Lately(Begun(steps, id), now)|
  {
    hide From, Keeps, InOrder, Lately, DropStale, Begun, RuntimeOf;
    var kept, times := RuntimeOf(From(rr, turn, steps, set_), id).requests, Begun(steps, id);
    RequestsKept(rr, turn, steps, set_, id, now);
    BegunInOrder(steps, id, now);
    DropKeeps(kept, times, now);
    DroppedFront(kept, now);
    KeptIsLately(DropStale(kept, now), times, now);
  }

  lemma {:induction false} KeptIsLately(kept: seq<int>, times: seq<int>, now: int)
    requires Keeps(kept, times, now) && InOrder(times) && (|kept| > 0 ==> kept[0] >= now - LOAD_WINDOW)
    ensures kept == Lately(times, now)
  {
    hide Lately;
    var k := |times| - |kept|;
    assert |kept| > 0 ==> times[k] == kept[0];
    LatelyIsSuffix(times, now, k);
  }

  // ----- The write throttle -----

  /** When the throttle let a success of this key be written. */
  function Yeses(rr: nat, turn: nat, steps: seq<Step>, set_: Setting, id: KeyId): seq<int> {
    if |steps| == 0 then []
    else
      var front, last := steps[..|steps| - 1], steps[|steps| - 1];
      Yeses(rr, turn, front, set_, id) + if SaysYes(From(rr, turn, front, set_), last, id) then [last.o.now] else []
  }

  predicate Apart(yes: seq<int>) {
    forall i, j :: 0 <= i < j < |yes| ==> yes[i] + 30_000_000_000 <= yes[j]
  }

  function LastOf(yes: seq<int>): Option<int> { if yes == [] then None else Some(yes[|yes| - 1]) }

  lemma {:induction false} StepThrottle(s: State, step: Step, set_: Setting, id: KeyId)
    ensures RuntimeOf(Stepped(s, step, set_).pool, id).lastPersist ==
            if SaysYes(s.pool, step, id) then Some(step.o.now) else RuntimeOf(s.pool, id).lastPersist
  {
    hide RuntimeOf, Recorded, Taken, NoteAcquire, Effective, Decayed, Due, Heard;
    match step
    case Record(o, io) => RecordedRuntime(s.pool, o, io, set_.benchDuration, id);
    case Take(_, _, _, _) => TakenRuntime(s, step, set_, id);
    case Begin(other, probing, at) => BeganRuntime(s.pool, other, probing, at, id);
  }

  /** Along every run, two of them are at least thirty seconds apart. */
  lemma {:induction false} YesesApart(rr: nat, turn: nat, steps: seq<Step>, set_: Setting, id: KeyId)
    ensures Apart(Yeses(rr, turn, steps, set_, id))
    ensures RuntimeOf(From(rr, turn, steps, set_), id).lastPersist == LastOf(Yeses(rr, turn, steps, set_, id))
  {
    if |steps| > 0 {
      hide Ran, From, RuntimeOf, Stepped, Effective, Decayed, Heard;
      var front, last := steps[..|steps| - 1], steps[|steps| - 1];
      FromSnoc(rr, turn, steps, set_);
      YesesApart(rr, turn, front, set_, id);
      StepThrottle(Ran(State(EMPTY, rr, turn), front, set_), last, set_, id);
    }
  }

  // ----- Probing -----

  /** A probing dial of the key began, and no dial of it, of whatever kind, has finished since. */
  ghost predicate ProbeOut(steps: seq<Step>, id: KeyId) {
    exists i :: 0 <= i < |steps| && BeginsProbe(steps[i], id)
                && forall j :: i < j < |steps| ==> !Finishes(steps[j], id)
  }

  predicate BeginsProbe(step: Step, id: KeyId) { step.Begin? && step.id == id && step.probing }

  lemma {:induction false} ProbeOutSnoc(steps: seq<Step>, id: KeyId)
    requires |steps| > 0
    ensures var front, last := steps[..|steps| - 1], steps[|steps| - 1];
            ProbeOut(steps, id) <==> BeginsProbe(last, id) || (ProbeOut(front, id) && !Finishes(last, id))
  {
    var n := |steps| - 1;
    var front, last := steps[..n], steps[n];
    assert forall i :: 0 <= i < n ==> front[i] == steps[i];
    if ProbeOut(steps, id) && !BeginsProbe(last, id) {
      var i :| 0 <= i < |steps| && BeginsProbe(steps[i], id) && forall j :: i < j < |steps| ==> !Finishes(steps[j], id);
      assert BeginsProbe(front[i], id) && !Finishes(steps[n], id);
    }
    if ProbeOut(front, id) && !Finishes(last, id) {
      var i :| 0 <= i < n && BeginsProbe(front[i], id) && forall j :: i < j < n ==> !Finishes(front[j], id);
      assert BeginsProbe(steps[i], id);
    }
    if BeginsProbe(last, id) { assert BeginsProbe(steps[n], id); }
  }

  lemma {:induction false} StepProbing(s: State, step: Step, set_: Setting, id: KeyId)
    ensures RuntimeOf(Stepped(s, step, set_).pool, id).probing
            <==> BeginsProbe(step, id) || (RuntimeOf(s.pool, id).probing && !Finishes(step, id))
  {
    hide RuntimeOf, Recorded, Taken, NoteAcquire, SaysYes;
    match step
    case Record(o, io) => RecordedRuntime(s.pool, o, io, set_.benchDuration, id);
    case Take(_, _, _, _) => TakenRuntime(s, step, set_, id);
    case Begin(other, probing, at) => BeganRuntime(s.pool, other, probing, at, id);
  }

  /** Along every run a key is marked as being probed exactly while a probing dial of it has
      begun since a dial of it last finished. */
  lemma {:induction false} ProbingIff(rr: nat, turn: nat, steps: seq<Step>, set_: Setting, id: KeyId)
    ensures RuntimeOf(From(rr, turn, steps, set_), id).probing <==> ProbeOut(steps, id)
  {
    if |steps| > 0 {
      hide Ran, From, RuntimeOf, Stepped, ProbeOut;
      var front, last := steps[..|steps| - 1], steps[|steps| - 1];
      FromSnoc(rr, turn, steps, set_);
      ProbingIff(rr, turn, front, set_, id);
      StepProbing(Ran(State(EMPTY, rr, turn), front, set_), last, set_, id);
      ProbeOutSnoc(steps, id);
    }
  }

  /** A rested key with a failure behind it may be probed, by a real attempt, exactly if no
      probing dial of it has begun since a dial of it last finished. */
  lemma {:induction false} ProbeCandidateIff(rr: nat, turn: nat, steps: seq<Step>, set_: Setting, row: Row,
                                             opts: Options, now: int)
    requires var p := From(rr, turn, steps, set_);
             Eligible(p, row, opts, now) && HealthNow(p, row.id, now).reason != NoClass && opts.forAttempt
    ensures IsProbe(From(rr, turn, steps, set_), row, opts, now) <==> !ProbeOut(steps, row.id)
  {
    hide From, Eligible, HealthNow, ProbeOut, RuntimeOf;
    ProbingIff(rr, turn, steps, set_, row.id);
  }
}
