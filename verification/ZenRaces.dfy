/** What calls that overlap can break, and exactly when: probation, one probe at a time, and
    the share of a key. */
module ZenRaces {
  import opened Wrappers
  import opened ZenScoring
  import opened ZenPool
  import opened ZenAcquire
  import opened ZenSelection
  import opened ZenRuns
  import opened ZenHistory
  import opened ZenOverlap

  /** The pool after some step of the run, from this one on. */
  ghost predicate Since(p: Pool, j: nat, s: State, steps: seq<Step>, set_: Setting) {
    exists k :: j <= k <= |steps| && p == Ran(s, steps[..k], set_).pool
  }

  /** The reads of a call in the order of the source: rows listed after i steps, the clock
      read after c, the benches copied after j, and then each key's health and load, and
      the counts of the share checks. */
  ghost predicate ReadsAfter(sight: Sight, now: int, i: nat, c: nat, j: nat, s: State, steps: seq<Step>,
                             set_: Setting) {
    && i <= c <= j <= |steps|
    && sight.listed == Ran(s, steps[..i], set_).pool && sight.benches == Ran(s, steps[..j], set_).pool
    && (forall k :: 0 <= k < c ==> TimeOf(steps[k]) <= now)
      && (forall k :: c <= k < |steps| ==> now <= TimeOf(steps[k]))
    && (forall id :: Since(sight.overlay(id), j, s, steps, set_) && Since(sight.load(id), j, s, steps, set_))
    && forall id, other :: Since(sight.caps(id, other), j, s, steps, set_)
  }

  /** A call that starts during the run. */
  ghost predicate Beside(sight: Sight, now: int, s: State, steps: seq<Step>, set_: Setting) {
    exists i: nat, c: nat, j: nat :: ReadsAfter(sight, now, i, c, j, s, steps, set_)
  }

  lemma {:induction false} BesideOverlaps(sight: Sight, now: int, id: KeyId, s: State, steps: seq<Step>, set_: Setting)
    requires Beside(sight, now, s, steps, set_)
    ensures Overlaps(sight, id, s, steps, set_)
  {
    hide Ran;
    var i: nat, c: nat, j: nat :| ReadsAfter(sight, now, i, c, j, s, steps, set_);
    assert Since(sight.overlay(id), j, s, steps, set_);
    var k :| j <= k <= |steps| && sight.overlay(id) == Ran(s, steps[..k], set_).pool;
  }

  // ----- Probation -----

  /** A real attempt, with no key tried yet. */
  const ATTEMPT := Options(OpenCode, [], "", None, true)

  /** A call beside a run without a success of the key selects it, and not as a probe. */
  ghost predicate SelectsUnproven(s: State, id: KeyId, from: int, steps: seq<Step>, sight: Sight, rows: seq<Row>,
                                  opts: Options, own: Policy, now: int, set_: Setting) {
    && MonotoneFrom(steps, from) && (forall i :: 0 <= i < |steps| ==> NoSuccess(steps[i], id))
    && Beside(sight, now, s, steps, set_)
    && var r := AcquireSeen(sight, rows, opts, own, now, set_.keys);
       r.Success? && r.value.id == id && !(r.value.probing && opts.forAttempt)
  }

  /** From this state and time on the key is selected only to probe, until it succeeds. */
  ghost predicate OnProbation(s: State, id: KeyId, from: int, set_: Setting) {
    forall steps, sight, rows, opts, own, now :: !SelectsUnproven(s, id, from, steps, sight, rows, opts, own, now, set_)
  }

  function Later(a: int, b: int): int { if a < b then b else a }

  /** When neither bench nor cooldown holds the key any more. */
  function RestedAt(p: Pool, id: KeyId, now: int): int {
    Later(now, Later(if id in p.benched then p.benched[id] else now,
                     if id in p.cooldowns && p.cooldowns[id].Until? then p.cooldowns[id].at else now))
  }

  function Again(id: KeyId, at: int): Outcome { Outcome(id, OpenCode, false, Refused(429), 0, at) }

  /** Two more failures of the key: of the first one the cooldown is stored but not the row, of
      the second one both. */
  lemma {:induction false} TwoMore(p: Pool, id: KeyId, at: int, benchDuration: int)
    returns (one: Pool, now: int, two: Pool)
    requires id != "" && !Marked(p, id)
    ensures one == Recorded(p, Again(id, at), Io(false, true, true, false), benchDuration)
    ensures two == Recorded(one, Again(id, now), Io(false, true, true, true), benchDuration)
    ensures !Marked(one, id) && id !in two.dirty && at <= now && !Benched(one, id, now) && !Cooling(one, id, now)
  {
    hide Recorded, Failed, Effective;
    one := Recorded(p, Again(id, at), Io(false, true, true, false), benchDuration);
    FailureWrites(p, Again(id, at), Io(false, true, true, false), benchDuration);
    now := RestedAt(one, id, at);
    two := Recorded(one, Again(id, now), Io(false, true, true, true), benchDuration);
    FailureWrites(one, Again(id, now), Io(false, true, true, true), benchDuration);
  }

  /** Every failure that the stored row does not show can be forgotten: a call that lists the
      rows, and looks at the unwritten health only after a later failure has been written,
      sees neither, and takes the key for a healthy one. */
  lemma {:induction false} TornReadSkipsProbation(s: State, o: Outcome, io: Io, set_: Setting, ciphertext: string)
    returns (steps: seq<Step>, sight: Sight, rows: seq<Row>, now: int)
    requires CountedFailure(s.pool, o, io) && !io.upserts && !Marked(s.pool, o.id)
    requires set_.keys.open(ciphertext).Some?
    ensures SelectsUnproven(Stepped(s, Record(o, io), set_), o.id, o.now, steps, sight, rows, ATTEMPT, Spread, now,
                            set_)
  {
    hide Recorded, AcquireSeen, CountedFailure;
    var failed := Stepped(s, Record(o, io), set_);
    StillUnmarked(s.pool, o, io, set_.benchDuration);
    var one, two;
    one, now, two := TwoMore(failed.pool, o.id, o.now, set_.benchDuration);
    steps := [Record(Again(o.id, o.now), Io(false, true, true, false)),
              Record(Again(o.id, now), Io(false, true, true, true))];
    sight := Sight(one, one, id => two, id => two, (a, b) => two, 0, k => 0);
    TwoSteps(failed, steps, set_);
    assert ReadsAfter(sight, now, 1, 1, 1, failed, steps, set_) by {
      assert Since(two, 1, failed, steps, set_);
    }
    var row := Row(o.id, true, OpenCode, ciphertext);
    rows := [row];
    assert HealthSeen(sight, o.id, now).reason == NoClass;
    OneHealthyKey(sight, row, ATTEMPT, now, set_.keys);
  }

  lemma {:induction false} StillUnmarked(p: Pool, o: Outcome, io: Io, benchDuration: int)
    requires CountedFailure(p, o, io) && !io.upserts && !Marked(p, o.id)
    ensures !Marked(Recorded(p, o, io, benchDuration), o.id) && o.id != ""
  {
    hide Recorded;
    FailureWrites(p, o, io, benchDuration);
  }

  lemma {:induction false} TwoSteps(s: State, steps: seq<Step>, set_: Setting)
    requires |steps| == 2
    ensures Ran(s, steps[..1], set_) == Stepped(s, steps[0], set_)
    ensures steps[..2] == steps && Ran(s, steps, set_) == Stepped(Stepped(s, steps[0], set_), steps[1], set_)
  {
    hide Stepped;
    assert steps[..1][..0] == [] && steps[..2] == steps && steps[..1] == [steps[0]];
  }

  /** Probation in any overlap, exactly: a counted failure puts its key on probation if and
      only if its upsert succeeds or the stored row shows a failure already. */
  lemma {:induction false} ProbationIff(s: State, o: Outcome, io: Io, set_: Setting)
    requires CountedFailure(s.pool, o, io) && exists ciphertext :: set_.keys.open(ciphertext).Some?
    ensures OnProbation(Stepped(s, Record(o, io), set_), o.id, o.now, set_) <==> io.upserts || Marked(s.pool, o.id)
  {
    hide CountedFailure, AcquireSeen, Stepped, MonotoneFrom, NoSuccess, Beside;
    var failed := Stepped(s, Record(o, io), set_);
    if io.upserts || Marked(s.pool, o.id) {
      forall steps, sight, rows, opts, own, now
        ensures !SelectsUnproven(failed, o.id, o.now, steps, sight, rows, opts, own, now, set_)
      {
        if SelectsUnproven(failed, o.id, o.now, steps, sight, rows, opts, own, now, set_) {
          BesideOverlaps(sight, now, o.id, failed, steps, set_);
          OverlappedProbation(s, o, io, steps, sight, rows, opts, own, now, set_);
        }
      }
    } else {
      var ciphertext :| set_.keys.open(ciphertext).Some?;
      var steps, sight, rows, now := TornReadSkipsProbation(s, o, io, set_, ciphertext);
    }
  }

  // ----- The minute on the bench -----

  /** Another call that forgets the bench when it ends lets a call that read the clock just
      before select the key: of every failure whose cooldown was not stored, unless the
      key cools down anyway (see `OverlappedBench`). */
  lemma {:induction false} BenchEndsForAll(s: State, o: Outcome, io: Io, set_: Setting, ciphertext: string)
    returns (steps: seq<Step>, sight: Sight, rows: seq<Row>)
    requires CountedFailure(s.pool, o, io) && (Classified(o.dial).RateLimited? || Classified(o.dial).Upstream5xx?)
    requires !io.sets && set_.keys.open(ciphertext).Some? && !Cooling(s.pool, o.id, o.now + DEFAULT_COOLDOWN - 1)
    ensures var failed, now := Stepped(s, Record(o, io), set_), o.now + DEFAULT_COOLDOWN - 1;
            var r := AcquireSeen(sight, rows, ATTEMPT, Spread, now, set_.keys);
            Benched(failed.pool, o.id, now) && Beside(sight, now, failed, steps, set_)
            && MonotoneFrom(steps, o.now) && (forall i :: 0 <= i < |steps| ==> NoSuccess(steps[i], o.id))
            && r.Success? && r.value.id == o.id
  {
    hide Recorded, AcquireSeen, CountedFailure, Taken, RuntimeOf;
    var failed, at := Stepped(s, Record(o, io), set_), o.now + DEFAULT_COOLDOWN;
    var row, take := Row(o.id, true, OpenCode, ciphertext), Take(Some([]), ATTEMPT, Spread, at);
    var p, q := failed.pool, Taken(failed, take, set_).pool;
    steps, rows := [take], [row];
    sight := Sight(p, q, id => q, id => q, (a, b) => q, 0, k => 0);
    assert steps[..0] == [] && steps[..1] == steps && Ran(failed, steps, set_) == Stepped(failed, take, set_);
    assert ReadsAfter(sight, at - 1, 0, 0, 1, failed, steps, set_) by { assert Since(q, 1, failed, steps, set_); }
    BenchedFailure(s.pool, o, io, set_.benchDuration);
    TakeKeeps(failed, take, set_);
    assert q.benched == Purged(p, at).benched by { TakePurges(failed, take, set_); }
    TakenRuntime(failed, take, set_, o.id);
    assert IsProbeSeen(sight, row, ATTEMPT, at - 1);
    OneFailedKey(sight, row, ATTEMPT, at - 1, set_.keys);
  }

  lemma {:induction false} TakePurges(s: State, take: Step, set_: Setting)
    requires take.Take? && take.rows == Some([])
    ensures Taken(s, take, set_).pool.benched == Purged(s.pool, take.at).benched
  {
  }

  lemma {:induction false} BenchedFailure(p: Pool, o: Outcome, io: Io, benchDuration: int)
    requires CountedFailure(p, o, io) && (Classified(o.dial).RateLimited? || Classified(o.dial).Upstream5xx?)
             && !io.sets
    ensures var q := Recorded(p, o, io, benchDuration);
            && o.id in q.benched && q.benched[o.id] == o.now + DEFAULT_COOLDOWN && q.cooldowns == p.cooldowns
            && Effective(q, o.id).reason != NoClass && !RuntimeOf(q, o.id).probing
  {
    hide Recorded, RuntimeOf, SaysYes;
    FailureWrites(p, o, io, benchDuration);
    FailureRest(p, o, io, benchDuration);
    RecordedRest(p, o, io, benchDuration);
    RecordedRuntime(p, o, io, benchDuration, o.id);
  }

  // ----- One probe at a time -----

  function TakeOf(row: Row, opts: Options, at: int): Step { Take(Some([row]), opts, Spread, at) }

  predicate Selects(s: State, step: Step, set_: Setting, id: KeyId)
    requires step.Take?
  {
    Taken(s, step, set_).result.Success? && Taken(s, step, set_).result.value.id == id
  }

  predicate SelectsToProbe(s: State, step: Step, set_: Setting, id: KeyId)
    requires step.Take?
  {
    Selects(s, step, set_, id) && Taken(s, step, set_).result.value.probing
  }

  lemma {:induction false} CandidateProbed(s: State, row: Row, opts: Options, at: int, set_: Setting)
    requires IsProbe(s.pool, row, opts, at) && row.provider == Resolved(opts.provider)
             && set_.keys.open(row.ciphertext).Some?
    ensures SelectsToProbe(s, TakeOf(row, opts, at), set_, row.id)
  {
    hide Acquire, AcquireSeen;
    var still := Still(s.pool, s.rr, s.turn);
    assert IsProbeSeen(still, row, opts, at);
    OneFailedKey(still, row, opts, at, set_.keys);
    StillAcquires(s.pool, s.rr, s.turn, [row], opts, Spread, at, set_.keys);
  }

  /** The rest and the health of the key are the same. */
  predicate SameStanding(p: Pool, q: Pool, id: KeyId, at: int) {
    && Effective(p, id) == Effective(q, id) && (Cooling(p, id, at) <==> Cooling(q, id, at))
    && (Benched(p, id, at) <==> Benched(q, id, at))
  }

  lemma {:induction false} ProbeAgain(p: Pool, q: Pool, row: Row, opts: Options, at: int)
    requires IsProbe(p, row, opts, at) && SameStanding(p, q, row.id, at) && !RuntimeOf(q, row.id).probing
    ensures IsProbe(q, row, opts, at)
  {
  }

  lemma {:induction false} TakeStanding(s: State, row: Row, opts: Options, at: int, set_: Setting)
    ensures SameStanding(s.pool, Taken(s, TakeOf(row, opts, at), set_).pool, row.id, at)
  {
    hide Acquire;
    TakeKeeps(s, TakeOf(row, opts, at), set_);
  }

  /** Two calls can probe the same key, whichever it is: the first selection marks nothing, its
      dial does. */
  lemma {:induction false} ProbesCanOverlap(s: State, row: Row, opts: Options, at: int, set_: Setting)
    requires IsProbe(s.pool, row, opts, at) && row.provider == Resolved(opts.provider)
             && set_.keys.open(row.ciphertext).Some?
    ensures var take := TakeOf(row, opts, at);
            SelectsToProbe(s, take, set_, row.id) && SelectsToProbe(Stepped(s, take, set_), take, set_, row.id)
  {
    hide Acquire, IsProbe, SelectsToProbe, SameStanding;
    var take := TakeOf(row, opts, at);
    var next := Stepped(s, take, set_);
    CandidateProbed(s, row, opts, at, set_);
    TakeStanding(s, row, opts, at, set_);
    StepProbing(s, take, set_, row.id);
    CandidateUnmarked(s.pool, row, opts, at);
    ProbeAgain(s.pool, next.pool, row, opts, at);
    CandidateProbed(next, row, opts, at, set_);
  }

  lemma {:induction false} CandidateUnmarked(p: Pool, row: Row, opts: Options, at: int)
    requires IsProbe(p, row, opts, at)
    ensures !RuntimeOf(p, row.id).probing
  {
  }

  /** A failed key that is marked is not selected. */
  lemma {:induction false} MarkedAlone(s: State, take: Step, set_: Setting, id: KeyId)
    requires take.Take? && RuntimeOf(s.pool, id).probing && Effective(s.pool, id).reason != NoClass
    ensures !Selects(s, take, set_, id)
  {
    hide PickFrom, PickList, Probing, ModeOf, Examined;
    if Selects(s, take, set_, id) {
      var found := SelectedIsEligible(s.pool, s.rr, s.turn, take.rows.value, take.opts, take.own, take.at, set_.keys);
    }
  }

  /** An outcome that says nothing about its key: neither a success nor a counted failure. */
  predicate Silent(p: Pool, o: Outcome, io: Io) {
    !CountedFailure(p, o, io) && (o.dial == Answered ==> !Heard(io))
  }

  lemma {:induction false} SilentStanding(p: Pool, o: Outcome, io: Io, benchDuration: int, at: int)
    requires Silent(p, o, io) && o.id != ""
    ensures SameStanding(p, Recorded(p, o, io, benchDuration), o.id, at)
  {
    hide Judged, NoteRelease, Effective;
    RecordedShows(p, o, io, benchDuration, o.id);
    if Heard(io) { OtherRest(p, o, io, benchDuration, o.id); }
    ReleaseStanding(if Heard(io) then Judged(p, o, io, benchDuration) else p, o.id);
  }

  lemma {:induction false} ReleaseStanding(p: Pool, id: KeyId)
    ensures NoteRelease(p, id).cooldowns == p.cooldowns && NoteRelease(p, id).benched == p.benched
  {
  }

  lemma {:induction false} BeginStanding(p: Pool, id: KeyId, probing: bool, now: int, at: int)
    ensures SameStanding(p, NoteAcquire(p, id, probing, now), id, at)
  {
  }

  /** While a probing dial of a key is out, no call selects the key; but any dial of it that
      finishes, an older one that is no probe included, lets the next call probe it beside
      the one still out. */
  lemma {:induction false} AnyFinisherFreesProbe(s: State, row: Row, opts: Options, at: int, o: Outcome, io: Io,
                                                 set_: Setting)
    requires IsProbe(s.pool, row, opts, at) && row.provider == Resolved(opts.provider)
             && set_.keys.open(row.ciphertext).Some?
    requires o.id == row.id != "" && Silent(s.pool, o, io)
    ensures var probed := Stepped(s, Begin(row.id, true, at), set_);
            && (forall take: Step :: take.Take? ==> !Selects(probed, take, set_, row.id))
            && SelectsToProbe(Stepped(probed, Record(o, io), set_), TakeOf(row, opts, at), set_, row.id)
  {
    hide Acquire, IsProbe, Selects, SelectsToProbe, SameStanding, Recorded, NoteAcquire, RuntimeOf, Silent;
    var begin, record := Begin(row.id, true, at), Record(o, io);
    var probed := Stepped(s, begin, set_);
    var finished := Stepped(probed, record, set_);
    BeginStanding(s.pool, row.id, true, at, at);
    StepProbing(s, begin, set_, row.id);
    assert RuntimeOf(probed.pool, row.id).probing;
    CandidateFailed(s.pool, probed.pool, row, opts, at);
    forall take: Step | take.Take? ensures !Selects(probed, take, set_, row.id) {
      MarkedAlone(probed, take, set_, row.id);
    }
    StillSilent(s.pool, row.id, at, o, io);
    SilentStanding(probed.pool, o, io, set_.benchDuration, at);
    StepProbing(probed, record, set_, row.id);
    StandingTwice(s.pool, probed.pool, finished.pool, row.id, at);
    ProbeAgain(s.pool, finished.pool, row, opts, at);
    CandidateProbed(finished, row, opts, at, set_);
  }

  lemma {:induction false} CandidateFailed(p: Pool, q: Pool, row: Row, opts: Options, at: int)
    requires IsProbe(p, row, opts, at) && SameStanding(p, q, row.id, at)
    ensures Effective(q, row.id).reason != NoClass
  {
  }

  lemma {:induction false} StillSilent(p: Pool, id: KeyId, at: int, o: Outcome, io: Io)
    requires Silent(p, o, io)
    ensures Silent(NoteAcquire(p, id, true, at), o, io)
  {
  }

  lemma {:induction false} StandingTwice(p: Pool, q: Pool, r: Pool, id: KeyId, at: int)
    requires SameStanding(p, q, id, at) && SameStanding(q, r, id, at)
    ensures SameStanding(p, r, id, at)
  {
  }

  const KEY: KeyId := "k"

  const WRITTEN := Io(false, true, true, true)

  /** Two dials of a healthy key, of which one is refused; and after its rest a probe of it. */
  const OLD_DIALS := [Begin(KEY, false, 0), Begin(KEY, false, 0), Record(Again(KEY, 0), WRITTEN)]

  /** A run in which this happens: the other old dial ends while the probe is out, and the key
      is probed twice at a time. */
  lemma {:induction false} OldDialFreesProbe(set_: Setting, ciphertext: string)
    requires set_.keys.open(ciphertext).Some?
    ensures var s := Ran(State(EMPTY, 0, 0), OLD_DIALS, set_);
            var take := TakeOf(Row(KEY, true, OpenCode, ciphertext), ATTEMPT, MINUTE);
            var probed := Stepped(s, Begin(KEY, true, MINUTE), set_);
            var ended := Stepped(probed, Record(Outcome(KEY, OpenCode, false, Unreachable, 0, MINUTE), WRITTEN), set_);
            SelectsToProbe(s, take, set_, KEY) && SelectsToProbe(ended, take, set_, KEY)
  {
    hide SelectsToProbe, Recorded;
    var s := Ran(State(EMPTY, 0, 0), OLD_DIALS, set_);
    var row := Row(KEY, true, OpenCode, ciphertext);
    OldDialsRest(set_, row);
    CandidateProbed(s, row, ATTEMPT, MINUTE, set_);
    AnyFinisherFreesProbe(s, row, ATTEMPT, MINUTE, Outcome(KEY, OpenCode, false, Unreachable, 0, MINUTE), WRITTEN,
                          set_);
  }

  lemma {:induction false} OldDialsRest(set_: Setting, row: Row)
    requires row.id == KEY && row.enabled
    ensures IsProbe(Ran(State(EMPTY, 0, 0), OLD_DIALS, set_).pool, row, ATTEMPT, MINUTE)
  {
    hide Recorded, NoteAcquire, Failed, Effective, ProbeOut, RuntimeOf, Rested;
    var start := State(EMPTY, 0, 0);
    var begun := NoteAcquire(NoteAcquire(EMPTY, KEY, false, 0), KEY, false, 0);
    var p := Recorded(begun, Again(KEY, 0), WRITTEN, set_.benchDuration);
    assert OLD_DIALS[..2][..1] == OLD_DIALS[..1] && OLD_DIALS[..1][..0] == [];
    assert Ran(start, OLD_DIALS[..1], set_) == Stepped(start, OLD_DIALS[0], set_);
    assert Ran(start, OLD_DIALS[..2], set_) == Stepped(Ran(start, OLD_DIALS[..1], set_), OLD_DIALS[1], set_);
    assert Ran(start, OLD_DIALS, set_).pool == p;
    FreshBegun();
    RefusedOnce(begun, row, set_.benchDuration);
    ProbingIff(0, 0, OLD_DIALS, set_, KEY);
    NoneBegan();
  }

  /** One refusal of a new key, and it may be probed after a minute. */
  lemma {:induction false} RefusedOnce(p: Pool, row: Row, benchDuration: int)
    requires p.stored == map[] && p.dirty == map[] && p.cooldowns == map[] && p.benched == map[] && p.windows == map[]
    requires row.id == KEY && row.enabled
    ensures var q := Recorded(p, Again(KEY, 0), WRITTEN, benchDuration);
            Eligible(q, row, ATTEMPT, MINUTE) && HealthNow(q, KEY, MINUTE).reason != NoClass
  {
    hide Recorded, Failed;
    FailureWrites(p, Again(KEY, 0), WRITTEN, benchDuration);
    FailureRest(p, Again(KEY, 0), WRITTEN, benchDuration);
    RecordedRest(p, Again(KEY, 0), WRITTEN, benchDuration);
    FirstFailure();
    CooldownDoubles(1);
  }

  lemma {:induction false} FreshBegun()
    ensures var begun := NoteAcquire(NoteAcquire(EMPTY, KEY, false, 0), KEY, false, 0);
            begun.stored == map[] && begun.dirty == map[] && begun.cooldowns == map[] && begun.benched == map[]
            && begun.windows == map[]
  {
  }

  lemma {:induction false} FirstFailure()
    ensures Failed(COLD_START, Again(KEY, 0)).consecutive == 1 && Failed(COLD_START, Again(KEY, 0)).reason != NoClass
  {
  }

  lemma {:induction false} NoneBegan()
    ensures !ProbeOut(OLD_DIALS, KEY)
  {
  }

  // ----- The share of a key -----

  /** The checks of all candidates counted the same requests of each. */
  ghost predicate CountsAgree(s: Sight, cands: seq<Candidate>, now: int) {
    forall a, b, c :: a in cands && b in cands && c in cands ==>
      Requests(s.caps(a.row.id, c.row.id), c.row.id, now) == Requests(s.caps(b.row.id, c.row.id), c.row.id, now)
  }

  /** Up to some candidate, two checks counted alike. */
  ghost predicate CountAlike(s: Sight, cands: seq<Candidate>, one: KeyId, two: KeyId, now: int) {
    forall c :: c in cands ==> Requests(s.caps(one, c.row.id), c.row.id, now)
                               == Requests(s.caps(two, c.row.id), c.row.id, now)
  }

  lemma {:induction false} SameTotals(s: Sight, cands: seq<Candidate>, one: KeyId, two: KeyId, now: int)
    requires CountAlike(s, cands, one, two, now)
    ensures TotalSeen(s, cands, one, now) == TotalSeen(s, cands, two, now)
  {
    if |cands| > 0 {
      var front, last := cands[..|cands| - 1], cands[|cands| - 1];
      assert last in cands && forall c :: c in front ==> c in cands;
      SameTotals(s, front, one, two, now);
    }
  }

  /** A total covers what it counted of any two of the candidates. */
  lemma {:induction false} TotalSeenCovers(s: Sight, cands: seq<Candidate>, id: KeyId, now: int, j: nat)
    requires j < |cands|
    ensures Requests(s.caps(id, cands[j].row.id), cands[j].row.id, now) <= TotalSeen(s, cands, id, now)
    ensures forall i :: 0 <= i < j ==>
              Requests(s.caps(id, cands[i].row.id), cands[i].row.id, now)
              + Requests(s.caps(id, cands[j].row.id), cands[j].row.id, now) <= TotalSeen(s, cands, id, now)
  {
    hide Requests;
    var n := |cands| - 1;
    var front := cands[..n];
    assert forall i :: 0 <= i < n ==> front[i] == cands[i];
    if j < n {
      TotalSeenCovers(s, front, id, now, j);
    } else {
      forall i | 0 <= i < n
        ensures Requests(s.caps(id, cands[i].row.id), cands[i].row.id, now) <= TotalSeen(s, front, id, now)
      {
        TotalSeenCovers(s, front, id, now, i);
      }
    }
  }

  /** When two candidates are both over their share, each by its own check, the two checks
      counted the requests of some candidate differently. */
  lemma {:induction false} BothOverCapDiffer(s: Sight, cands: seq<Candidate>, now: int, i: nat, j: nat)
    requires i < j < |cands|
    requires OverCapSeen(s, cands, cands[i].row.id, now) && OverCapSeen(s, cands, cands[j].row.id, now)
    ensures !CountAlike(s, cands, cands[i].row.id, cands[j].row.id, now)
  {
    hide Requests, TotalSeen;
    if CountAlike(s, cands, cands[i].row.id, cands[j].row.id, now) {
      SameTotals(s, cands, cands[i].row.id, cands[j].row.id, now);
      TotalSeenCovers(s, cands, cands[i].row.id, now, j);
    }
  }

  /** So while the checks agree on the counts, the cap leaves a key to pick, and the key
      picked stays within 70 percent of the window once it has at least ten requests. */
  lemma {:induction false} ShareCapHoldsSeen(s: Sight, rows: seq<Row>, opts: Options, own: Policy, now: int, keys: Keys)
    requires var actives := ActivesSeen(s, OfProvider(rows, Resolved(opts.provider)), opts, now);
             |actives| >= 2 && CountsAgree(s, actives, now)
    requires PolicyOf(opts, own) != Sticky && !ProbingSeen(s, rows, opts, now)
    ensures var actives := ActivesSeen(s, OfProvider(rows, Resolved(opts.provider)), opts, now);
            var r := AcquireSeen(s, rows, opts, own, now, keys);
            && |WithinCapSeen(s, actives, actives, now)| > 0
            && ListSeen(s, rows, opts, own, now) == WithinCapSeen(s, actives, actives, now)
            && (r.Success? && TotalSeen(s, actives, r.value.id, now) >= 10 ==>
                  10 * (Requests(s.caps(r.value.id, r.value.id), r.value.id, now) + 1)
                  <= 7 * (TotalSeen(s, actives, r.value.id, now) + 1))
  {
    hide Requests, TotalSeen, ActivesSeen, ProbesSeen, WithinCapSeen, ModeOf, OfProvider;
    var actives := ActivesSeen(s, OfProvider(rows, Resolved(opts.provider)), opts, now);
    CappedMembers(s, actives, actives, now);
    assert actives[0] in actives && actives[1] in actives;
    if OverCapSeen(s, actives, actives[0].row.id, now) && OverCapSeen(s, actives, actives[1].row.id, now) {
      BothOverCapDiffer(s, actives, now, 0, 1);
    }
    assert actives[0] in WithinCapSeen(s, actives, actives, now)
      || actives[1] in WithinCapSeen(s, actives, actives, now);
  }

  /** Dials of one key, one after the other. */
  function Dials(id: KeyId, n: nat, at: int): (r: seq<Step>)
    ensures |r| == n
  {
    seq(n, i => Begin(id, false, at))
  }

  lemma {:induction false} DropSnoc(requests: seq<int>, now: int)
    ensures DropStale(requests + [now], now) == DropStale(requests, now) + [now]
  {
    if |requests| > 0 && requests[0] < now - LOAD_WINDOW {
      assert (requests + [now])[1..] == requests[1..] + [now];
      DropSnoc(requests[1..], now);
    }
  }

  lemma {:induction false} BeganRequests(p: Pool, id: KeyId, now: int, other: KeyId)
    ensures Requests(NoteAcquire(p, id, false, now), other, now) == Requests(p, other, now)
            + if other == id then 1 else 0
  {
    hide NoteAcquire, RuntimeOf, DropStale;
    BeganRuntime(p, id, false, now, other);
    DropSnoc(RuntimeOf(p, other).requests, now);
    assert RuntimeOf(p, other).requests + [] == RuntimeOf(p, other).requests;
  }

  lemma {:induction false} DialsRequests(s: State, before: seq<Step>, id: KeyId, n: nat, at: int, set_: Setting,
                                         other: KeyId)
    ensures Requests(Ran(s, before + Dials(id, n, at), set_).pool, other, at)
            == Requests(Ran(s, before, set_).pool, other, at) + if other == id then n else 0
  {
    var steps := before + Dials(id, n, at);
    if n == 0 {
      assert steps == before;
    } else {
      hide Requests;
      var front := before + Dials(id, n - 1, at);
      assert steps[..|steps| - 1] == front && steps[|steps| - 1] == Begin(id, false, at);
      DialsRequests(s, before, id, n - 1, at, set_, other);
      BeganRequests(Ran(s, front, set_).pool, id, at, other);
    }
  }

  /** Ten dials of one key, and forty of another. */
  function Crowd(now: int): seq<Step> { Dials("a", 10, now) + Dials("b", 40, now) }

  lemma {:induction false} CrowdRequests(set_: Setting, now: int, id: KeyId)
    ensures var start := State(EMPTY, 0, 0);
            && Requests(Ran(start, Dials("a", 10, now), set_).pool, id, now) == (if id == "a" then 10 else 0)
            && Requests(Ran(start, Crowd(now), set_).pool, id, now) ==
               (if id == "a" then 10 else 0) + (if id == "b" then 40 else 0)
  {
    hide Dials;
    var start := State(EMPTY, 0, 0);
    assert [] + Dials("a", 10, now) == Dials("a", 10, now) && Ran(start, [], set_) == start;
    DialsRequests(start, [], "a", 10, now, set_, id);
    DialsRequests(start, Dials("a", 10, now), "b", 40, now, set_, id);
  }

  lemma {:induction false} CrowdSeen(sight: Sight, now: int, set_: Setting)
    requires var start := State(EMPTY, 0, 0);
             && sight.listed == sight.benches == EMPTY && (forall id :: sight.overlay(id) == sight.load(id) == EMPTY)
             && (forall id, other :: sight.caps(id, other) == Ran(start, Dials("a", 10, now), set_).pool
                                     || sight.caps(id, other) == Ran(start, Crowd(now), set_).pool)
    ensures Beside(sight, now, State(EMPTY, 0, 0), Crowd(now), set_)
  {
    var start, steps := State(EMPTY, 0, 0), Crowd(now);
    assert steps[..0] == [] && steps[..10] == Dials("a", 10, now) && steps[..50] == steps;
    assert Since(EMPTY, 0, start, steps, set_) by { assert EMPTY == Ran(start, steps[..0], set_).pool; }
    assert Since(Ran(start, steps[..10], set_).pool, 0, start, steps, set_);
    assert Since(Ran(start, steps[..50], set_).pool, 0, start, steps, set_);
    assert ReadsAfter(sight, now, 0, 0, 0, start, steps, set_);
  }

  lemma {:induction false} TwoRows(sight: Sight, a: Row, b: Row, now: int)
    requires IsActiveSeen(sight, a, ATTEMPT, now) && IsActiveSeen(sight, b, ATTEMPT, now)
             && a.provider == b.provider == OpenCode
    ensures OfProvider([a, b], OpenCode) == [a, b] && ProbesSeen(sight, [a, b], ATTEMPT, now) == []
    ensures ActivesSeen(sight, [a, b], ATTEMPT, now) == [CandidateSeen(sight, a, now), CandidateSeen(sight, b, now)]
  {
    hide IsActiveSeen, IsProbeSeen, CandidateSeen;
    ActiveIsNoProbe(sight, a, ATTEMPT, now);
    ActiveIsNoProbe(sight, b, ATTEMPT, now);
    OneRow(sight, a, ATTEMPT, now);
    assert [a, b][..1] == [a] && OfProvider([a], OpenCode) == [a];
  }

  lemma {:induction false} TwoTotals(sight: Sight, a: Candidate, b: Candidate, id: KeyId, now: int)
    ensures TotalSeen(sight, [a, b], id, now) ==
            Requests(sight.caps(id, a.row.id), a.row.id, now) + Requests(sight.caps(id, b.row.id), b.row.id, now)
  {
    assert [a, b][..1] == [a] && [a][..0] == [];
    assert TotalSeen(sight, [], id, now) == 0;
    assert TotalSeen(sight, [a], id, now) == Requests(sight.caps(id, a.row.id), a.row.id, now);
  }

  /** Dials that begin between two checks can make both keys exceed their share as each is
      looked at, and then the list without the cap is used. */
  lemma {:induction false} CapCanExcludeAll(now: int, set_: Setting) returns (sight: Sight, rows: seq<Row>)
    ensures Beside(sight, now, State(EMPTY, 0, 0), Crowd(now), set_) && !ProbingSeen(sight, rows, ATTEMPT, now)
    ensures var actives := ActivesSeen(sight, OfProvider(rows, OpenCode), ATTEMPT, now);
            && |actives| == 2 && actives[0].row.id != actives[1].row.id
            && WithinCapSeen(sight, actives, actives, now) == []
            && ListSeen(sight, rows, ATTEMPT, Spread, now) == actives
  {
    hide Requests, Ran, Dials, Crowd, Beside, WithinCapSeen, TotalSeen, ActivesSeen, ProbesSeen, OfProvider;
    var start, a, b := State(EMPTY, 0, 0), Row("a", true, OpenCode, "c"), Row("b", true, OpenCode, "c");
    assert a.id[0] != b.id[0];
    var few, many := Ran(start, Dials("a", 10, now), set_).pool, Ran(start, Crowd(now), set_).pool;
    sight := Sight(EMPTY, EMPTY, id => EMPTY, id => EMPTY, (x, y) => if x == "a" then few else many, 1, k => 0);
    rows := [a, b];
    CrowdSeen(sight, now, set_);
    TwoRows(sight, a, b, now);
    var one, two := CandidateSeen(sight, a, now), CandidateSeen(sight, b, now);
    BothOver(sight, one, two, few, many, now, set_);
    AllOverCap(sight, [one, two], [one, two], now);
  }

  lemma {:induction false} AllOverCap(s: Sight, all: seq<Candidate>, some: seq<Candidate>, now: int)
    requires forall c :: c in some ==> OverCapSeen(s, all, c.row.id, now)
    ensures WithinCapSeen(s, all, some, now) == []
  {
    if |some| > 0 {
      hide OverCapSeen;
      AllOverCap(s, all, some[..|some| - 1], now);
    }
  }

  lemma {:induction false} BothOver(sight: Sight, a: Candidate, b: Candidate, few: Pool, many: Pool, now: int,
                                    set_: Setting)
    requires a.row.id == "a" && b.row.id == "b" && few == Ran(State(EMPTY, 0, 0), Dials("a", 10, now), set_).pool
             && many == Ran(State(EMPTY, 0, 0), Crowd(now), set_).pool
    requires forall x, y :: sight.caps(x, y) == if x == "a" then few else many
    ensures OverCapSeen(sight, [a, b], "a", now) && OverCapSeen(sight, [a, b], "b", now)
  {
    hide Requests, Ran, Dials, Crowd, TotalSeen;
    assert "a"[0] != "b"[0];
    CrowdRequests(set_, now, "a");
    CrowdRequests(set_, now, "b");
    TwoTotals(sight, a, b, "a", now);
    TwoTotals(sight, a, b, "b", now);
  }
}
