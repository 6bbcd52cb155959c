/** Selections that overlap other steps: a call reads the pool piece by piece, and others may
    record outcomes, begin dials and select keys between its reads. */
module ZenOverlap {
  import opened Wrappers
  import opened ZenScoring
  import opened ZenPool
  import opened ZenAcquire
  import opened ZenSelection
  import opened ZenRuns
  import opened Skipping
  import opened WeightedPick

  /** What a call sees: the pool when the store listed its rows, health and cooldowns; when
      the benches were copied; when each key's unwritten health and load were looked at;
      when the share check of one key counted the requests of another; and the counters
      it drew. */
  datatype Sight = Sight(
    listed: Pool, benches: Pool, overlay: KeyId -> Pool, load: KeyId -> Pool, caps: (KeyId, KeyId) -> Pool,
    turn: nat, ticks: nat -> nat)

  function HealthSeen(s: Sight, id: KeyId, now: int): Health {
    Decayed(if id in s.overlay(id).dirty then s.overlay(id).dirty[id]
            else if id in s.listed.stored then s.listed.stored[id] else COLD_START, now)
  }

  predicate EligibleSeen(s: Sight, row: Row, opts: Options, now: int) {
    row.enabled && row.id !in opts.excluded && !Benched(s.benches, row.id, now) && !Cooling(s.listed, row.id, now)
  }

  predicate IsActiveSeen(s: Sight, row: Row, opts: Options, now: int) {
    EligibleSeen(s, row, opts, now) && HealthSeen(s, row.id, now).reason == NoClass
  }

  predicate IsProbeSeen(s: Sight, row: Row, opts: Options, now: int) {
    && EligibleSeen(s, row, opts, now) && HealthSeen(s, row.id, now).reason != NoClass
    && opts.forAttempt && !RuntimeOf(s.load(row.id), row.id).probing
  }

  function CandidateSeen(s: Sight, row: Row, now: int): Candidate {
    var load := s.load(row.id);
    Candidate(row, SelectionScore(HealthSeen(s, row.id, now).score, Requests(load, row.id, now),
                                  RuntimeOf(load, row.id).inflight))
  }

  function ActivesSeen(s: Sight, rows: seq<Row>, opts: Options, now: int): seq<Candidate> {
    if |rows| == 0 then []
    else
      var last := rows[|rows| - 1];
      ActivesSeen(s, rows[..|rows| - 1], opts, now)
        + if IsActiveSeen(s, last, opts, now) then [CandidateSeen(s, last, now)] else []
  }

  function ProbesSeen(s: Sight, rows: seq<Row>, opts: Options, now: int): seq<Candidate> {
    if |rows| == 0 then []
    else
      var last := rows[|rows| - 1];
      ProbesSeen(s, rows[..|rows| - 1], opts, now)
        + if IsProbeSeen(s, last, opts, now) then [CandidateSeen(s, last, now)] else []
  }

  /** The requests of all candidates as the check of this key counted them. */
  function TotalSeen(s: Sight, cands: seq<Candidate>, id: KeyId, now: int): nat {
    if |cands| == 0 then 0
    else
      var other := cands[|cands| - 1].row.id;
      TotalSeen(s, cands[..|cands| - 1], id, now) + Requests(s.caps(id, other), other, now)
  }

  predicate OverCapSeen(s: Sight, cands: seq<Candidate>, id: KeyId, now: int) {
    var total := TotalSeen(s, cands, id, now);
    |cands| > 1 && total >= 10 && 10 * (Requests(s.caps(id, id), id, now) + 1) > 7 * (total + 1)
  }

  function WithinCapSeen(s: Sight, all: seq<Candidate>, some: seq<Candidate>, now: int): seq<Candidate> {
    if |some| == 0 then []
    else
      var last := some[|some| - 1];
      WithinCapSeen(s, all, some[..|some| - 1], now) + if OverCapSeen(s, all, last.row.id, now) then [] else [last]
  }

  function NarrowedSeen(s: Sight, actives: seq<Candidate>, probes: seq<Candidate>, policy: Policy,
                        now: int): seq<Candidate> {
    if ProbeTurn(actives, probes, s.turn) then probes
    else if |actives| > 1 && policy != Sticky then
      var capped := WithinCapSeen(s, actives, actives, now);
      if |capped| > 0 then capped else actives
    else actives
  }

  /** The k-th and later picks; others may draw from the counter in between. */
  function PickSeen(usable: seq<Candidate>, ticks: nat -> nat, k: nat, mode: Mode,
                    open: string -> Option<string>): (r: Option<Candidate>)
    requires forall c :: c in usable ==> c.score >= 1
    ensures r.Some? ==> r.value in usable && open(r.value.row.ciphertext).Some?
    decreases |usable|
  {
    if |usable| == 0 then None
    else
      var i := Chosen(usable, ticks(k), mode);
      if open(usable[i].row.ciphertext).Some? then Some(usable[i])
      else PickSeen(Without(usable, i), ticks, k + 1, mode, open)
  }

  lemma {:induction false} SeenMembers(s: Sight, rows: seq<Row>, opts: Options, now: int)
    ensures forall c :: c in ActivesSeen(s, rows, opts, now)
              ==> c.score >= 1 && c.row in rows && IsActiveSeen(s, c.row, opts, now)
    ensures forall c :: c in ProbesSeen(s, rows, opts, now)
              ==> c.score >= 1 && c.row in rows && IsProbeSeen(s, c.row, opts, now)
  {
    if |rows| > 0 {
      hide IsActiveSeen, IsProbeSeen;
      SeenMembers(s, rows[..|rows| - 1], opts, now);
      assert rows == rows[..|rows| - 1] + [rows[|rows| - 1]];
    }
  }

  lemma {:induction false} CappedMembers(s: Sight, all: seq<Candidate>, some: seq<Candidate>, now: int)
    ensures forall c :: c in WithinCapSeen(s, all, some, now) <==> c in some && !OverCapSeen(s, all, c.row.id, now)
  {
    if |some| > 0 {
      hide OverCapSeen;
      CappedMembers(s, all, some[..|some| - 1], now);
      assert some == some[..|some| - 1] + [some[|some| - 1]];
    }
  }

  predicate ProbingSeen(s: Sight, rows: seq<Row>, opts: Options, now: int) {
    var mine := OfProvider(rows, Resolved(opts.provider));
    ProbeTurn(ActivesSeen(s, mine, opts, now), ProbesSeen(s, mine, opts, now), s.turn)
  }

  /** The list a call picks from. */
  function ListSeen(s: Sight, rows: seq<Row>, opts: Options, own: Policy, now: int): (r: seq<Candidate>)
    ensures forall c :: c in r ==> c.score >= 1
  {
    var mine := OfProvider(rows, Resolved(opts.provider));
    var actives, probes := ActivesSeen(s, mine, opts, now), ProbesSeen(s, mine, opts, now);
    SeenMembers(s, mine, opts, now);
    CappedMembers(s, actives, actives, now);
    NarrowedSeen(s, actives, probes, PolicyOf(opts, own), now)
  }

  /** AcquireFor with others in between. */
  function AcquireSeen(s: Sight, rows: seq<Row>, opts: Options, own: Policy, now: int,
                       keys: Keys): Result<Selected, AcquireError> {
    var probing := ProbingSeen(s, rows, opts, now);
    var choice := PickSeen(ListSeen(s, rows, opts, own, now), s.ticks, 0, ModeOf(opts, own, probing, keys), keys.open);
    if choice == None then Failure(NoHealthyKey)
    else Success(Selected(choice.value.row.id, keys.open(choice.value.row.ciphertext).value, probing,
                          Resolved(opts.provider)))
  }

  // ----- What still holds -----

  /** A selected key was enabled, untried, rested and not benched when each of these was
      read, and opens; with a failure behind it it is selected only to probe. */
  lemma {:induction false} SelectedSeen(s: Sight, rows: seq<Row>, opts: Options, own: Policy, now: int, keys: Keys)
    returns (row: Row)
    requires AcquireSeen(s, rows, opts, own, now, keys).Success?
    ensures var k := AcquireSeen(s, rows, opts, own, now, keys).value;
            && row in rows && row.id == k.id && row.provider == k.provider == Resolved(opts.provider)
            && Some(k.secret) == keys.open(row.ciphertext)
            && (if k.probing then IsProbeSeen(s, row, opts, now) else IsActiveSeen(s, row, opts, now))
  {
    hide IsActiveSeen, IsProbeSeen, OverCapSeen, ModeOf;
    var mine := OfProvider(rows, Resolved(opts.provider));
    var probing := ProbingSeen(s, rows, opts, now);
    var c := PickSeen(ListSeen(s, rows, opts, own, now), s.ticks, 0, ModeOf(opts, own, probing, keys), keys.open).value;
    SeenMembers(s, mine, opts, now);
    CappedMembers(s, ActivesSeen(s, mine, opts, now), ActivesSeen(s, mine, opts, now), now);
    row := c.row;
    ProviderMembers(rows, Resolved(opts.provider), row);
  }

  lemma {:induction false} PickSeenFailsIff(usable: seq<Candidate>, ticks: nat -> nat, k: nat, mode: Mode,
                                            open: string -> Option<string>)
    requires forall c :: c in usable ==> c.score >= 1
    ensures PickSeen(usable, ticks, k, mode, open) == None <==> NoneOpens(usable, open)
    decreases |usable|
  {
    if |usable| > 0 {
      var i := Chosen(usable, ticks(k), mode);
      if open(usable[i].row.ciphertext) == None {
        PickSeenFailsIff(Without(usable, i), ticks, k + 1, mode, open);
        NoneOpensWithout(usable, i, open);
      }
    }
  }

  /** However other calls draw from the counter, a call fails exactly if nothing on its
      list opens. */
  lemma {:induction false} UnavailableSeenIff(s: Sight, rows: seq<Row>, opts: Options, own: Policy, now: int,
                                              keys: Keys)
    ensures AcquireSeen(s, rows, opts, own, now, keys).Failure?
            <==> NoneOpens(ListSeen(s, rows, opts, own, now), keys.open)
  {
    hide ListSeen, ProbingSeen, ModeOf;
    PickSeenFailsIff(ListSeen(s, rows, opts, own, now), s.ticks, 0,
                     ModeOf(opts, own, ProbingSeen(s, rows, opts, now), keys), keys.open);
  }

  // ----- A call that nobody disturbs -----

  function Advanced(rr: nat, k: nat): nat { if k == 0 then rr else Next(Advanced(rr, k - 1)) }

  /** One pool all along, and the counters to itself. */
  function Still(p: Pool, rr: nat, turn: nat): Sight {
    Sight(p, p, id => p, id => p, (a, b) => p, Next(turn), k => Advanced(rr, k))
  }

  lemma {:induction false} StillLists(p: Pool, rr: nat, turn: nat, rows: seq<Row>, opts: Options, now: int)
    ensures ActivesSeen(Still(p, rr, turn), rows, opts, now) == Actives(p, rows, opts, now)
    ensures ProbesSeen(Still(p, rr, turn), rows, opts, now) == Probes(p, rows, opts, now)
  {
    if |rows| > 0 {
      hide Eligible, SelectionScore, Decayed, Requests;
      StillLists(p, rr, turn, rows[..|rows| - 1], opts, now);
    }
  }

  lemma {:induction false} StillTotal(p: Pool, rr: nat, turn: nat, cands: seq<Candidate>, id: KeyId, now: int)
    ensures TotalSeen(Still(p, rr, turn), cands, id, now) == TotalRequests(p, cands, now)
  {
    if |cands| > 0 { StillTotal(p, rr, turn, cands[..|cands| - 1], id, now); }
  }

  lemma {:induction false} StillCap(p: Pool, rr: nat, turn: nat, all: seq<Candidate>, some: seq<Candidate>, now: int)
    ensures WithinCapSeen(Still(p, rr, turn), all, some, now) == WithinCap(p, all, some, now)
  {
    if |some| > 0 {
      StillCap(p, rr, turn, all, some[..|some| - 1], now);
      StillTotal(p, rr, turn, all, some[|some| - 1].row.id, now);
    }
  }

  lemma {:induction false} StillPick(usable: seq<Candidate>, rr: nat, k: nat, at: nat, mode: Mode,
                                     open: string -> Option<string>)
    requires forall c :: c in usable ==> c.score >= 1
    requires mode.ByTurn? ==> at == Advanced(rr, k)
    ensures PickSeen(usable, j => Advanced(rr, j), k, mode, open) == PickFrom(usable, at, mode, open).1
    decreases |usable|
  {
    if |usable| > 0 {
      hide BestIndex, SlotIndex, Scores, EqualScores;
      var i := Chosen(usable, at, mode);
      StillPick(Without(usable, i), rr, k + 1, if mode.ByRank? then at else Next(at), mode, open);
    }
  }

  /** Undisturbed, a call answers as the one-step form does. */
  lemma {:induction false} StillAcquires(p: Pool, rr: nat, turn: nat, rows: seq<Row>, opts: Options, own: Policy,
                                         now: int, keys: Keys)
    ensures AcquireSeen(Still(p, rr, turn), rows, opts, own, now, keys)
            == Acquire(p, rr, turn, Some(rows), opts, own, now, keys).result
  {
    hide ActivesSeen, ProbesSeen, Actives, Probes, ModeOf, WithinCap, WithinCapSeen, PickSeen, PickFrom, Examined,
      Purged;
    var mine := OfProvider(rows, Resolved(opts.provider));
    StillLists(p, rr, turn, mine, opts, now);
    StillCap(p, rr, turn, Actives(p, mine, opts, now), Actives(p, mine, opts, now), now);
    var list := PickList(p, turn, rows, opts, own, now);
    assert ListSeen(Still(p, rr, turn), rows, opts, own, now) == list;
    StillPick(list, rr, 0, rr, ModeOf(opts, own, Probing(p, turn, rows, opts, now), keys), keys.open);
    PickFromNothing(rr, ModeOf(opts, own, Probing(p, turn, rows, opts, now), keys), keys.open);
  }

  // ----- Probation and backoff, in any overlap -----

  /** The stored row shows a failure. */
  predicate Marked(p: Pool, id: KeyId) { id in p.stored && p.stored[id].reason != NoClass }

  /** A failure is on record: in the stored row, and in no unwritten health is it undone. */
  predicate OnRecord(p: Pool, id: KeyId) { Marked(p, id) && (id in p.dirty ==> p.dirty[id].reason != NoClass) }

  /** The cooldown of the c-th failure in a row, at this time, is stored, or a later one. */
  predicate CoolsDown(p: Pool, id: KeyId, c: nat, at: int) {
    && Effective(p, id).consecutive >= c >= 1
    && id in p.cooldowns && p.cooldowns[id].Until? && p.cooldowns[id].at >= RestUntil(c, at, true)
  }

  lemma {:induction false} PersistedRow(p: Pool, id: KeyId, h: Health, upserts: bool)
    ensures var q := Persisted(p, id, h, upserts);
            && q.stored == (if upserts then p.stored[id := h] else p.stored)
            && q.dirty == (if upserts then p.dirty - {id} else p.dirty[id := h])
  {
  }

  /** What a counted failure writes. */
  lemma {:induction false} FailureWrites(p: Pool, o: Outcome, io: Io, benchDuration: int)
    requires CountedFailure(p, o, io)
    ensures var q, h := Recorded(p, o, io, benchDuration), Failed(Effective(p, o.id), o);
            && q.stored == (if io.upserts then p.stored[o.id := h] else p.stored)
            && q.dirty == (if io.upserts then p.dirty - {o.id} else p.dirty[o.id := h])
            && q.cooldowns == Rested(p, o.id, Classified(o.dial), h.consecutive, o.now, io.sets,
                                     benchDuration).cooldowns
  {
    hide Failed, Rested, NoteOutcome, Persisted, Effective;
    var class_, h := Classified(o.dial), Failed(Effective(p, o.id), o);
    var noted := NoteOutcome(p, Resolved(o.provider), class_ == Upstream5xx, o.now);
    RecordedRest(p, o, io, benchDuration);
    FailureRest(p, o, io, benchDuration);
    RestedKeeps(noted, o.id, class_, h.consecutive, o.now, io.sets, benchDuration);
    NotedKeeps(p, Resolved(o.provider), class_ == Upstream5xx, o.now);
    PersistedRow(Rested(noted, o.id, class_, h.consecutive, o.now, io.sets, benchDuration), o.id, h, io.upserts);
  }

  lemma {:induction false} NotedKeeps(p: Pool, provider: Provider, is5xx: bool, now: int)
    ensures NoteOutcome(p, provider, is5xx, now).stored == p.stored
            && NoteOutcome(p, provider, is5xx, now).dirty == p.dirty
  {
  }

  lemma {:induction false} FailureOnRecord(p: Pool, o: Outcome, io: Io, benchDuration: int)
    requires CountedFailure(p, o, io) && (io.upserts || Marked(p, o.id))
    ensures OnRecord(Recorded(p, o, io, benchDuration), o.id)
  {
    hide Recorded;
    FailureWrites(p, o, io, benchDuration);
  }

  lemma {:induction false} FailureCools(p: Pool, o: Outcome, io: Io, benchDuration: int)
    requires CountedFailure(p, o, io) && (Classified(o.dial).RateLimited? || Classified(o.dial).Upstream5xx?) && io.sets
    ensures CoolsDown(Recorded(p, o, io, benchDuration), o.id, Effective(p, o.id).consecutive + 1, o.now)
  {
    hide Recorded;
    FailureWrites(p, o, io, benchDuration);
  }

  /** Nothing of this key's row has changed. */
  predicate SameRow(p: Pool, q: Pool, id: KeyId) {
    && (id in q.stored <==> id in p.stored) && (id in p.stored ==> q.stored[id] == p.stored[id])
    && (id in q.dirty <==> id in p.dirty) && (id in p.dirty ==> q.dirty[id] == p.dirty[id])
    && (id in q.cooldowns <==> id in p.cooldowns) && (id in p.cooldowns ==> q.cooldowns[id] == p.cooldowns[id])
  }

  /** What a success writes: the row and the unwritten health of its key, nothing else. */
  lemma {:induction false} SuccessWrites(p: Pool, o: Outcome, io: Io)
    ensures var q, h := WithSuccess(p, o, io), Succeeded(Effective(p, o.id), o);
            && (q.stored == p.stored || q.stored == p.stored[o.id := h])
            && (q.dirty == p.dirty - {o.id} || q.dirty == p.dirty[o.id := h])
  {
    hide Succeeded, Persisted, NoteOutcome, Decayed, Effective, Due, SetCooldown, AskPersist;
    var h := Succeeded(Effective(p, o.id), o);
    var q := SetCooldown(NoteOutcome(p, Resolved(o.provider), false, o.now), o.id, None, io.sets);
    ClearingKeeps(p, o, io.sets);
    AskingKeeps(q, o.id, o.now);
    PersistedRow(q, o.id, h, io.upserts);
    PersistedRow(AskPersist(q, o.id, o.now), o.id, h, io.upserts);
  }

  lemma {:induction false} ClearingKeeps(p: Pool, o: Outcome, sets: bool)
    ensures var q := SetCooldown(NoteOutcome(p, Resolved(o.provider), false, o.now), o.id, None, sets);
            q.stored == p.stored && q.dirty == p.dirty
  {
  }

  lemma {:induction false} AskingKeeps(p: Pool, id: KeyId, now: int)
    ensures AskPersist(p, id, now).stored == p.stored && AskPersist(p, id, now).dirty == p.dirty
  {
  }

  lemma {:induction false} SuccessWritesOwnRow(p: Pool, o: Outcome, io: Io, id: KeyId)
    requires o.id != id
    ensures SameRow(p, WithSuccess(p, o, io), id)
  {
    hide WithSuccess, Succeeded, Effective;
    SuccessRest(p, o, io);
    SuccessWrites(p, o, io);
  }

  lemma {:induction false} FailureWritesOwnRow(p: Pool, o: Outcome, io: Io, benchDuration: int, id: KeyId)
    requires CountedFailure(p, o, io) && o.id != id
    ensures SameRow(p, Recorded(p, o, io, benchDuration), id)
  {
    hide Recorded, Failed, Effective;
    FailureWrites(p, o, io, benchDuration);
  }

  lemma {:induction false} ReleaseKeepsRow(p: Pool, q: Pool, id: KeyId, other: KeyId)
    requires SameRow(p, q, id)
    ensures SameRow(p, NoteRelease(q, other), id)
  {
  }

  lemma {:induction false} OtherOutcomeKeepsRow(p: Pool, o: Outcome, io: Io, benchDuration: int, id: KeyId)
    requires o.id != id || (!CountedFailure(p, o, io) && (o.dial == Answered ==> !Heard(io)))
    ensures SameRow(p, Recorded(p, o, io, benchDuration), id)
  {
    hide SameRow, WithSuccess, WithFailure, NoteRelease;
    SameRowSelf(p, Resolved(o.provider), o.now, id);
    if CountedFailure(p, o, io) {
      FailureWritesOwnRow(p, o, io, benchDuration, id);
    } else if o.id != "" {
      if o.dial == Answered && Heard(io) { SuccessWritesOwnRow(p, o, io, id); }
      ReleaseKeepsRow(p, if Heard(io) then Judged(p, o, io, benchDuration) else p, id, o.id);
    }
  }

  lemma {:induction false} SameRowSelf(p: Pool, provider: Provider, now: int, id: KeyId)
    ensures SameRow(p, p, id)
    ensures forall is5xx :: SameRow(p, NoteOutcome(p, provider, is5xx, now), id)
  {
  }

  lemma {:induction false} LaterFailureCools(p: Pool, o: Outcome, io: Io, benchDuration: int, c: nat, at: int)
    requires CoolsDown(p, o.id, c, at) && at <= o.now && CountedFailure(p, o, io)
    ensures CoolsDown(Recorded(p, o, io, benchDuration), o.id, c, at)
  {
    hide Recorded, CooldownForFailures;
    FailureWrites(p, o, io, benchDuration);
    CooldownGrows(c, Failed(Effective(p, o.id), o).consecutive);
  }

  /** Only a success or a counted failure of the key changes its row. */
  lemma {:induction false} StepKeepsRow(s: State, step: Step, set_: Setting, id: KeyId)
    requires NoSuccess(step, id) && !(step.Record? && step.o.id == id && CountedFailure(s.pool, step.o, step.io))
    ensures SameRow(s.pool, Stepped(s, step, set_).pool, id)
  {
    hide Recorded, Taken, CountedFailure;
    match step
    case Record(o, io) => OtherOutcomeKeepsRow(s.pool, o, io, set_.benchDuration, id);
    case Take(_, _, _, _) => TakeKeeps(s, step, set_);
    case Begin(other, probing, now) =>
  }

  lemma {:induction false} StepOnRecord(s: State, step: Step, set_: Setting, id: KeyId)
    requires OnRecord(s.pool, id) && NoSuccess(step, id)
    ensures OnRecord(Stepped(s, step, set_).pool, id)
  {
    hide Recorded, Taken, CountedFailure, NoSuccess;
    if step.Record? && step.o.id == id && CountedFailure(s.pool, step.o, step.io) {
      FailureOnRecord(s.pool, step.o, step.io, set_.benchDuration);
    } else {
      StepKeepsRow(s, step, set_, id);
    }
  }

  lemma {:induction false} StepCools(s: State, step: Step, set_: Setting, id: KeyId, c: nat, at: int)
    requires CoolsDown(s.pool, id, c, at) && at <= TimeOf(step) && NoSuccess(step, id)
    ensures CoolsDown(Stepped(s, step, set_).pool, id, c, at)
  {
    hide Recorded, Taken, CountedFailure, NoSuccess, RestUntil;
    if step.Record? && step.o.id == id && CountedFailure(s.pool, step.o, step.io) {
      LaterFailureCools(s.pool, step.o, step.io, set_.benchDuration, c, at);
    } else {
      StepKeepsRow(s, step, set_, id);
    }
  }

  lemma {:induction false} RunOnRecord(s: State, steps: seq<Step>, set_: Setting, id: KeyId)
    requires OnRecord(s.pool, id) && forall i :: 0 <= i < |steps| ==> NoSuccess(steps[i], id)
    ensures OnRecord(Ran(s, steps, set_).pool, id)
  {
    if |steps| > 0 {
      hide OnRecord, Stepped, NoSuccess;
      var front := steps[..|steps| - 1];
      assert forall i :: 0 <= i < |front| ==> front[i] == steps[i];
      RunOnRecord(s, front, set_, id);
      StepOnRecord(Ran(s, front, set_), steps[|steps| - 1], set_, id);
    }
  }

  lemma {:induction false} RunCools(s: State, steps: seq<Step>, set_: Setting, id: KeyId, c: nat, at: int)
    requires CoolsDown(s.pool, id, c, at) && MonotoneFrom(steps, at)
    requires forall i :: 0 <= i < |steps| ==> NoSuccess(steps[i], id)
    ensures CoolsDown(Ran(s, steps, set_).pool, id, c, at)
  {
    if |steps| > 0 {
      hide CoolsDown, Stepped, NoSuccess;
      var front := steps[..|steps| - 1];
      assert forall i :: 0 <= i < |front| ==> front[i] == steps[i];
      RunCools(s, front, set_, id, c, at);
      StepCools(Ran(s, front, set_), steps[|steps| - 1], set_, id, c, at);
    }
  }

  /** This pool stood at some moment of the run. */
  ghost predicate During(p: Pool, s: State, steps: seq<Step>, set_: Setting) {
    exists k :: 0 <= k <= |steps| && p == Ran(s, steps[..k], set_).pool
  }

  /** A call that lists its rows after the failure, and then overlaps the run. */
  ghost predicate Overlaps(sight: Sight, id: KeyId, s: State, steps: seq<Step>, set_: Setting) {
    During(sight.listed, s, steps, set_) && During(sight.overlay(id), s, steps, set_)
  }

  lemma {:induction false} DuringOnRecord(p: Pool, s: State, steps: seq<Step>, set_: Setting, id: KeyId)
    requires OnRecord(s.pool, id) && During(p, s, steps, set_)
    requires forall i :: 0 <= i < |steps| ==> NoSuccess(steps[i], id)
    ensures OnRecord(p, id)
  {
    hide OnRecord, NoSuccess;
    var k :| 0 <= k <= |steps| && p == Ran(s, steps[..k], set_).pool;
    assert forall i :: 0 <= i < k ==> steps[..k][i] == steps[i];
    RunOnRecord(s, steps[..k], set_, id);
  }

  /** Probation when calls overlap: after a counted failure whose upsert succeeds, or whose
      key's stored row shows a failure already, and until a success is recorded for the
      key, no call that lists its rows later, whatever happens between its reads and
      whichever later writes fail, selects the key but to probe. */
  lemma {:induction false} OverlappedProbation(s: State, o: Outcome, io: Io, steps: seq<Step>, sight: Sight,
                                               rows: seq<Row>, opts: Options, own: Policy, now: int, set_: Setting)
    requires CountedFailure(s.pool, o, io) && (io.upserts || Marked(s.pool, o.id))
    requires forall i :: 0 <= i < |steps| ==> NoSuccess(steps[i], o.id)
    requires Overlaps(sight, o.id, Stepped(s, Record(o, io), set_), steps, set_)
    ensures var r := AcquireSeen(sight, rows, opts, own, now, set_.keys);
            r.Success? && r.value.id == o.id ==> r.value.probing && opts.forAttempt
  {
    hide AcquireSeen, Ran, During, NoSuccess;
    var failed := Stepped(s, Record(o, io), set_);
    FailureOnRecord(s.pool, o, io, set_.benchDuration);
    DuringOnRecord(sight.listed, failed, steps, set_, o.id);
    DuringOnRecord(sight.overlay(o.id), failed, steps, set_, o.id);
    var r := AcquireSeen(sight, rows, opts, own, now, set_.keys);
    if r.Success? && r.value.id == o.id { var row := SelectedSeen(sight, rows, opts, own, now, set_.keys); }
  }

  /** Backoff when calls overlap: after a key's c-th consecutive counted 429 or 5xx whose
      cooldown is stored, and until a success is recorded for it, no call that lists its
      rows later selects the key before min(2^(c-1), 16) minutes. */
  lemma {:induction false} OverlappedBackoff(s: State, o: Outcome, io: Io, steps: seq<Step>, sight: Sight,
                                             rows: seq<Row>, opts: Options, own: Policy, now: int, set_: Setting)
    requires CountedFailure(s.pool, o, io) && (Classified(o.dial).RateLimited? || Classified(o.dial).Upstream5xx?)
    requires io.sets && MonotoneFrom(steps, o.now)
    requires forall i :: 0 <= i < |steps| ==> NoSuccess(steps[i], o.id)
    requires During(sight.listed, Stepped(s, Record(o, io), set_), steps, set_)
    ensures var r := AcquireSeen(sight, rows, opts, own, now, set_.keys);
            r.Success? && r.value.id == o.id ==> RestUntil(Effective(s.pool, o.id).consecutive + 1, o.now, true) <= now
  {
    hide AcquireSeen, Ran, NoSuccess, CooldownForFailures;
    var failed, c := Stepped(s, Record(o, io), set_), Effective(s.pool, o.id).consecutive + 1;
    FailureCools(s.pool, o, io, set_.benchDuration);
    var k :| 0 <= k <= |steps| && sight.listed == Ran(failed, steps[..k], set_).pool;
    assert forall i :: 0 <= i < k ==> steps[..k][i] == steps[i];
    RunCools(failed, steps[..k], set_, o.id, c, o.now);
    var r := AcquireSeen(sight, rows, opts, own, now, set_.keys);
    if r.Success? && r.value.id == o.id { var row := SelectedSeen(sight, rows, opts, own, now, set_.keys); }
  }

  /** The same when the cooldown could not be stored: the key rests on the bench for a minute,
      by the clock of the call or of a step before it copied the benches. */
  lemma {:induction false} OverlappedBench(s: State, o: Outcome, io: Io, steps: seq<Step>, k: nat, sight: Sight,
                                           rows: seq<Row>, opts: Options, own: Policy, now: int, set_: Setting)
    requires CountedFailure(s.pool, o, io) && (Classified(o.dial).RateLimited? || Classified(o.dial).Upstream5xx?)
    requires !io.sets && MonotoneFrom(steps, o.now) && set_.benchDuration >= DEFAULT_COOLDOWN
    requires forall i :: 0 <= i < |steps| ==> NoSuccess(steps[i], o.id)
    requires k <= |steps| && sight.benches == Ran(Stepped(s, Record(o, io), set_), steps[..k], set_).pool
    ensures var r := AcquireSeen(sight, rows, opts, own, now, set_.keys);
            r.Success? && r.value.id == o.id ==>
              o.now + DEFAULT_COOLDOWN <= now || (k > 0 && o.now + DEFAULT_COOLDOWN <= TimeOf(steps[k - 1]))
  {
    hide AcquireSeen, Ran, NoSuccess, CooldownForFailures;
    var failed, c := Stepped(s, Record(o, io), set_), Effective(s.pool, o.id).consecutive + 1;
    FailureRests(s.pool, o, io, set_.benchDuration);
    assert forall i :: 0 <= i < k ==> steps[..k][i] == steps[i];
    RunRests(failed, steps[..k], set_, o.id, c, o.now, false, o.now);
    var r := AcquireSeen(sight, rows, opts, own, now, set_.keys);
    if r.Success? && r.value.id == o.id { var row := SelectedSeen(sight, rows, opts, own, now, set_.keys); }
  }

  // ----- A pool with one key -----

  /** The lists of a pool with one key. */
  lemma {:induction false} OneRow(sight: Sight, row: Row, opts: Options, now: int)
    requires row.provider == Resolved(opts.provider)
    ensures OfProvider([row], Resolved(opts.provider)) == [row]
    ensures ActivesSeen(sight, [row], opts, now) ==
            if IsActiveSeen(sight, row, opts, now) then [CandidateSeen(sight, row, now)] else []
    ensures ProbesSeen(sight, [row], opts, now) ==
            if IsProbeSeen(sight, row, opts, now) then [CandidateSeen(sight, row, now)] else []
  {
    hide IsActiveSeen, IsProbeSeen, CandidateSeen, Resolved;
    assert [row][..0] == [];
  }

  lemma {:induction false} OneHealthyKey(sight: Sight, row: Row, opts: Options, now: int, keys: Keys)
    requires IsActiveSeen(sight, row, opts, now) && row.provider == Resolved(opts.provider)
             && keys.open(row.ciphertext).Some?
    ensures var r := AcquireSeen(sight, [row], opts, Spread, now, keys);
            r.Success? && r.value.id == row.id && !r.value.probing
  {
    hide IsActiveSeen, IsProbeSeen, CandidateSeen, ActivesSeen, ProbesSeen, OfProvider, AcquireSeen, Resolved;
    var c := CandidateSeen(sight, row, now);
    OneRow(sight, row, opts, now);
    ActiveIsNoProbe(sight, row, opts, now);
    SeenCandidate(sight, row, now);
    assert ListSeen(sight, [row], opts, Spread, now) == [c] && c in [c];
    UnavailableSeenIff(sight, [row], opts, Spread, now, keys);
    var selected := SelectedSeen(sight, [row], opts, Spread, now, keys);
    assert selected == row;
  }

  lemma {:induction false} ActiveIsNoProbe(sight: Sight, row: Row, opts: Options, now: int)
    requires IsActiveSeen(sight, row, opts, now)
    ensures !IsProbeSeen(sight, row, opts, now)
  {
  }

  lemma {:induction false} SeenCandidate(sight: Sight, row: Row, now: int)
    ensures CandidateSeen(sight, row, now).row == row
  {
  }

  lemma {:induction false} OneFailedKey(sight: Sight, row: Row, opts: Options, now: int, keys: Keys)
    requires IsProbeSeen(sight, row, opts, now) && row.provider == Resolved(opts.provider)
             && keys.open(row.ciphertext).Some?
    ensures var r := AcquireSeen(sight, [row], opts, Spread, now, keys);
            r.Success? && r.value.id == row.id && r.value.probing
  {
    hide IsActiveSeen, IsProbeSeen, CandidateSeen, ActivesSeen, ProbesSeen, OfProvider, AcquireSeen, Resolved;
    var c := CandidateSeen(sight, row, now);
    OneRow(sight, row, opts, now);
    if IsActiveSeen(sight, row, opts, now) { ActiveIsNoProbe(sight, row, opts, now); }
    SeenCandidate(sight, row, now);
    assert ListSeen(sight, [row], opts, Spread, now) == [c] && c in [c];
    UnavailableSeenIff(sight, [row], opts, Spread, now, keys);
    var selected := SelectedSeen(sight, [row], opts, Spread, now, keys);
    assert selected == row;
  }
}
