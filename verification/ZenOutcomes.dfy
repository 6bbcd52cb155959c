/** What an outcome means for its key, by the status code the upstream answered with. */
module ZenOutcomes {
  import opened Wrappers
  import opened ZenScoring
  import opened ZenGuard
  import opened ZenPool
  import opened ZenAcquire
  import opened ZenSelection
  import opened ZenRuns
  import opened ZenHistory

  // ----- Storms, told by the run -----

  /** The service heard how a dial of this provider ended; no name means OpenCode. */
  predicate HeardOutcome(step: Step, provider: Provider) {
    && step.Record? && step.o.id != "" && !step.io.cancelled && step.io.loads
    && (step.o.provider == provider || (step.o.provider == Unspecified && provider == OpenCode))
  }

  predicate IsServerError(d: Dial) { d.Refused? && d.code >= 500 }

  /** How many outcomes of the provider were heard at this time or later. */
  function Outcomes(steps: seq<Step>, provider: Provider, since: int): nat {
    if |steps| == 0 then 0
    else
      var last := steps[|steps| - 1];
      Outcomes(steps[..|steps| - 1], provider, since)
        + if HeardOutcome(last, provider) && last.o.now >= since then 1 else 0
  }

  /** How many of them were a 5xx. */
  function ServerErrors(steps: seq<Step>, provider: Provider, since: int): nat {
    if |steps| == 0 then 0
    else
      var last := steps[|steps| - 1];
      ServerErrors(steps[..|steps| - 1], provider, since)
        + if HeardOutcome(last, provider) && last.o.now >= since && IsServerError(last.o.dial) then 1 else 0
  }

  /** At least five 5xx in the last 60 seconds, and at least half of all outcomes. */
  predicate Stormy(steps: seq<Step>, provider: Provider, now: int) {
    var since := now - 60_000_000_000;
    ServerErrors(steps, provider, since) >= 5
    && 2 * ServerErrors(steps, provider, since) >= Outcomes(steps, provider, since)
  }

  function ProviderOf(o: Outcome): Provider { if o.provider == Unspecified then OpenCode else o.provider }

  lemma {:induction false} HeardSnoc(steps: seq<Step>, step: Step, provider: Provider)
    requires provider != Unspecified
    ensures var before, after := HeardOf(steps, provider), HeardOf(steps + [step], provider);
            after == if HeardOutcome(step, provider) then before + [Note(step.o.now, IsServerError(step.o.dial))]
                     else before
  {
    assert (steps + [step])[..|steps|] == steps;
    var before := HeardOf(steps, provider);
    assert before + [] == before;
  }

  lemma {:induction false} CountsSnoc(steps: seq<Step>, step: Step, provider: Provider, since: int)
    ensures var counts := HeardOutcome(step, provider) && step.o.now >= since; var all := steps + [step];
            && Outcomes(all, provider, since) == Outcomes(steps, provider, since) + (if counts then 1 else 0)
            && ServerErrors(all, provider, since)
               == ServerErrors(steps, provider, since) + if counts && IsServerError(step.o.dial) then 1 else 0
  {
    assert (steps + [step])[..|steps|] == steps;
  }

  lemma {:induction false} RecentSnoc(events: seq<Event>, e: Event, now: int)
    requires e.Note?
    ensures var before, after := Recent(History(events), now), Recent(History(events + [e]), now);
            && after == (if e.now >= now - 60_000_000_000 then before + [Sample(e.now, e.is5xx)] else before)
            && Fives(before + [Sample(e.now, e.is5xx)]) == Fives(before) + if e.is5xx then 1 else 0
  {
    var h, before, x := History(events), Recent(History(events), now), Sample(e.now, e.is5xx);
    assert (events + [e])[..|events|] == events && (h + [x])[..|h|] == h && (before + [x])[..|before|] == before;
    assert before + [] == before;
  }

  lemma {:induction false} HeardCounts(steps: seq<Step>, provider: Provider, now: int)
    requires provider != Unspecified
    ensures var recent := Recent(History(HeardOf(steps, provider)), now);
            var since := now - 60_000_000_000;
            |recent| == Outcomes(steps, provider, since) && Fives(recent) == ServerErrors(steps, provider, since)
  {
    if |steps| > 0 {
      hide Recent, History, HeardOf, Fives, Outcomes, ServerErrors, IsServerError;
      var front, last := steps[..|steps| - 1], steps[|steps| - 1];
      HeardCounts(front, provider, now);
      HeardSnoc(front, last, provider);
      CountsSnoc(front, last, provider, now - 60_000_000_000);
      assert steps == front + [last];
      if HeardOutcome(last, provider) {
        RecentSnoc(HeardOf(front, provider), Note(last.o.now, IsServerError(last.o.dial)), now);
      }
    } else {
      NothingHeard(provider, now);
    }
  }

  lemma {:induction false} NothingHeard(provider: Provider, now: int)
    ensures Recent(History(HeardOf([], provider)), now) == [] && Fives([]) == 0
  {
  }

  /** Along every run the guard holds exactly in a storm of the provider. */
  lemma {:induction false} StormIff(rr: nat, turn: nat, steps: seq<Step>, set_: Setting, o: Outcome)
    requires ClockedBy(steps, o.now)
    ensures Storm(Pruned(WindowOf(From(rr, turn, steps, set_), ProviderOf(o)), o.now))
            <==> Stormy(steps, ProviderOf(o), o.now)
  {
    hide From, Pruned, Recent;
    WindowFollows(rr, turn, steps, set_, ProviderOf(o));
    HeardInOrder(steps, ProviderOf(o), o.now);
    GuardMeansStorm(HeardOf(steps, ProviderOf(o)), o.now);
    HeardCounts(steps, ProviderOf(o), o.now);
  }

  // ----- Which outcomes count -----

  /** A refusal that is held against its key: 401, 429, or a 5xx outside a storm. */
  predicate Blamed(code: int, storm: bool) { code == 401 || code == 429 || (code >= 500 && !storm) }

  /** Nothing a selection or a later outcome looks at has changed, but the runtime and the
      window of the guard. */
  predicate Untouched(p: Pool, q: Pool) {
    q.stored == p.stored && q.dirty == p.dirty && q.cooldowns == p.cooldowns && q.benched == p.benched
  }

  lemma {:induction false} CountedIff(p: Pool, o: Outcome, io: Io)
    ensures CountedFailure(p, o, io) <==>
            && o.id != "" && !io.cancelled && io.loads && o.dial.Refused?
            && Blamed(o.dial.code, Storm(Pruned(WindowOf(p, ProviderOf(o)), o.now)))
  {
    hide Storm, Pruned;
  }

  /** Along every run: an outcome of a key is held against it exactly if it was heard and the
      upstream refused with 401, with 429, or with a 5xx outside a storm of its provider.
      Then the failures and the failures in a row are one more; any other refusal, a network
      error, an abort, an egress fault, and whatever is not heard leave health, cooldown and
      bench of every key alone. */
  lemma {:induction false} OutcomeCounts(rr: nat, turn: nat, steps: seq<Step>, set_: Setting, o: Outcome, io: Io)
    requires ClockedBy(steps, o.now) && o.id != ""
    ensures var p := From(rr, turn, steps, set_);
            var q := Recorded(p, o, io, set_.benchDuration);
            var before, after := Effective(p, o.id), Effective(q, o.id);
            if io.cancelled || !io.loads then Untouched(p, q)
            else if o.dial == Answered then
              && after.successes == before.successes + 1 && after.failures == before.failures
              && after.consecutive == 0 && after.reason == NoClass
              && after.lastSuccess == after.updated == Some(o.now) && q.benched == p.benched
              && q.cooldowns == if io.sets then p.cooldowns - {o.id} else p.cooldowns
            else if o.dial.Refused? && Blamed(o.dial.code, Stormy(steps, ProviderOf(o), o.now)) then
              && after.failures == before.failures + 1 && after.successes == before.successes
              && after.consecutive == before.consecutive + 1 && after.reason != NoClass
              && after.lastFailure == after.updated == Some(o.now)
            else Untouched(p, q)
  {
    hide From, Recorded, Stormy, Storm, Pruned, Succeeded, Failed, WithSuccess;
    var p := From(rr, turn, steps, set_);
    StormIff(rr, turn, steps, set_, o);
    CountedIff(p, o, io);
    RecordedShows(p, o, io, set_.benchDuration, o.id);
    if io.cancelled || !io.loads || (o.dial != Answered && !CountedFailure(p, o, io)) {
      SilentUntouched(p, o, io, set_.benchDuration);
    } else if o.dial == Answered {
      SucceededCounts(Effective(p, o.id), o);
      SuccessRest(p, o, io);
      RecordedSuccess(p, o, io, set_.benchDuration);
    } else {
      FailedCounts(Effective(p, o.id), o);
    }
  }

  lemma {:induction false} RecordedSuccess(p: Pool, o: Outcome, io: Io, benchDuration: int)
    requires o.id != "" && Heard(io) && o.dial == Answered
    ensures var q, w := Recorded(p, o, io, benchDuration), WithSuccess(p, o, io);
            q.cooldowns == w.cooldowns && q.benched == w.benched
  {
    hide WithSuccess;
  }

  lemma {:induction false} SilentUntouched(p: Pool, o: Outcome, io: Io, benchDuration: int)
    requires !CountedFailure(p, o, io) && (o.dial == Answered ==> !Heard(io))
    ensures Untouched(p, Recorded(p, o, io, benchDuration))
  {
    hide WithSuccess, WithFailure, Frozen, Classified, NoteOutcome, NoteRelease;
    NotesOnly(p, Resolved(o.provider), false, o.now, o.id);
    NotesOnly(p, Resolved(o.provider), true, o.now, o.id);
  }

  lemma {:induction false} NotesOnly(p: Pool, provider: Provider, is5xx: bool, now: int, id: KeyId)
    ensures Untouched(p, NoteRelease(p, id)) && Untouched(p, NoteRelease(NoteOutcome(p, provider, is5xx, now), id))
  {
    hide Noted;
  }

  lemma {:induction false} SucceededCounts(h: Health, o: Outcome)
    ensures var r := Succeeded(h, o);
            && r.successes == h.successes + 1 && r.failures == h.failures && r.consecutive == 0 && r.reason == NoClass
            && r.lastSuccess == r.updated == Some(o.now)
  {
  }

  lemma {:induction false} FailedCounts(h: Health, o: Outcome)
    requires o.dial.Refused? && (o.dial.code == 401 || o.dial.code == 429 || o.dial.code >= 500)
    ensures var r := Failed(h, o);
            && r.failures == h.failures + 1 && r.successes == h.successes && r.consecutive == h.consecutive + 1
            && r.reason != NoClass && r.lastFailure == r.updated == Some(o.now)
  {
  }

  // ----- What a counted failure costs -----

  /** The penalty of a failure and how it grows with the failures in a row, up to five. */
  function Penalty(code: int, consecutive: nat): real {
    var c := (if consecutive > 5 then 5 else consecutive) as real;
    if code == 401 then 25.0 else if code == 429 then 8.0 + 2.0 * c else AtMost(10.0 + 3.0 * c, 25.0)
  }

  /** The share of successes; three quarters are believed of the first few samples. */
  function Share(successes: nat, failures: nat): real {
    var n := successes + failures;
    if n == 0 then 0.75 else if n < 8 then (successes + 2) as real / (n + 4) as real else successes as real / n as real
  }

  /** A counted failure leaves 55 points for the share of successes and 15 for latency, less
      the penalty, and after a 401 at most ten; it rests the key on the bench for the
      configured time after a 401, else by a cooldown of min(2^(c-1), 16) minutes, or a
      minute on the bench when that cannot be stored. */
  lemma {:induction false} FailureCosts(p: Pool, o: Outcome, io: Io, benchDuration: int)
    requires CountedFailure(p, o, io)
    ensures var code, before := o.dial.code, Effective(p, o.id);
            var q, c := Recorded(p, o, io, benchDuration), before.consecutive + 1;
            var left := 55.0 * Share(before.successes, before.failures + 1) + 15.0 - Penalty(code, c);
            && Effective(q, o.id).score
              == (if left < 0.0 then 0.0 else if code == 401 then AtMost(left, 10.0) else left)
            && (code == 401 ==> q.benched == p.benched[o.id := o.now + benchDuration] && q.cooldowns == p.cooldowns)
            && (code != 401 && io.sets ==>
                  && q.benched == p.benched
                  && q.cooldowns == p.cooldowns[o.id := Until(o.now + Minutes(c) * 60_000_000_000)])
            && (code != 401 && !io.sets ==>
                  && q.benched == p.benched[o.id := o.now + 60_000_000_000] && q.cooldowns == p.cooldowns)
  {
    hide Recorded, WithFailure, Failed, CooldownForFailures, Share, Penalty, AtMost;
    CountedIff(p, o, io);
    RecordedShows(p, o, io, benchDuration, o.id);
    RecordedRest(p, o, io, benchDuration);
    FailureRest(p, o, io, benchDuration);
    FailedCounts(Effective(p, o.id), o);
    FailedScore(Effective(p, o.id), o);
    MinutesOfCooldown(Effective(p, o.id).consecutive + 1);
  }

  /** A success leaves the points its counts earn, but a probe at least 55, and moves the average
      latency by 12 percent towards the sample, in milliseconds and at least one. */
  lemma {:induction false} SuccessEarnsPoints(p: Pool, o: Outcome, io: Io, benchDuration: int)
    requires o.id != "" && !io.cancelled && io.loads && o.dial == Answered
    ensures var before, after := Effective(p, o.id), Effective(Recorded(p, o, io, benchDuration), o.id);
            var earned := 55.0 * Share(before.successes + 1, before.failures) + 15.0;
            var sample := if o.latency < 1_000_000 then 1.0 else (o.latency / 1_000_000) as real;
            && after.score == (if o.probing && earned < 55.0 then 55.0 else earned)
            && (o.latency <= 0 ==> after.latency == before.latency)
            && (o.latency > 0 && before.latency == None ==> after.latency == Some(sample))
            && (o.latency > 0 && before.latency.Some? ==>
                  && after.latency.Some?
                  && after.latency.value - before.latency.value == 0.12 * (sample - before.latency.value))
  {
    hide Recorded, Storm, Pruned, Share;
    RecordedShows(p, o, io, benchDuration, o.id);
    var h := Decayed(Effective(p, o.id), o.now);
    assert h.latency == Effective(p, o.id).latency && h.successes == Effective(p, o.id).successes
           && h.failures == Effective(p, o.id).failures;
    SuccessPoints(Effective(p, o.id), o);
  }

  lemma {:induction false} SuccessPoints(h: Health, o: Outcome)
    ensures var r := Succeeded(h, o);
            var earned := 55.0 * Share(h.successes + 1, h.failures) + 15.0;
            var sample := if o.latency < 1_000_000 then 1.0 else (o.latency / 1_000_000) as real;
            && r.score == (if o.probing && earned < 55.0 then 55.0 else earned)
            && (o.latency <= 0 ==> r.latency == h.latency)
            && (o.latency > 0 && h.latency == None ==> r.latency == Some(sample))
            && (o.latency > 0 && h.latency.Some? ==>
                  && r.latency.Some?
                  && r.latency.value - h.latency.value == 0.12 * (sample - h.latency.value))
  {
    RateInUnit(h.successes + 1, h.failures);
  }

  /** 1, 2, 4, 8, and 16 for the fifth failure in a row and later ones. */
  function Minutes(c: nat): nat {
    if c <= 1 then 1 else if c == 2 then 2 else if c == 3 then 4 else if c == 4 then 8 else 16
  }

  lemma {:induction false} MinutesOfCooldown(c: nat)
    requires c >= 1
    ensures CooldownForFailures(c) == Minutes(c) * 60_000_000_000
  {
    CooldownDoubles(c);
    assert Shifted(1) == 2 && Shifted(2) == 4 && Shifted(3) == 8 && Shifted(4) == 16;
    if c > 5 { ShiftedGrows(4, c - 1); }
  }

  lemma {:induction false} FailedScore(h: Health, o: Outcome)
    requires o.dial.Refused? && (o.dial.code == 401 || o.dial.code == 429 || o.dial.code >= 500)
    ensures var left := 55.0 * Share(h.successes, h.failures + 1) + 15.0 - Penalty(o.dial.code, h.consecutive + 1);
            Failed(h, o).score ==
            if left < 0.0 then 0.0 else if o.dial.code == 401 then AtMost(left, 10.0) else left
  {
    RateInUnit(h.successes, h.failures + 1);
  }

  // ----- Rejected credentials -----

  /** The outcome that replaces a bench by a shorter one: a later 429 or 5xx of the same key
      whose cooldown cannot be stored. */
  predicate ShortensBench(step: Step, id: KeyId) {
    && step.Record? && step.o.id == id && !step.io.cancelled && step.io.loads && !step.io.sets
    && step.o.dial.Refused? && (step.o.dial.code == 429 || step.o.dial.code >= 500)
  }

  /** The key is benched until then, or that time has come. */
  predicate OnBench(p: Pool, id: KeyId, until: int, clock: int) {
    clock >= until || (id in p.benched && p.benched[id] >= until)
  }

  lemma {:induction false} OutcomeBench(p: Pool, o: Outcome, io: Io, benchDuration: int, id: KeyId, until: int,
                                        clock: int)
    requires OnBench(p, id, until, clock) && clock <= o.now && !ShortensBench(Record(o, io), id)
    requires o.id == id && o.dial == Refused(401) ==> o.now + benchDuration >= until
    ensures OnBench(Recorded(p, o, io, benchDuration), id, until, o.now)
  {
    hide Recorded, Storm, Pruned, Untouched, Effective, Share, Penalty, Minutes;
    CountedIff(p, o, io);
    if CountedFailure(p, o, io) {
      FailureCosts(p, o, io, benchDuration);
    } else if o.dial == Answered && Heard(io) && o.id != "" {
      SuccessRest(p, o, io);
      RecordedSuccess(p, o, io, benchDuration);
    } else {
      QuietBench(p, o, io, benchDuration);
    }
  }

  lemma {:induction false} QuietBench(p: Pool, o: Outcome, io: Io, benchDuration: int)
    requires !CountedFailure(p, o, io) && !(o.dial == Answered && Heard(io) && o.id != "")
    ensures Recorded(p, o, io, benchDuration).benched == p.benched
  {
    if o.id != "" {
      hide Recorded;
      SilentUntouched(p, o, io, benchDuration);
    }
  }

  lemma {:induction false} StepBench(s: State, step: Step, set_: Setting, id: KeyId, until: int, clock: int)
    requires OnBench(s.pool, id, until, clock) && clock <= TimeOf(step) && !ShortensBench(step, id)
    requires step.Record? && step.o.id == id && step.o.dial == Refused(401)
             ==> step.o.now + set_.benchDuration >= until
    ensures OnBench(Stepped(s, step, set_).pool, id, until, TimeOf(step))
  {
    hide Recorded, Taken;
    match step
    case Record(o, io) => OutcomeBench(s.pool, o, io, set_.benchDuration, id, until, clock);
    case Take(_, _, _, _) => TakeKeeps(s, step, set_);
    case Begin(_, _, _) =>
  }

  lemma {:induction false} RunBench(s: State, steps: seq<Step>, set_: Setting, id: KeyId, at: int)
    requires OnBench(s.pool, id, at + set_.benchDuration, at) && MonotoneFrom(steps, at)
    requires forall i :: 0 <= i < |steps| ==> !ShortensBench(steps[i], id)
    ensures OnBench(Ran(s, steps, set_).pool, id, at + set_.benchDuration,
                    if |steps| == 0 then at else TimeOf(steps[|steps| - 1]))
  {
    if |steps| > 0 {
      hide OnBench, Stepped, ShortensBench;
      var n := |steps| - 1;
      assert forall i :: 0 <= i < n ==> steps[..n][i] == steps[i];
      RunBench(s, steps[..n], set_, id, at);
      StepBench(Ran(s, steps[..n], set_), steps[n], set_, id, at + set_.benchDuration,
                if n == 0 then at else TimeOf(steps[n - 1]));
    }
  }

  /** A key whose credentials were rejected stays on the bench for the configured time, even
      over successes of older dials, unless a later 429 or 5xx of it cannot store its
      cooldown (which sets the bench to a minute, see `FailureCosts`). */
  lemma {:induction false} UnauthorizedRests(s: State, o: Outcome, io: Io, steps: seq<Step>, take: Step, set_: Setting)
    requires o.id != "" && !io.cancelled && io.loads && o.dial == Refused(401)
    requires take.Take? && MonotoneFrom(steps + [take], o.now)
    requires forall i :: 0 <= i < |steps| ==> !ShortensBench(steps[i], o.id)
    ensures var r := Taken(Ran(Stepped(s, Record(o, io), set_), steps, set_), take, set_).result;
            r.Success? && r.value.id == o.id ==> o.now + set_.benchDuration <= take.at
  {
    hide Recorded, Taken, Ran, Storm, Pruned, ShortensBench;
    var failed := Stepped(s, Record(o, io), set_);
    CountedIff(s.pool, o, io);
    FailureCosts(s.pool, o, io, set_.benchDuration);
    var all := steps + [take];
    assert all[|steps|] == take && forall i :: 0 <= i < |steps| ==> all[i] == steps[i];
    RunBench(failed, steps, set_, o.id, o.now);
    BenchedNotTaken(Ran(failed, steps, set_), take, set_, o.id, o.now + set_.benchDuration,
                    if |steps| == 0 then o.now else TimeOf(steps[|steps| - 1]));
  }

  lemma {:induction false} BenchedNotTaken(s: State, take: Step, set_: Setting, id: KeyId, until: int, clock: int)
    requires take.Take? && OnBench(s.pool, id, until, clock) && clock <= take.at
    ensures var r := Taken(s, take, set_).result; r.Success? && r.value.id == id ==> until <= take.at
  {
    hide PickFrom, PickList, Probing, ModeOf, Examined;
    if Taken(s, take, set_).result.Success? {
      var row := SelectedIsEligible(s.pool, s.rr, s.turn, take.rows.value, take.opts, take.own, take.at, set_.keys);
    }
  }

  // ----- When a success is written -----

  /** A success that ends nothing and probes nothing is written when none of the key has been
      for thirty seconds; else it waits in memory. */
  lemma {:induction false} PlainSuccessWrites(p: Pool, o: Outcome, io: Io, benchDuration: int)
    requires o.id != "" && !io.cancelled && io.loads && o.dial == Answered && !o.probing
    requires Effective(p, o.id).reason == NoClass && Effective(p, o.id).consecutive == 0
    ensures var q, last := Recorded(p, o, io, benchDuration), RuntimeOf(p, o.id).lastPersist;
            if (last == None || o.now - last.value >= 30_000_000_000) && io.upserts then
              o.id in q.stored && q.stored[o.id] == Effective(q, o.id) && o.id !in q.dirty
            else q.stored == p.stored && o.id in q.dirty
  {
    hide Succeeded, Noted;
    var h := Decayed(Effective(p, o.id), o.now);
    assert h.reason == NoClass && h.consecutive == 0;
  }

  /** A row nothing was ever recorded in counts as 70 points. */
  lemma {:induction false} NeverScored(h: Health, now: int)
    requires h == Health(0.0, 0, 0, 0, None, NoClass, None, None, None, NoClass)
    ensures Decayed(h, now).score == 70.0 && COLD_START.score == 70.0
  {
  }

  /** Idle, a score goes 3 percent of the way to 70 every five minutes, on the scale to 100. */
  lemma {:induction false} DecayIs(h: Health, now: int)
    requires h.updated.Some? && now - h.updated.value >= 0
    ensures var n := (now - h.updated.value) / 300_000_000_000;
            var score := 70.0 + (h.score - 70.0) * Power(0.97, n);
            Decayed(h, now).score ==
            if n == 0 then h.score else if score < 0.0 then 0.0 else if score > 100.0 then 100.0 else score
  {
    hide Power;
    assert 1.0 - DECAY_FRACTION == 0.97;
  }
}
