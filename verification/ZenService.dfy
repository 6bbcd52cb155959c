/** The key pool service: health bookkeeping, updated in place. */
module ZenService {
  import opened Wrappers
  import opened ZenScoring
  import opened ZenGuard
  import opened ZenPool
  import opened ZenAcquire
  import opened Skipping
  import opened WeightedPick
  import opened ZenSelection

  class Service {
    var stored: map<KeyId, Health>
    var cooldowns: map<KeyId, Deadline>
    var benched: map<KeyId, int>
    var dirty: map<KeyId, Health>
    var runtime: map<KeyId, Runtime>
    var windows: map<Provider, seq<Sample>>
    /** The selection counters, both 64 bits wide. */
    var rr: nat
    var probeSequence: nat
    const benchDuration: int
    const policy: Policy
    const keys: Keys

    ghost function View(): Pool
      reads this
    {
      Pool(stored, cooldowns, benched, dirty, runtime, windows)
    }

    constructor (benchDuration: int, policy: Policy, keys: Keys)
      ensures View() == Pool(map[], map[], map[], map[], map[], map[]) && rr == 0 && probeSequence == 0
      ensures this.benchDuration == benchDuration && this.policy == policy && this.keys == keys
    {
      this.benchDuration, this.policy, this.keys := benchDuration, policy, keys;
      rr, probeSequence := 0, 0;
      stored, cooldowns, benched, dirty, runtime, windows := map[], map[], map[], map[], map[], map[];
    }

    method NoteAcquire(id: KeyId, probing: bool, now: int)
      modifies `runtime
      ensures View() == ZenPool.NoteAcquire(old(View()), id, probing, now)
    {
      var r := if id in runtime then runtime[id] else IDLE;
      r := r.(requests := r.requests + [now], inflight := r.inflight + 1);
      if probing {
        r := r.(probing := true);
      }
      runtime := runtime[id := r];
    }

    method NoteRelease(id: KeyId)
      modifies `runtime
      ensures View() == ZenPool.NoteRelease(old(View()), id)
    {
      if id in runtime {
        var r := runtime[id];
        if r.inflight > 0 {
          r := r.(inflight := r.inflight - 1);
        }
        runtime := runtime[id := r.(probing := false)];
      }
    }

    method ShouldPersistSuccess(id: KeyId, now: int) returns (due: bool)
      modifies `runtime
      ensures due == Due(RuntimeOf(old(View()), id), now)
      ensures View() == AskPersist(old(View()), id, now)
    {
      var r := if id in runtime then runtime[id] else IDLE;
      due := r.lastPersist == None || now - r.lastPersist.value >= PERSIST_INTERVAL;
      if due {
        r := r.(lastPersist := Some(now));
      }
      runtime := runtime[id := r];
    }

    method PersistHealth(id: KeyId, health: Health, upserts: bool)
      modifies `stored, `dirty
      ensures View() == Persisted(old(View()), id, health, upserts)
    {
      if !upserts {
        dirty := dirty[id := health];
        return;
      }
      stored := stored[id := health];
      dirty := dirty - {id};
    }

    method StoreCooldown(id: KeyId, deadline: Option<int>, sets: bool)
      modifies `cooldowns
      ensures View() == SetCooldown(old(View()), id, deadline, sets)
    {
      if sets {
        cooldowns := if deadline == None then cooldowns - {id} else cooldowns[id := Until(deadline.value)];
      }
    }

    method MarkBench(id: KeyId, duration: int, now: int)
      modifies `benched
      ensures View() == Bench(old(View()), id, now + if duration <= 0 then benchDuration else duration)
    {
      var d := if duration <= 0 then benchDuration else duration;
      benched := benched[id := now + d];
    }

    method NoteProviderOutcome(provider: Provider, is5xx: bool, now: int)
      modifies `windows
      ensures View() == NoteOutcome(old(View()), provider, is5xx, now)
    {
      var kept := Prune(if provider in windows then windows[provider] else [], now);
      windows := windows[provider := kept + [Sample(now, is5xx)]];
    }

    /** The look prunes the window in place. */
    method Provider5xxGuardActive(provider: Provider, now: int) returns (active: bool)
      modifies `windows
      ensures active == Storm(Pruned(WindowOf(old(View()), provider), now))
      ensures forall is5xx :: NoteOutcome(View(), provider, is5xx, now)
                == NoteOutcome(old(View()), provider, is5xx, now)
      ensures View().(windows := old(windows)) == old(View())
    {
      if provider !in windows {
        return false;
      }
      var kept := Prune(windows[provider], now);
      PruneTwice(windows[provider], now);
      windows := windows[provider := kept];
      active := IsGuardActive(kept);
    }

    method GetHealth(id: KeyId) returns (h: Health)
      ensures h == Effective(View(), id)
    {
      h := if id in stored then stored[id] else COLD_START;
      // unwritten health goes over the stored row
      if id in dirty {
        h := dirty[id];
      }
    }

    method RecordPaidOutcome(o: Outcome, io: Io)
      modifies `stored, `cooldowns, `benched, `dirty, `runtime, `windows
      ensures View() == Recorded(old(View()), o, io, benchDuration)
    {
      if o.id == "" {
        return;
      }
      if !io.cancelled && io.loads {
        Judge(o, io);
      }
      NoteRelease(o.id);
    }

    method Judge(o: Outcome, io: Io)
      requires Heard(io)
      modifies `stored, `cooldowns, `benched, `dirty, `runtime, `windows
      ensures View() == Judged(old(View()), o, io, benchDuration)
    {
      var provider := if o.provider == Unspecified then OpenCode else o.provider;
      if o.dial == Answered {
        RecordSuccess(o, io, provider);
        return;
      }
      var class_ := Classified(o.dial);
      if class_ == NoClass {
        NoteProviderOutcome(provider, false, o.now);
        return;
      }
      var is5xx := class_ == Upstream5xx;
      if is5xx {
        var storm := Provider5xxGuardActive(provider, o.now);
        if storm {
          NoteProviderOutcome(provider, true, o.now);
          return;
        }
      }
      RecordFailure(o, io, provider, old(View()));
    }

    method RecordSuccess(o: Outcome, io: Io, provider: Provider)
      requires provider == Resolved(o.provider)
      modifies `stored, `cooldowns, `dirty, `runtime, `windows
      ensures View() == WithSuccess(old(View()), o, io)
    {
      var stale := GetHealth(o.id);
      var health := DecayHealth(stale, o.now);
      NoteProviderOutcome(provider, false, o.now);
      var prevReason, prevConsecutive := health.reason, health.consecutive;
      health := AfterSuccess(health, o.latency, o.now, None);
      if o.probing && health.score < PROBE_FLOOR {
        health := health.(score := PROBE_FLOOR);
      }
      StoreCooldown(o.id, None, io.sets);
      var persist := o.probing || prevReason != NoClass || prevConsecutive > 0;
      if !persist {
        persist := ShouldPersistSuccess(o.id, o.now);
      }
      if persist {
        PersistHealth(o.id, health, io.upserts);
      } else {
        dirty := dirty[o.id := health];
      }
    }

    /** `p` is the pool before the guard looked, which changed nothing that counts here. */
    method RecordFailure(o: Outcome, io: Io, provider: Provider, ghost p: Pool)
      requires provider == Resolved(o.provider) && Classified(o.dial) != NoClass
      requires View().(windows := p.windows) == p
      requires forall is5xx :: NoteOutcome(View(), provider, is5xx, o.now) == NoteOutcome(p, provider, is5xx, o.now)
      modifies `stored, `cooldowns, `benched, `dirty, `windows
      ensures View() == WithFailure(p, o, io, benchDuration)
    {
      var class_ := Classified(o.dial);
      var stale := GetHealth(o.id);
      var health := DecayHealth(stale, o.now);
      NoteProviderOutcome(provider, class_ == Upstream5xx, o.now);
      health := AfterFailure(health, class_, o.now, None);
      Rest(o.id, class_, health.consecutive, o.now, io.sets);
      PersistHealth(o.id, health, io.upserts);
    }

    method Rest(id: KeyId, class_: ErrorClass, consecutive: nat, now: int, sets: bool)
      modifies `benched, `cooldowns
      ensures View() == Rested(old(View()), id, class_, consecutive, now, sets, benchDuration)
    {
      if class_ == Unauthorized {
        MarkBench(id, 0, now);
      } else if sets {
        StoreCooldown(id, Some(now + CooldownForFailures(consecutive)), true);
      } else {
        MarkBench(id, DEFAULT_COOLDOWN, now);
      }
    }

    // ----- Selection -----

    method IsBenched(id: KeyId, now: int) returns (benchedNow: bool)
      modifies `benched
      ensures benchedNow == Benched(old(View()), id, now)
      ensures View() == (if Benched(old(View()), id, now) then old(View())
                         else old(View()).(benched := old(benched) - {id}))
    {
      if id !in benched {
        assert benched - {id} == benched;
        return false;
      }
      if now >= benched[id] {
        benched := benched - {id};
        return false;
      }
      benchedNow := true;
    }

    /** The benches still running; expired ones are deleted. */
    method BenchedSnapshot(now: int) returns (live: map<KeyId, int>)
      modifies `benched
      ensures View() == Purged(old(View()), now) && live == benched
    {
      live := map[];
      var todo := benched.Keys;
      while todo != {}
        invariant todo <= old(benched).Keys
        invariant forall id :: id in live <==> id in old(benched) && id !in todo && now < old(benched)[id]
        invariant forall id :: id in benched <==> id in old(benched) && (id in todo || now < old(benched)[id])
        invariant forall id :: id in live ==> live[id] == old(benched)[id]
        invariant forall id :: id in benched ==> benched[id] == old(benched)[id]
        decreases |todo|
      {
        var id :| id in todo;
        if now < benched[id] {
          live := live[id := benched[id]];
        } else {
          benched := benched - {id};
        }
        todo := todo - {id};
      }
    }

    method RuntimeSnapshot(id: KeyId, now: int) returns (requests: nat, inflight: nat, probing: bool)
      modifies `runtime
      ensures View() == Trim(old(View()), id, now)
      ensures requests == Requests(old(View()), id, now)
      ensures inflight == RuntimeOf(old(View()), id).inflight && probing == RuntimeOf(old(View()), id).probing
    {
      if id !in runtime {
        return 0, 0, false;
      }
      var r := runtime[id];
      var cutoff := now - LOAD_WINDOW;
      var index := 0;
      while index < |r.requests| && r.requests[index] < cutoff
        invariant 0 <= index <= |r.requests|
        invariant DropStale(r.requests[index..], now) == DropStale(r.requests, now)
      {
        assert r.requests[index..][1..] == r.requests[index + 1..];
        index := index + 1;
      }
      if index > 0 {
        r := r.(requests := r.requests[index..]);
      }
      runtime := runtime[id := r];
      requests, inflight, probing := |r.requests|, r.inflight, r.probing;
    }

    /** The eligible keys, active or to be probed, each scored by health and load. */
    method Gather(rows: seq<Row>, opts: Options, now: int) returns (actives: seq<Candidate>, probes: seq<Candidate>)
      modifies `runtime
      ensures View() == Examined(old(View()), rows, opts, now)
      ensures actives == Actives(old(View()), rows, opts, now) && probes == Probes(old(View()), rows, opts, now)
    {
      actives, probes := [], [];
      for i := 0 to |rows|
        invariant View() == Examined(old(View()), rows[..i], opts, now)
        invariant actives == Actives(old(View()), rows[..i], opts, now)
                  && probes == Probes(old(View()), rows[..i], opts, now)
      {
        assert rows[..i + 1][..i] == rows[..i];
        SeenSame(old(View()), rows[..i], rows[i], opts, now);
        actives, probes := Admit(rows[i], opts, now, actives, probes);
      }
      assert rows[..|rows|] == rows;
    }

    method Admit(row: Row, opts: Options, now: int, actives: seq<Candidate>, probes: seq<Candidate>)
      returns (actives': seq<Candidate>, probes': seq<Candidate>)
      modifies `runtime
      ensures View() == if Eligible(old(View()), row, opts, now) then Trim(old(View()), row.id, now) else old(View())
      ensures actives' == actives
              + if IsActive(old(View()), row, opts, now) then [CandidateOf(old(View()), row, now)] else []
      ensures probes' == probes
              + if IsProbe(old(View()), row, opts, now) then [CandidateOf(old(View()), row, now)] else []
    {
      actives', probes' := actives, probes;
      if row.id in opts.excluded || !row.enabled {
        return;
      }
      if row.id in benched && now < benched[row.id] {
        return;
      }
      if row.id in cooldowns && (cooldowns[row.id].Unreadable? || now < cooldowns[row.id].at) {
        return;
      }
      var candidate, reason, probeBusy := Score(row, now);
      if reason != NoClass {
        if opts.forAttempt && !probeBusy {
          probes' := probes + [candidate];
        }
        return;
      }
      actives' := actives + [candidate];
    }

    method Score(row: Row, now: int) returns (candidate: Candidate, reason: ErrorClass, probeBusy: bool)
      modifies `runtime
      ensures View() == Trim(old(View()), row.id, now)
      ensures candidate == CandidateOf(old(View()), row, now)
      ensures reason == HealthNow(old(View()), row.id, now).reason
              && probeBusy == RuntimeOf(old(View()), row.id).probing
    {
      var stale := GetHealth(row.id);
      var health := DecayHealth(stale, now);
      reason := health.reason;
      var requests, inflight;
      requests, inflight, probeBusy := RuntimeSnapshot(row.id, now);
      candidate := Candidate(row, SelectionScore(health.score, requests, inflight));
    }

    /** All these keys' loads have been looked at, so looking again changes nothing. */
    ghost predicate Settled(cands: seq<Candidate>, now: int)
      reads this
    {
      forall c :: c in cands ==> Trim(View(), c.row.id, now) == View()
    }

    method ShareCapExceeded(id: KeyId, cands: seq<Candidate>, now: int) returns (over: bool)
      requires Settled(cands, now) && exists c :: c in cands && c.row.id == id
      modifies `runtime
      ensures View() == old(View()) && over == OverCap(View(), cands, id, now)
    {
      if |cands| <= 1 {
        return false;
      }
      var total, selected := 0, 0;
      for i := 0 to |cands|
        invariant View() == old(View())
        invariant total == TotalRequests(View(), cands[..i], now)
        invariant (exists j :: 0 <= j < i && cands[j].row.id == id) ==> selected == Requests(View(), id, now)
      {
        assert cands[i] in cands && cands[..i + 1][..i] == cands[..i];
        var requests, _, _ := RuntimeSnapshot(cands[i].row.id, now);
        total := total + requests;
        if cands[i].row.id == id { selected := requests; }
      }
      assert cands[..|cands|] == cands;
      if total < 10 {
        return false;
      }
      ShareAsRatio(selected + 1, total + 1);
      over := (selected + 1) as real / (total + 1) as real > 0.70;
    }

    /** The candidates within their share. */
    method Cap(cands: seq<Candidate>, now: int) returns (capped: seq<Candidate>)
      requires Settled(cands, now)
      modifies `runtime
      ensures View() == old(View()) && capped == WithinCap(View(), cands, cands, now)
    {
      capped := [];
      for i := 0 to |cands|
        invariant View() == old(View())
        invariant capped == WithinCap(View(), cands, cands[..i], now)
      {
        assert cands[..i + 1][..i] == cands[..i] && cands[i] in cands;
        var over := ShareCapExceeded(cands[i].row.id, cands, now);
        if !over {
          capped := capped + [cands[i]];
        }
      }
      assert cands[..|cands|] == cands;
    }

    method ChooseByTurn(usable: seq<Candidate>) returns (i: nat)
      requires |usable| > 0 && forall c :: c in usable ==> c.score >= 1
      modifies `rr
      ensures rr == Next(old(rr)) && i == Chosen(usable, old(rr), ByTurn)
    {
      var total, equalScores := 0, true;
      var weights := Scores(usable);
      for k := 0 to |usable|
        invariant total == Total(weights[..k])
        invariant equalScores <==> forall j :: 0 < j < k ==> usable[j].score == usable[0].score
      {
        assert weights[..k + 1][..k] == weights[..k];
        total := total + usable[k].score;
        if k > 0 && usable[k].score != usable[0].score { equalScores := false; }
      }
      assert weights[..|usable|] == weights;
      rr := Next(rr);
      if equalScores {
        return rr % |usable|;
      }
      assert usable[|usable| - 1] in usable;
      i := AtSlot(weights, rr % total);
    }

    method ChooseByRank(usable: seq<Candidate>, rank: KeyId -> real) returns (i: nat)
      requires |usable| > 0
      requires forall c :: c in usable ==> rank(c.row.id) >= 0.0
      ensures i < |usable| && i == BestIndex(usable, rank)
    {
      var best := -1.0;
      i := 0;
      for k := 0 to |usable|
        invariant k == 0 ==> best == -1.0
        invariant k > 0 ==> i < k && best == rank(usable[i].row.id) && i == BestIndex(usable[..k], rank)
      {
        assert usable[..k + 1][..k] == usable[..k] && usable[k] in usable;
        var value := rank(usable[k].row.id);
        if value > best {
          best, i := value, k;
        }
      }
      assert usable[..|usable|] == usable;
    }

    method Choose(usable: seq<Candidate>, mode: Mode) returns (i: nat)
      requires |usable| > 0 && forall c :: c in usable ==> c.score >= 1
      requires mode.ByRank? ==> forall c :: c in usable ==> mode.rank(c.row.id) >= 0.0
      modifies `rr
      ensures i == Chosen(usable, old(rr), mode) && rr == if mode.ByRank? then old(rr) else Next(old(rr))
    {
      if mode.ByRank? {
        i := ChooseByRank(usable, mode.rank);
      } else {
        i := ChooseByTurn(usable);
      }
    }

    /** Pick until a ciphertext opens; keys that do not open are skipped from then on. */
    method PickOpening(cands: seq<Candidate>, mode: Mode) returns (choice: Option<Candidate>)
      requires DistinctIds(cands) && forall c :: c in cands ==> c.score >= 1
      requires mode.ByRank? ==> forall c :: c in cands ==> mode.rank(c.row.id) >= 0.0
      modifies `rr
      ensures (rr, choice) == PickFrom(cands, old(rr), mode, keys.open)
    {
      hide Chosen, PickFrom, DistinctIds;
      var skipped: set<KeyId> := {};
      UnskippedAll(cands, IdOf);
      while |skipped| < |cands|
        invariant |skipped| + |Unskipped(cands, IdOf, skipped)| == |cands|
        invariant PickFrom(Unskipped(cands, IdOf, skipped), rr, mode, keys.open)
                  == PickFrom(cands, old(rr), mode, keys.open)
        decreases |cands| - |skipped|
      {
        var usable := Usable(cands, IdOf, skipped);
        PickFromStep(usable, rr, mode, keys.open);
        ghost var before := rr;
        var i := Choose(usable, mode);
        if keys.open(usable[i].row.ciphertext).Some? {
          return Some(usable[i]);
        }
        PickAgain(cands, skipped, before, i, mode, keys.open);
        skipped := skipped + {usable[i].row.id};
      }
      PickFromNothing(rr, mode, keys.open);
      choice := None;
    }

    method Look(rows: seq<Row>, opts: Options, now: int) returns (actives: seq<Candidate>, probes: seq<Candidate>)
      modifies `benched, `runtime
      ensures View() == Examined(Purged(old(View()), now), rows, opts, now)
      ensures actives == Actives(old(View()), rows, opts, now) && probes == Probes(old(View()), rows, opts, now)
      ensures Settled(actives, now) && SameLoad(old(View()), View(), now)
    {
      ghost var p := View();
      var live := BenchedSnapshot(now);
      actives, probes := Gather(rows, opts, now);
      PurgedSame(p, rows, opts, now);
      ActivesSettled(p, rows, opts, now);
      ExaminedLoad(p, rows, opts, now);
    }

    /** A probe turn tries only probes; otherwise spread keeps keys within their share. */
    method Narrow(actives: seq<Candidate>, probes: seq<Candidate>, turn: nat, own: Policy, now: int)
      returns (candidates: seq<Candidate>, probing: bool)
      requires Settled(actives, now)
      modifies `runtime
      ensures View() == old(View())
      ensures probing == ProbeTurn(actives, probes, turn)
              && candidates == Narrowed(View(), actives, probes, turn, own, now)
    {
      probing := |probes| > 0 && (|actives| == 0 || turn % PROBE_EVERY == 0);
      candidates := if probing then probes else actives;
      if |candidates| > 1 && !probing && own != Sticky {
        var capped := Cap(candidates, now);
        if |capped| > 0 {
          candidates := capped;
        }
      }
    }

    /** `rows` is what the store lists, or None when it fails. */
    method AcquireFor(rows: Option<seq<Row>>, opts: Options, now: int) returns (r: Result<Selected, AcquireError>)
      requires rows.Some? ==> PrimaryKeys(rows.value)
      requires forall affinity, id :: keys.rank(affinity)(id) >= 0.0
      modifies `benched, `runtime, `rr, `probeSequence
      ensures Acquisition(View(), rr, probeSequence, r)
              == Acquire(old(View()), old(rr), old(probeSequence), rows, opts, policy, now, keys)
    {
      hide Actives, Probes, Examined, Purged, PickFrom, OfProvider, TrimSpace;
      if rows.None? {
        return Failure(ListFailed);
      }
      ghost var p := View();
      var provider := Resolved(opts.provider);
      var mine := OfProvider(rows.value, provider);
      var actives, probes := Look(mine, opts, now);
      PickListDistinct(p, probeSequence, rows.value, opts, policy, now);
      if |actives| == 0 && |probes| == 0 {
        return Failure(NoHealthyKey);
      }
      probeSequence := Next(probeSequence);
      var own := if opts.policy == None then policy else opts.policy.value;
      var candidates, probing := Narrow(actives, probes, probeSequence, own, now);
      NarrowedSame(p, View(), actives, probes, probeSequence, own, now);
      assert candidates == PickList(p, old(probeSequence), rows.value, opts, policy, now);
      r := PickAndOpen(candidates, ModeOf(opts, policy, probing, keys), probing, provider);
    }

    method PickAndOpen(candidates: seq<Candidate>, mode: Mode, probing: bool, provider: Provider)
      returns (r: Result<Selected, AcquireError>)
      requires DistinctIds(candidates) && forall c :: c in candidates ==> c.score >= 1
      requires mode.ByRank? ==> forall c :: c in candidates ==> mode.rank(c.row.id) >= 0.0
      modifies `rr
      ensures var (next, choice) := PickFrom(candidates, old(rr), mode, keys.open);
              && rr == next
              && r == if choice == None then Failure(NoHealthyKey)
                      else Success(Selected(choice.value.row.id, keys.open(choice.value.row.ciphertext).value, probing,
                                            provider))
    {
      var choice := PickOpening(candidates, mode);
      if choice.None? {
        return Failure(NoHealthyKey);
      }
      r := Success(Selected(choice.value.row.id, keys.open(choice.value.row.ciphertext).value, probing, provider));
    }
  }

  /** Key ids are the table's primary key. */
  predicate PrimaryKeys(rows: seq<Row>) {
    forall i, j :: 0 <= i < j < |rows| ==> rows[i].id != rows[j].id
  }

  lemma {:induction false} PurgedSame(p: Pool, rows: seq<Row>, opts: Options, now: int)
    ensures Actives(Purged(p, now), rows, opts, now) == Actives(p, rows, opts, now)
    ensures Probes(Purged(p, now), rows, opts, now) == Probes(p, rows, opts, now)
  {
    if |rows| > 0 {
      PurgedSame(p, rows[..|rows| - 1], opts, now);
      PurgedSameRow(p, rows[|rows| - 1], opts, now);
    }
  }

  lemma {:induction false} PurgedSameRow(p: Pool, row: Row, opts: Options, now: int)
    ensures IsActive(Purged(p, now), row, opts, now) <==> IsActive(p, row, opts, now)
    ensures IsProbe(Purged(p, now), row, opts, now) <==> IsProbe(p, row, opts, now)
    ensures CandidateOf(Purged(p, now), row, now) == CandidateOf(p, row, now)
  {
    assert Effective(Purged(p, now), row.id) == Effective(p, row.id);
  }

  lemma {:induction false} TrimTwice(p: Pool, id: KeyId, other: KeyId, now: int)
    requires Trim(p, id, now) == p
    ensures Trim(Trim(p, other, now), id, now) == Trim(p, other, now)
    ensures Trim(Trim(p, other, now), other, now) == Trim(p, other, now)
  {
    if other in p.runtime { DropTwice(p.runtime[other].requests, now); }
  }

  /** After the examination every eligible key's load is already trimmed. */
  lemma {:induction false} ExaminedSettled(p: Pool, rows: seq<Row>, opts: Options, now: int, row: Row)
    requires row in rows && Eligible(p, row, opts, now)
    ensures Trim(Examined(p, rows, opts, now), row.id, now) == Examined(p, rows, opts, now)
  {
    var front, last := rows[..|rows| - 1], rows[|rows| - 1];
    var before := Examined(p, front, opts, now);
    if row == last {
      if row.id in before.runtime { DropTwice(before.runtime[row.id].requests, now); }
    } else {
      assert rows == front + [last];
      ExaminedSettled(p, front, opts, now, row);
      TrimTwice(before, row.id, last.id, now);
    }
  }

  lemma {:induction false} ActivesSettled(p: Pool, rows: seq<Row>, opts: Options, now: int)
    ensures var q := Examined(Purged(p, now), rows, opts, now);
            forall c :: c in Actives(p, rows, opts, now) ==> Trim(q, c.row.id, now) == q
  {
    forall c | c in Actives(p, rows, opts, now)
      ensures Trim(Examined(Purged(p, now), rows, opts, now), c.row.id, now)
              == Examined(Purged(p, now), rows, opts, now)
    {
      ListMembers(p, rows, opts, now, c);
      ExaminedSettled(Purged(p, now), rows, opts, now, c.row);
    }
  }

  ghost predicate SameLoad(p: Pool, q: Pool, now: int) {
    forall id :: Requests(p, id, now) == Requests(q, id, now)
  }

  lemma {:induction false} TotalSame(p: Pool, q: Pool, cands: seq<Candidate>, now: int)
    requires SameLoad(p, q, now)
    ensures TotalRequests(p, cands, now) == TotalRequests(q, cands, now)
  {
    if |cands| > 0 { TotalSame(p, q, cands[..|cands| - 1], now); }
  }

  lemma {:induction false} CapSame(p: Pool, q: Pool, all: seq<Candidate>, some: seq<Candidate>, now: int)
    requires SameLoad(p, q, now)
    ensures WithinCap(p, all, some, now) == WithinCap(q, all, some, now)
  {
    if |some| > 0 {
      CapSame(p, q, all, some[..|some| - 1], now);
      TotalSame(p, q, all, now);
    }
  }

  lemma {:induction false} NarrowedSame(p: Pool, q: Pool, actives: seq<Candidate>, probes: seq<Candidate>, turn: nat,
                                        own: Policy, now: int)
    requires SameLoad(p, q, now)
    ensures Narrowed(p, actives, probes, turn, own, now) == Narrowed(q, actives, probes, turn, own, now)
  {
    CapSame(p, q, actives, actives, now);
  }

  lemma {:induction false} ExaminedLoad(p: Pool, rows: seq<Row>, opts: Options, now: int)
    ensures SameLoad(p, Examined(Purged(p, now), rows, opts, now), now)
  {
    forall id
      ensures Requests(p, id, now) == Requests(Examined(Purged(p, now), rows, opts, now), id, now)
    {
      ExaminedSame(Purged(p, now), rows, opts, now, id);
    }
  }

  lemma {:induction false} PickListDistinct(p: Pool, turn: nat, rows: seq<Row>, opts: Options, own: Policy, now: int)
    requires PrimaryKeys(rows)
    ensures DistinctIds(PickList(p, turn, rows, opts, own, now))
  {
    var mine := OfProvider(rows, Resolved(opts.provider));
    ProviderKeys(rows, Resolved(opts.provider));
    ActivesDistinct(p, mine, opts, now);
    CapDistinct(p, Actives(p, mine, opts, now), Actives(p, mine, opts, now), now);
  }

  lemma {:induction false} ProviderKeys(rows: seq<Row>, provider: Provider)
    requires PrimaryKeys(rows)
    ensures PrimaryKeys(OfProvider(rows, provider))
  {
    if |rows| > 0 {
      var front, last := rows[..|rows| - 1], rows[|rows| - 1];
      ProviderKeys(front, provider);
      forall i | 0 <= i < |OfProvider(front, provider)|
        ensures OfProvider(front, provider)[i].id != last.id
      {
        ProviderMembers(front, provider, OfProvider(front, provider)[i]);
      }
    }
  }

  lemma {:induction false} ActivesDistinct(p: Pool, rows: seq<Row>, opts: Options, now: int)
    requires PrimaryKeys(rows)
    ensures DistinctIds(Actives(p, rows, opts, now)) && DistinctIds(Probes(p, rows, opts, now))
  {
    if |rows| > 0 {
      var front, last := rows[..|rows| - 1], rows[|rows| - 1];
      ActivesDistinct(p, front, opts, now);
      forall c | c in Actives(p, front, opts, now) || c in Probes(p, front, opts, now)
        ensures c.row.id != last.id
      {
        ListMembers(p, front, opts, now, c);
      }
    }
  }

  lemma {:induction false} CapDistinct(p: Pool, all: seq<Candidate>, some: seq<Candidate>, now: int)
    requires DistinctIds(some)
    ensures DistinctIds(WithinCap(p, all, some, now))
  {
    if |some| > 0 {
      var front, last := some[..|some| - 1], some[|some| - 1];
      CapDistinct(p, all, front, now);
      WithinCapMembers(p, all, front, now);
    }
  }

  predicate DistinctIds(cands: seq<Candidate>) { Distinct(cands, IdOf) }

  lemma {:induction false} ShareAsRatio(a: nat, b: nat)
    requires b > 0
    ensures a as real / b as real > 0.70 <==> 10 * a > 7 * b
  {
    RatioOrder(a as real, b as real, 0.70);
  }

  /** Looking at loads changes nothing a later look at the same time sees. */
  lemma {:induction false} ExaminedSame(p: Pool, rows: seq<Row>, opts: Options, now: int, id: KeyId)
    ensures var q := Examined(p, rows, opts, now);
            && q == p.(runtime := q.runtime)
            && Requests(q, id, now) == Requests(p, id, now)
            && RuntimeOf(q, id).inflight == RuntimeOf(p, id).inflight
              && RuntimeOf(q, id).probing == RuntimeOf(p, id).probing
  {
    if |rows| > 0 {
      ExaminedSame(p, rows[..|rows| - 1], opts, now, id);
      DropTwice(RuntimeOf(Examined(p, rows[..|rows| - 1], opts, now), id).requests, now);
    }
  }

  lemma {:induction false} SeenSame(p: Pool, rows: seq<Row>, row: Row, opts: Options, now: int)
    ensures var q := Examined(p, rows, opts, now);
            && (Eligible(q, row, opts, now) <==> Eligible(p, row, opts, now))
            && (IsActive(q, row, opts, now) <==> IsActive(p, row, opts, now))
            && (IsProbe(q, row, opts, now) <==> IsProbe(p, row, opts, now))
            && CandidateOf(q, row, now) == CandidateOf(p, row, now)
  {
    ExaminedSame(p, rows, opts, now, row.id);
    assert Effective(Examined(p, rows, opts, now), row.id) == Effective(p, row.id);
  }

  lemma {:induction false} PruneTwice(samples: seq<Sample>, now: int)
    ensures Pruned(Pruned(samples, now), now) == Pruned(samples, now)
  {
    if |samples| > 0 && samples[0].at < now - GUARD_WINDOW { PruneTwice(samples[1..], now); }
  }

  /** A candidate that does not open is skipped, and the pick goes on among the others. */
  lemma {:induction false} PickAgain(cands: seq<Candidate>, skipped: set<KeyId>, rr: nat, i: nat, mode: Mode,
                                     open: string -> Option<string>)
    requires DistinctIds(cands) && (forall c :: c in cands ==> c.score >= 1)
    requires |Unskipped(cands, IdOf, skipped)| > 0 && i == Chosen(Unskipped(cands, IdOf, skipped), rr, mode)
    requires open(Unskipped(cands, IdOf, skipped)[i].row.ciphertext) == None
    ensures var usable := Unskipped(cands, IdOf, skipped);
            var rest := Unskipped(cands, IdOf, skipped + {usable[i].row.id});
            && usable[i].row.id !in skipped && |rest| == |usable| - 1
            && PickFrom(usable, rr, mode, open) == PickFrom(rest, if mode.ByRank? then rr else Next(rr), mode, open)
  {
    hide Chosen;
    UnskippedWithout(cands, IdOf, skipped, i);
  }
}
