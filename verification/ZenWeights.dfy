/** Who may be chosen, with what weight, and how often. */
module ZenWeights {
  import opened Wrappers
  import opened ZenScoring
  import opened ZenPool
  import opened ZenAcquire
  import opened ZenSelection
  import opened WeightedPick

  // ----- Who may be chosen -----

  /** The key is enabled and untried, and neither bench nor cooldown holds it; a cooldown that
      does not parse does. */
  predicate MayServe(p: Pool, row: Row, opts: Options, now: int) {
    && row.enabled && row.id !in opts.excluded
    && (row.id in p.benched ==> p.benched[row.id] <= now)
    && (row.id in p.cooldowns ==> p.cooldowns[row.id].Until? && p.cooldowns[row.id].at <= now)
    && row.provider == (if opts.provider == Unspecified then OpenCode else opts.provider)
  }

  lemma {:induction false} MemberIff(p: Pool, rows: seq<Row>, opts: Options, now: int, row: Row)
    ensures (exists c :: c in Actives(p, rows, opts, now) && c.row == row)
            <==> row in rows && IsActive(p, row, opts, now)
    ensures (exists c :: c in Probes(p, rows, opts, now) && c.row == row) <==> row in rows && IsProbe(p, row, opts, now)
  {
    if |rows| > 0 {
      hide IsActive, IsProbe;
      var front, last := rows[..|rows| - 1], rows[|rows| - 1];
      MemberIff(p, front, opts, now, row);
      assert rows == front + [last];
      var mine := CandidateOf(p, last, now);
      if IsActive(p, last, opts, now) { assert mine in Actives(p, rows, opts, now); }
      if IsProbe(p, last, opts, now) { assert mine in Probes(p, rows, opts, now); }
      assert forall c :: c in Actives(p, front, opts, now) ==> c in Actives(p, rows, opts, now);
      assert forall c :: c in Probes(p, front, opts, now) ==> c in Probes(p, rows, opts, now);
    }
  }

  lemma {:induction false} OfProviderIff(rows: seq<Row>, provider: Provider, row: Row)
    ensures row in OfProvider(rows, provider) <==> row in rows && row.provider == provider
  {
    if |rows| > 0 {
      OfProviderIff(rows[..|rows| - 1], provider, row);
      assert rows == rows[..|rows| - 1] + [rows[|rows| - 1]];
    }
  }

  lemma {:induction false} MayServeIff(p: Pool, row: Row, opts: Options, now: int)
    ensures MayServe(p, row, opts, now) <==> Eligible(p, row, opts, now) && row.provider == Resolved(opts.provider)
    ensures HealthNow(p, row.id, now).reason == Effective(p, row.id).reason
  {
  }

  /** Exactly the keys that may serve are candidates: those without a failure behind them as
      active ones, the others to probe, by a real attempt, unless a probe of theirs is out. */
  lemma {:induction false} CandidateIff(p: Pool, rows: seq<Row>, opts: Options, now: int, row: Row)
    ensures var mine := OfProvider(rows, Resolved(opts.provider));
            var failed := Effective(p, row.id).reason != NoClass;
            && ((exists c :: c in Actives(p, mine, opts, now) && c.row == row) <==>
                  row in rows && MayServe(p, row, opts, now) && !failed)
            && ((exists c :: c in Probes(p, mine, opts, now) && c.row == row) <==>
                  row in rows && MayServe(p, row, opts, now) && failed && opts.forAttempt
                  && !RuntimeOf(p, row.id).probing)
  {
    hide Eligible, MayServe, HealthNow;
    MemberIff(p, OfProvider(rows, Resolved(opts.provider)), opts, now, row);
    OfProviderIff(rows, Resolved(opts.provider), row);
    MayServeIff(p, row, opts, now);
  }

  /** With keys of both kinds, one turn in twenty is for a probe; without active keys each is. */
  lemma {:induction false} ProbeTurnIff(p: Pool, turn: nat, rows: seq<Row>, opts: Options, now: int)
    ensures var mine := OfProvider(rows, Resolved(opts.provider));
            Probing(p, turn, rows, opts, now) <==>
            && Probes(p, mine, opts, now) != []
            && (Actives(p, mine, opts, now) == [] || Next(turn) % 20 == 0)
  {
  }

  // ----- With what weight -----

  /** What the requests of the last five minutes and those in flight cost: 8 points for each
      thirty requests and for each four in flight, at most 15 in all. */
  function Cost(requests: nat, inflight: nat): real {
    AtMost(8.0 * requests as real / 30.0 + 2.0 * inflight as real, 15.0)
  }

  /** A weight that is this number to the nearest whole one, and at least 1. */
  predicate Nearest(weight: nat, exact: real) {
    && weight >= 1
    && (exact >= 0.5 ==> weight as real - 0.5 <= exact < weight as real + 0.5)
    && (exact < 0.5 ==> weight == 1)
  }

  /** The weight of a candidate is its health, as decayed by now, less the cost of its load. */
  lemma {:induction false} WeightOfCandidate(p: Pool, rows: seq<Row>, opts: Options, now: int, c: Candidate)
    requires c in Actives(p, rows, opts, now) || c in Probes(p, rows, opts, now)
    ensures var id, health := c.row.id, Decayed(Effective(p, c.row.id), now).score;
            Nearest(c.score, (if health < 0.0 then 0.0 else health)
                             - Cost(Requests(p, id, now), RuntimeOf(p, id).inflight))
  {
    CandidateIs(p, rows, opts, now, c);
    WeightIsNearest(HealthNow(p, c.row.id, now).score, Requests(p, c.row.id, now), RuntimeOf(p, c.row.id).inflight);
  }

  lemma {:induction false} CandidateIs(p: Pool, rows: seq<Row>, opts: Options, now: int, c: Candidate)
    requires c in Actives(p, rows, opts, now) || c in Probes(p, rows, opts, now)
    ensures c == CandidateOf(p, c.row, now)
  {
    if |rows| > 0 {
      hide IsActive, IsProbe, SelectionScore;
      var front := rows[..|rows| - 1];
      if c in Actives(p, front, opts, now) || c in Probes(p, front, opts, now) { CandidateIs(p, front, opts, now, c); }
    }
  }

  lemma {:induction false} WeightIsNearest(health: real, requests: nat, inflight: nat)
    ensures Nearest(SelectionScore(health, requests, inflight),
                    (if health < 0.0 then 0.0 else health) - Cost(requests, inflight))
  {
    CostOf(requests, inflight);
    var exact := (if health < 0.0 then 0.0 else health) - Cost(requests, inflight);
    NearestWhole(exact);
  }

  lemma {:induction false} CostOf(requests: nat, inflight: nat)
    ensures LoadPenalty(requests, inflight) == -Cost(requests, inflight)
  {
    var r, i := requests as real, inflight as real;
    assert 8.0 * (r / 30.0 + i / 4.0) == 8.0 * r / 30.0 + 2.0 * i;
  }

  lemma {:induction false} NearestWhole(x: real)
    ensures x >= 0.0 ==> Rounded(x) as real - 0.5 <= x < Rounded(x) as real + 0.5
    ensures x < 0.5 ==> Rounded(x) <= 0
    ensures x >= 0.5 ==> Rounded(x) >= 1
  {
  }

  lemma {:induction false} RoundedGrows(x: real, y: real)
    requires x <= y
    ensures Rounded(x) <= Rounded(y)
  {
  }

  lemma {:induction false} CostGrows(r1: nat, i1: nat, r2: nat, i2: nat)
    requires r1 <= r2 && i1 <= i2
    ensures 0.0 <= Cost(r1, i1) <= Cost(r2, i2) <= 15.0
  {
    Fraction(r1);
    assert 8.0 * r1 as real <= 8.0 * r2 as real;
    Fractions(8.0 * r1 as real, 8.0 * r2 as real);
  }

  lemma {:induction false} Fraction(r: nat)
    ensures 8.0 * r as real / 30.0 >= 0.0
  {
  }

  lemma {:induction false} Fractions(a: real, b: real)
    requires a <= b
    ensures a / 30.0 <= b / 30.0
  {
  }

  /** Better health never lowers a weight, more load never raises it, load takes off at most
      15, and an idle key has its rounded health. */
  lemma {:induction false} WeightOrder(h1: real, r1: nat, i1: nat, h2: real, r2: nat, i2: nat)
    requires h1 <= h2 && r1 >= r2 && i1 >= i2
    ensures SelectionScore(h1, r1, i1) <= SelectionScore(h2, r2, i2)
    ensures SelectionScore(h1, 0, 0) <= SelectionScore(h1, r1, i1) + 15
    ensures h1 >= 1.0 ==> SelectionScore(h1, 0, 0) as real - 0.5 <= h1 < SelectionScore(h1, 0, 0) as real + 0.5
  {
    hide SelectionScore, Rounded, Cost, LoadPenalty;
    CostGrows(r2, i2, r1, i1);
    CostGrows(0, 0, r1, i1);
    WeightByCost(h1, r1, i1);
    WeightByCost(h2, r2, i2);
    WeightByCost(h1, 0, 0);
    var a, b := (if h1 < 0.0 then 0.0 else h1), (if h2 < 0.0 then 0.0 else h2);
    RoundedGrows(a - Cost(r1, i1), b - Cost(r2, i2));
    assert Cost(0, 0) == 0.0 by { NoCost(); }
    FifteenLess(a, Cost(r1, i1));
    NearestWhole(a);
  }

  lemma {:induction false} NoCost()
    ensures Cost(0, 0) == 0.0
  {
  }

  lemma {:induction false} WeightByCost(health: real, requests: nat, inflight: nat)
    ensures var x := Rounded((if health < 0.0 then 0.0 else health) - Cost(requests, inflight));
            SelectionScore(health, requests, inflight) == if x < 1 then 1 else x
  {
    hide Rounded, Cost, LoadPenalty;
    CostOf(requests, inflight);
  }

  lemma {:induction false} FifteenLess(x: real, cost: real)
    requires 0.0 <= x && 0.0 <= cost <= 15.0
    ensures Rounded(x) <= Rounded(x - cost) + 15 || Rounded(x) <= 16
  {
  }

  // ----- How often -----

  predicate AllOpen(c: seq<Candidate>, open: string -> Option<string>) {
    forall x :: x in c ==> open(x.row.ciphertext).Some?
  }

  /** The keys the next n calls select, the pool held fixed. */
  function Served(p: Pool, rr: nat, turn: nat, rows: seq<Row>, opts: Options, own: Policy, now: int, keys: Keys,
                  n: nat): seq<Option<KeyId>>
    decreases n
  {
    if n == 0 then []
    else
      var a := Acquire(p, rr, turn, Some(rows), opts, own, now, keys);
      [if a.result.Success? then Some(a.result.value.id) else None]
        + Served(p, a.rr, a.turn, rows, opts, own, now, keys, n - 1)
  }

  function Ids(c: seq<Candidate>): (r: seq<KeyId>)
    ensures |r| == |c|
  {
    seq(|c|, i requires 0 <= i < |c| => c[i].row.id)
  }

  /** Plain rotation weighs all the same. */
  function Weights(c: seq<Candidate>): (r: seq<nat>)
    ensures |r| == |c|
  {
    if EqualScores(c) then Ones(|c|) else Scores(c)
  }

  function Ones(n: nat): (r: seq<nat>)
    ensures |r| == n
  {
    seq(n, i => 1)
  }

  lemma {:induction false} OnesTotal(n: nat)
    ensures Total(Ones(n)) == n
  {
    if n > 0 {
      assert Ones(n)[..n - 1] == Ones(n - 1);
      OnesTotal(n - 1);
    }
  }

  lemma {:induction false} OnesSlot(n: nat, slot: nat)
    requires slot < n
    ensures Total(Ones(n)) == n && SlotIndex(Ones(n), slot) == slot
  {
    OnesTotal(n);
    OnesTotal(slot);
    OnesTotal(slot + 1);
    assert Ones(n)[..slot] == Ones(slot) && Ones(n)[..slot + 1] == Ones(slot + 1);
    SlotUnique(Ones(n), slot, slot);
  }

  lemma {:induction false} WeightsTotal(c: seq<Candidate>)
    requires |c| > 0 && forall x :: x in c ==> x.score >= 1
    ensures Total(Weights(c)) > 0 && (EqualScores(c) ==> Total(Weights(c)) == |c|)
  {
    OnesTotal(|c|);
    assert c[|c| - 1] in c;
  }

  lemma {:induction false} ChosenByWeight(c: seq<Candidate>, rr: nat)
    requires |c| > 0 && (forall x :: x in c ==> x.score >= 1) && Total(Weights(c)) > 0
    ensures Chosen(c, rr, ByTurn) == SlotIndex(Weights(c), Next(rr) % Total(Weights(c)))
  {
    if EqualScores(c) {
      WeightsTotal(c);
      OnesSlot(|c|, Next(rr) % |c|);
    }
  }

  /** By turns, one call of a fixed list. */
  lemma {:induction false} ServesOne(p: Pool, rr: nat, turn: nat, rows: seq<Row>, opts: Options, own: Policy, now: int,
                                     keys: Keys, c: seq<Candidate>)
    requires c == PickList(p, turn, rows, opts, own, now) && |c| > 0 && AllOpen(c, keys.open)
    requires ModeOf(opts, own, Probing(p, turn, rows, opts, now), keys) == ByTurn && Total(Weights(c)) > 0
    ensures var a := Acquire(p, rr, turn, Some(rows), opts, own, now, keys);
            && a.rr == Next(rr) && a.turn == Next(turn) && a.result.Success?
            && a.result.value.id == Ids(c)[SlotIndex(Weights(c), Next(rr) % Total(Weights(c)))]
  {
    hide PickList, Probing, ModeOf, Chosen, Examined, Weights, SlotIndex;
    var i := Chosen(c, rr, ByTurn);
    assert c[i] in c;
    PickFromStep(c, rr, ByTurn, keys.open);
    ChosenByWeight(c, rr);
  }

  /** Nothing to probe, and no session to stick to: each call picks from the same list. */
  predicate PlainTurns(p: Pool, rows: seq<Row>, opts: Options, own: Policy, now: int, keys: Keys) {
    && Probes(p, OfProvider(rows, Resolved(opts.provider)), opts, now) == []
    && (PolicyOf(opts, own) == Sticky ==> TrimSpace(opts.affinity) == "")
  }

  lemma {:induction false} SameList(p: Pool, t1: nat, t2: nat, rows: seq<Row>, opts: Options, own: Policy, now: int,
                                    keys: Keys)
    requires PlainTurns(p, rows, opts, own, now, keys)
    ensures PickList(p, t1, rows, opts, own, now) == PickList(p, t2, rows, opts, own, now)
    ensures ModeOf(opts, own, Probing(p, t1, rows, opts, now), keys) == ByTurn
  {
    hide Actives, Probes, WithinCap, OfProvider;
  }

  lemma {:induction false} NextUp(rr: nat)
    requires rr + 1 < WRAP
    ensures Next(rr) == rr + 1
  {
  }

  lemma {:induction false} ServedFirst(p: Pool, rr: nat, turn: nat, rows: seq<Row>, opts: Options, own: Policy,
                                        now: int, keys: Keys, n: nat, c: seq<Candidate>)
    requires PlainTurns(p, rows, opts, own, now, keys) && c == PickList(p, turn, rows, opts, own, now)
    requires |c| > 0 && AllOpen(c, keys.open) && Total(Weights(c)) > 0 && rr + n < WRAP && n > 0
    ensures Served(p, rr, turn, rows, opts, own, now, keys, n) ==
            Picks(Ids(c), Weights(c), rr + 1, 1)
              + Served(p, rr + 1, Next(turn), rows, opts, own, now, keys, n - 1)
  {
    hide Acquire, PickList, PlainTurns, ModeOf, Probing, Weights, SlotIndex, AllOpen, Total, Next, Ids;
    SameList(p, turn, turn, rows, opts, own, now, keys);
    ServesOne(p, rr, turn, rows, opts, own, now, keys, c);
    NextUp(rr);
  }

  lemma {:induction false} ServedArePicks(p: Pool, rr: nat, turn: nat, rows: seq<Row>, opts: Options, own: Policy,
                                          now: int, keys: Keys, n: nat, c: seq<Candidate>)
    requires PlainTurns(p, rows, opts, own, now, keys) && c == PickList(p, turn, rows, opts, own, now)
    requires |c| > 0 && AllOpen(c, keys.open) && Total(Weights(c)) > 0 && rr + n < WRAP
    ensures Served(p, rr, turn, rows, opts, own, now, keys, n) == Picks(Ids(c), Weights(c), rr + 1, n)
    decreases n
  {
    if n > 0 {
      hide PickList, PlainTurns, Served, Picks, Weights, AllOpen, Total, Next, Ids;
      PicksFirst(Ids(c), Weights(c), rr + 1, n);
      ServedFirst(p, rr, turn, rows, opts, own, now, keys, n, c);
      SameList(p, turn, Next(turn), rows, opts, own, now, keys);
      ServedArePicks(p, rr + 1, Next(turn), rows, opts, own, now, keys, n - 1, c);
    }
  }

  /** Exact fairness of selection: while the pool stays as it is, nothing is to be probed and
      every key on the list opens, any W consecutive calls, W the total weight, select each
      key exactly as often as its weight; and with equal weights any so many calls as there
      are keys select each once. */
  lemma {:induction false} FairTurns(p: Pool, rr: nat, turn: nat, rows: seq<Row>, opts: Options, own: Policy, now: int,
                                     keys: Keys, c: seq<Candidate>, k: nat)
    requires PlainTurns(p, rows, opts, own, now, keys) && c == PickList(p, turn, rows, opts, own, now)
    requires k < |c| && AllOpen(c, keys.open) && rr + Total(Weights(c)) < WRAP
    requires forall i, j :: 0 <= i < j < |c| ==> c[i].row.id != c[j].row.id
    ensures (exists j :: 0 <= j < |c| && c[j].score != c[0].score) ==>
              Count(Served(p, rr, turn, rows, opts, own, now, keys, Total(Scores(c))), c[k].row.id) == c[k].score
    ensures (forall j :: 0 <= j < |c| ==> c[j].score == c[0].score) ==>
              Count(Served(p, rr, turn, rows, opts, own, now, keys, |c|), c[k].row.id) == 1
  {
    hide PlainTurns, PickList, SlotIndex, Served, Picks;
    ListScored(p, turn, rows, opts, own, now);
    WeightsTotal(c);
    var w := Total(Weights(c));
    ServedArePicks(p, rr, turn, rows, opts, own, now, keys, w, c);
    PicksFair(Ids(c), Weights(c), rr + 1, k);
  }

  lemma {:induction false} ListScored(p: Pool, turn: nat, rows: seq<Row>, opts: Options, own: Policy, now: int)
    ensures forall x :: x in PickList(p, turn, rows, opts, own, now) ==> x.score >= 1
  {
    hide PickList;
  }

  // ----- Conversations that stick -----

  /** By the sticky policy a conversation gets, whatever the weights and counters are, the key
      its hash ranks highest of all active keys, outside probe turns. */
  lemma {:induction false} StickyKeepsKey(p: Pool, rr: nat, turn: nat, rows: seq<Row>, opts: Options, own: Policy,
                                          now: int, keys: Keys)
    requires opts.policy == Some(Sticky) || (opts.policy == None && own == Sticky)
    requires TrimSpace(opts.affinity) != "" && !Probing(p, turn, rows, opts, now)
    requires AllOpen(Actives(p, OfProvider(rows, Resolved(opts.provider)), opts, now), keys.open)
    ensures var actives := Actives(p, OfProvider(rows, Resolved(opts.provider)), opts, now);
            var a := Acquire(p, rr, turn, Some(rows), opts, own, now, keys);
            actives != [] ==>
              && a.rr == rr && a.result.Success?
              && (forall c :: c in actives ==>
                    keys.rank(opts.affinity)(c.row.id) <= keys.rank(opts.affinity)(a.result.value.id))
              && exists c :: c in actives && c.row.id == a.result.value.id
  {
    hide Actives, Probes, Probing, OfProvider, Examined, BestIndex, Scores, EqualScores, SlotIndex;
    var actives := Actives(p, OfProvider(rows, Resolved(opts.provider)), opts, now);
    CandidatesScored(p, OfProvider(rows, Resolved(opts.provider)), opts, now);
    NoProbeList(p, turn, rows, opts, own, now);
    if actives != [] {
      var mode := ModeOf(opts, own, Probing(p, turn, rows, opts, now), keys);
      PickFromStep(actives, rr, mode, keys.open);
      var i := Chosen(actives, rr, mode);
      assert actives[i] in actives;
    }
  }

  lemma {:induction false} NoProbeList(p: Pool, turn: nat, rows: seq<Row>, opts: Options, own: Policy, now: int)
    requires PolicyOf(opts, own) == Sticky && !Probing(p, turn, rows, opts, now)
    ensures PickList(p, turn, rows, opts, own, now) == Actives(p, OfProvider(rows, Resolved(opts.provider)), opts, now)
  {
    hide Actives, Probes, OfProvider, WithinCap;
  }
}
