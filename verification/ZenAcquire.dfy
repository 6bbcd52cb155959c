/** Choosing a key: who is eligible, how the list is narrowed, and the weighted pick. */
module ZenAcquire {
  import opened Wrappers
  import opened ZenScoring
  import opened ZenPool
  import opened Skipping
  import opened WeightedPick

  datatype Row = Row(id: KeyId, enabled: bool, provider: Provider, ciphertext: string)

  datatype Policy = Spread | Sticky

  /** `policy` None means the service's own. */
  datatype Options = Options(provider: Provider, excluded: seq<KeyId>, affinity: string, policy: Option<Policy>,
                             forAttempt: bool)

  datatype Selected = Selected(id: KeyId, secret: string, probing: bool, provider: Provider)

  datatype AcquireError = ListFailed | NoHealthyKey

  datatype Candidate = Candidate(row: Row, score: nat)

  const PROBE_EVERY := 20
  const LOAD_REF_REQUESTS: real := 30.0
  const LOAD_REF_INFLIGHT: real := 4.0
  const MAX_LOAD_PENALTY: real := 15.0
  // ----- Load -----

  function DropStale(requests: seq<int>, now: int): seq<int> {
    if |requests| > 0 && requests[0] < now - LOAD_WINDOW then DropStale(requests[1..], now) else requests
  }

  lemma {:induction false} DropTwice(requests: seq<int>, now: int)
    ensures DropStale(DropStale(requests, now), now) == DropStale(requests, now)
  {
    if |requests| > 0 && requests[0] < now - LOAD_WINDOW { DropTwice(requests[1..], now); }
  }

  function Fresh(r: Runtime, now: int): Runtime { r.(requests := DropStale(r.requests, now)) }

  /** Looking at a key's load drops its stale request times in place. */
  function Trim(p: Pool, id: KeyId, now: int): Pool {
    if id in p.runtime then p.(runtime := p.runtime[id := Fresh(p.runtime[id], now)]) else p
  }

  function Requests(p: Pool, id: KeyId, now: int): nat {
    |DropStale(RuntimeOf(p, id).requests, now)|
  }

  /** Rounding half away from zero. */
  function Rounded(x: real): int {
    if x >= 0.0 then (x + 0.5).Floor else -(0.5 - x).Floor
  }

  function LoadPenalty(requests: nat, inflight: nat): real {
    -AtMost(8.0 * (requests as real / LOAD_REF_REQUESTS + inflight as real / LOAD_REF_INFLIGHT), MAX_LOAD_PENALTY)
  }

  function SelectionScore(health: real, requests: nat, inflight: nat): (score: nat)
    ensures score >= 1
  {
    var score := Rounded((if health < 0.0 then 0.0 else health) + LoadPenalty(requests, inflight));
    if score < 1 then 1 else score
  }

  // ----- Eligibility -----

  predicate Benched(p: Pool, id: KeyId, now: int) { id in p.benched && now < p.benched[id] }

  /** A cooldown that does not parse keeps its key out. */
  predicate Cooling(p: Pool, id: KeyId, now: int) {
    id in p.cooldowns && (p.cooldowns[id].Unreadable? || now < p.cooldowns[id].at)
  }

  predicate Eligible(p: Pool, row: Row, opts: Options, now: int) {
    row.enabled && row.id !in opts.excluded && !Benched(p, row.id, now) && !Cooling(p, row.id, now)
  }

  function HealthNow(p: Pool, id: KeyId, now: int): Health { Decayed(Effective(p, id), now) }

  function CandidateOf(p: Pool, row: Row, now: int): Candidate {
    Candidate(row, SelectionScore(HealthNow(p, row.id, now).score, Requests(p, row.id, now),
                                  RuntimeOf(p, row.id).inflight))
  }

  predicate IsActive(p: Pool, row: Row, opts: Options, now: int) {
    Eligible(p, row, opts, now) && HealthNow(p, row.id, now).reason == NoClass
  }

  /** A rested key must prove one real attempt, one at a time. */
  predicate IsProbe(p: Pool, row: Row, opts: Options, now: int) {
    Eligible(p, row, opts, now) && HealthNow(p, row.id, now).reason != NoClass && opts.forAttempt
      && !RuntimeOf(p, row.id).probing
  }

  function Actives(p: Pool, rows: seq<Row>, opts: Options, now: int): seq<Candidate> {
    if |rows| == 0 then []
    else
      var last := rows[|rows| - 1];
      Actives(p, rows[..|rows| - 1], opts, now)
        + if IsActive(p, last, opts, now) then [CandidateOf(p, last, now)] else []
  }

  function Probes(p: Pool, rows: seq<Row>, opts: Options, now: int): seq<Candidate> {
    if |rows| == 0 then []
    else
      var last := rows[|rows| - 1];
      Probes(p, rows[..|rows| - 1], opts, now) + if IsProbe(p, last, opts, now) then [CandidateOf(p, last, now)] else []
  }

  /** The rows of one provider pool. */
  function OfProvider(rows: seq<Row>, provider: Provider): seq<Row> {
    if |rows| == 0 then []
    else
      var last := rows[|rows| - 1];
      OfProvider(rows[..|rows| - 1], provider) + if last.provider == provider then [last] else []
  }

  /** The load of every eligible key is looked at. */
  function Examined(p: Pool, rows: seq<Row>, opts: Options, now: int): Pool {
    if |rows| == 0 then p
    else
      var before, last := Examined(p, rows[..|rows| - 1], opts, now), rows[|rows| - 1];
      if Eligible(p, last, opts, now) then Trim(before, last.id, now) else before
  }

  /** Expired benches are forgotten. */
  function Purged(p: Pool, now: int): Pool {
    p.(benched := map id | id in p.benched && now < p.benched[id] :: p.benched[id])
  }

  // ----- Narrowing -----

  function TotalRequests(p: Pool, cands: seq<Candidate>, now: int): nat {
    if |cands| == 0 then 0
    else TotalRequests(p, cands[..|cands| - 1], now) + Requests(p, cands[|cands| - 1].row.id, now)
  }

  /** One more request would give this key more than 70 percent of the window. */
  predicate OverCap(p: Pool, cands: seq<Candidate>, id: KeyId, now: int) {
    var total := TotalRequests(p, cands, now);
    |cands| > 1 && total >= 10 && 10 * (Requests(p, id, now) + 1) > 7 * (total + 1)
  }

  /** The candidates of `some` that stay within their share of `all`. */
  function WithinCap(p: Pool, all: seq<Candidate>, some: seq<Candidate>, now: int): seq<Candidate> {
    if |some| == 0 then []
    else
      var last := some[|some| - 1];
      WithinCap(p, all, some[..|some| - 1], now) + if OverCap(p, all, last.row.id, now) then [] else [last]
  }

  predicate ProbeTurn(actives: seq<Candidate>, probes: seq<Candidate>, turn: nat) {
    |probes| > 0 && (|actives| == 0 || turn % PROBE_EVERY == 0)
  }

  /** The list the pick works on. */
  function Narrowed(p: Pool, actives: seq<Candidate>, probes: seq<Candidate>, turn: nat, policy: Policy,
                    now: int): seq<Candidate> {
    if ProbeTurn(actives, probes, turn) then probes
    else if |actives| > 1 && policy != Sticky then
      var capped := WithinCap(p, actives, actives, now);
      if |capped| > 0 then capped else actives
    else actives
  }

  // ----- The pick -----

  function Scores(usable: seq<Candidate>): (r: seq<nat>)
    ensures |r| == |usable|
  {
    seq(|usable|, i requires 0 <= i < |usable| => usable[i].score)
  }

  predicate EqualScores(usable: seq<Candidate>) {
    forall i :: 0 < i < |usable| ==> usable[i].score == usable[0].score
  }

  /** The first candidate of highest rank. */
  function BestIndex(usable: seq<Candidate>, rank: KeyId -> real): (i: nat)
    requires |usable| > 0
    ensures i < |usable|
    ensures forall j :: 0 <= j < |usable| ==> rank(usable[j].row.id) <= rank(usable[i].row.id)
    ensures forall j :: 0 <= j < i ==> rank(usable[j].row.id) < rank(usable[i].row.id)
  {
    if |usable| == 1 then 0
    else
      var n := |usable| - 1;
      var i := BestIndex(usable[..n], rank);
      assert forall j :: 0 <= j < n ==> usable[..n][j] == usable[j];
      if rank(usable[n].row.id) > rank(usable[i].row.id) then n else i
  }

  /** By conversation affinity: the rank is a hash of the conversation and the key. */
  datatype Mode = ByTurn | ByRank(rank: KeyId -> real)

  function Chosen(usable: seq<Candidate>, rr: nat, mode: Mode): (i: nat)
    requires |usable| > 0 && forall c :: c in usable ==> c.score >= 1
    ensures i < |usable|
  {
    if mode.ByRank? then BestIndex(usable, mode.rank)
    else if EqualScores(usable) then Next(rr) % |usable|
    else
      assert Total(Scores(usable)) >= usable[|usable| - 1].score;
      SlotIndex(Scores(usable), Next(rr) % Total(Scores(usable)))
  }

  function IdOf(c: Candidate): KeyId { c.row.id }

  /** Pick, open, and on a bad ciphertext pick again among the others. */
  function PickFrom(usable: seq<Candidate>, rr: nat, mode: Mode,
                    open: string -> Option<string>): (r: (nat, Option<Candidate>))
    requires forall c :: c in usable ==> c.score >= 1
    ensures r.1.Some? ==> r.1.value in usable && open(r.1.value.row.ciphertext).Some?
    decreases |usable|
  {
    if |usable| == 0 then (rr, None)
    else
      var i := Chosen(usable, rr, mode);
      var next := if mode.ByRank? then rr else Next(rr);
      if open(usable[i].row.ciphertext).Some? then (next, Some(usable[i]))
      else PickFrom(Without(usable, i), next, mode, open)
  }

  lemma {:induction false} PickFromStep(usable: seq<Candidate>, rr: nat, mode: Mode, open: string -> Option<string>)
    requires |usable| > 0 && forall c :: c in usable ==> c.score >= 1
    ensures var i := Chosen(usable, rr, mode);
            var next := if mode.ByRank? then rr else Next(rr);
            PickFrom(usable, rr, mode, open) ==
            if open(usable[i].row.ciphertext).Some? then (next, Some(usable[i]))
            else PickFrom(Without(usable, i), next, mode, open)
  {
  }

  lemma {:induction false} PickFromNothing(rr: nat, mode: Mode, open: string -> Option<string>)
    ensures PickFrom([], rr, mode, open) == (rr, None)
  {
  }

  // ----- AcquireFor -----

  /** The outcome of one call, with the state it leaves. */
  datatype Acquisition = Acquisition(pool: Pool, rr: nat, turn: nat, result: Result<Selected, AcquireError>)

  /** The box and the affinity hash, both unknown functions. */
  datatype Keys = Keys(open: string -> Option<string>, rank: string -> KeyId -> real)

  function PolicyOf(opts: Options, own: Policy): Policy { if opts.policy == None then own else opts.policy.value }

  function ModeOf(opts: Options, own: Policy, probing: bool, keys: Keys): Mode {
    if PolicyOf(opts, own) == Sticky && TrimSpace(opts.affinity) != "" && !probing then ByRank(keys.rank(opts.affinity))
    else ByTurn
  }

  lemma {:induction false} CandidatesScored(p: Pool, rows: seq<Row>, opts: Options, now: int)
    ensures forall c :: c in Actives(p, rows, opts, now) ==> c.score >= 1
    ensures forall c :: c in Probes(p, rows, opts, now) ==> c.score >= 1
  {
    if |rows| > 0 { CandidatesScored(p, rows[..|rows| - 1], opts, now); }
  }

  lemma {:induction false} WithinCapMembers(p: Pool, all: seq<Candidate>, some: seq<Candidate>, now: int)
    ensures forall c :: c in WithinCap(p, all, some, now) <==> c in some && !OverCap(p, all, c.row.id, now)
  {
    if |some| > 0 {
      WithinCapMembers(p, all, some[..|some| - 1], now);
      assert some == some[..|some| - 1] + [some[|some| - 1]];
    }
  }

  /** The list a call picks from: rows of its provider, narrowed. */
  function PickList(p: Pool, turn: nat, rows: seq<Row>, opts: Options, own: Policy, now: int): (r: seq<Candidate>)
    ensures forall c :: c in r ==> c.score >= 1
  {
    var mine := OfProvider(rows, Resolved(opts.provider));
    var actives, probes := Actives(p, mine, opts, now), Probes(p, mine, opts, now);
    CandidatesScored(p, mine, opts, now);
    WithinCapMembers(p, actives, actives, now);
    Narrowed(p, actives, probes, Next(turn), PolicyOf(opts, own), now)
  }

  predicate Probing(p: Pool, turn: nat, rows: seq<Row>, opts: Options, now: int) {
    var mine := OfProvider(rows, Resolved(opts.provider));
    ProbeTurn(Actives(p, mine, opts, now), Probes(p, mine, opts, now), Next(turn))
  }

  /** AcquireFor; `rows` is None when the store cannot list. */
  function Acquire(p: Pool, rr: nat, turn: nat, rows: Option<seq<Row>>, opts: Options, own: Policy, now: int,
                   keys: Keys): Acquisition {
    if rows == None then Acquisition(p, rr, turn, Failure(ListFailed))
    else
      var q := Examined(Purged(p, now), OfProvider(rows.value, Resolved(opts.provider)), opts, now);
      var list := PickList(p, turn, rows.value, opts, own, now);
      if |list| == 0 then Acquisition(q, rr, turn, Failure(NoHealthyKey))
      else
        var probing := Probing(p, turn, rows.value, opts, now);
        var (next, choice) := PickFrom(list, rr, ModeOf(opts, own, probing, keys), keys.open);
        Acquisition(q, next, Next(turn),
          if choice == None then Failure(NoHealthyKey)
          else Success(Selected(choice.value.row.id, keys.open(choice.value.row.ciphertext).value, probing,
                                Resolved(opts.provider))))
  }
}
