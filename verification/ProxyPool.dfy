/** The egress proxy pool: weighted round-robin over healthy proxies. */
module ProxyPool {
  import opened Wrappers
  import opened Skipping
  import opened WeightedPick

  type ProxyId = string

  const SECOND := 1_000_000_000
  const DEFAULT_COOLDOWN := 60 * SECOND
  const RATE_LIMIT_COOLDOWN := 120 * SECOND

  /** A stored cooldown column: none, a deadline, or text that does not parse. */
  datatype Cooldown = Ready | Until(at: int) | Unreadable

  datatype Proxy = Proxy(id: ProxyId, ciphertext: string, weight: int, enabled: bool, cooldown: Cooldown)

  datatype Selected = Selected(id: ProxyId, url: string)

  datatype AcquireError = ListFailed | NoHealthyProxy

  /** Decryption and URL parsing, both unknown partial functions. */
  datatype Box = Box(open: string -> Option<string>, parse: string -> Option<string>)

  function UrlOf(p: Proxy, box: Box): Option<string> {
    match box.open(p.ciphertext)
    case None => None
    case Some(raw) => box.parse(raw)
  }

  predicate Eligible(p: Proxy, excluded: ProxyId, now: int) {
    p.id != excluded && p.enabled && p.weight > 0
    && (p.cooldown.Ready? || (p.cooldown.Until? && p.cooldown.at <= now))
  }

  function Candidates(rows: seq<Proxy>, excluded: ProxyId, now: int): (r: seq<Proxy>)
    ensures Weighted(r)
  {
    if |rows| == 0 then []
    else
      var last := rows[|rows| - 1];
      Candidates(rows[..|rows| - 1], excluded, now) + if Eligible(last, excluded, now) then [last] else []
  }

  lemma {:induction false} CandidatesMembers(rows: seq<Proxy>, excluded: ProxyId, now: int)
    ensures forall p :: p in Candidates(rows, excluded, now) <==> p in rows && Eligible(p, excluded, now)
  {
    if |rows| > 0 {
      CandidatesMembers(rows[..|rows| - 1], excluded, now);
      assert rows == rows[..|rows| - 1] + [rows[|rows| - 1]];
    }
  }

  function Weights(usable: seq<Proxy>): (r: seq<nat>)
    ensures |r| == |usable|
  {
    seq(|usable|, i requires 0 <= i < |usable| => if usable[i].weight > 0 then usable[i].weight else 0)
  }

  predicate Weighted(usable: seq<Proxy>) {
    forall p :: p in usable ==> p.weight > 0
  }

  lemma {:induction false} TotalPositive(usable: seq<Proxy>)
    requires Weighted(usable) && |usable| > 0
    ensures Total(Weights(usable)) > 0
  {
    assert usable[|usable| - 1] in usable;
  }

  function Slot(usable: seq<Proxy>, rr: nat): (i: nat)
    requires Weighted(usable) && |usable| > 0
    ensures i < |usable|
  {
    TotalPositive(usable);
    SlotIndex(Weights(usable), Next(rr) % Total(Weights(usable)))
  }

  function IdOf(p: Proxy): ProxyId { p.id }

  /** Pick, open, and on a bad row pick again among the others. */
  function PickOpening(usable: seq<Proxy>, rr: nat, box: Box): (r: (nat, Option<Proxy>))
    requires Weighted(usable)
    decreases |usable|
  {
    if |usable| == 0 then (rr, None)
    else
      var i := Slot(usable, rr);
      WithoutMembers(usable, i);
      if UrlOf(usable[i], box).Some? then (Next(rr), Some(usable[i]))
      else PickOpening(Without(usable, i), Next(rr), box)
  }

  function Answer(choice: Option<Proxy>, box: Box): Result<Selected, AcquireError> {
    if choice == None || UrlOf(choice.value, box) == None then Failure(NoHealthyProxy)
    else Success(Selected(choice.value.id, UrlOf(choice.value, box).value))
  }

  /** AcquireExcluding: the counter it leaves, and its answer. */
  function Acquire(rows: seq<Proxy>, rr: nat, excluded: ProxyId, now: int, box: Box)
    : (nat, Result<Selected, AcquireError>)
  {
    var (next, choice) := PickOpening(Candidates(rows, excluded, now), rr, box);
    (next, Answer(choice, box))
  }

  lemma {:induction false} PickNothing(rr: nat, box: Box)
    ensures PickOpening([], rr, box) == (rr, None)
  {
  }

  lemma {:induction false} StillWeighted(candidates: seq<Proxy>, skipped: set<ProxyId>)
    requires Weighted(candidates)
    ensures Weighted(Unskipped(candidates, IdOf, skipped))
  {
  }

  lemma {:induction false} AnswerOpened(p: Proxy, box: Box)
    requires UrlOf(p, box).Some?
    ensures Answer(Some(p), box) == Success(Selected(p.id, UrlOf(p, box).value))
  {
  }

  lemma {:induction false} AnswerNothing(box: Box)
    ensures Answer(None, box) == Failure(NoHealthyProxy)
  {
  }

  lemma {:induction false} PickFirst(usable: seq<Proxy>, rr: nat, box: Box)
    requires Weighted(usable) && |usable| > 0 && UrlOf(usable[Slot(usable, rr)], box).Some?
    ensures PickOpening(usable, rr, box) == (Next(rr), Some(usable[Slot(usable, rr)]))
  {
  }

  lemma {:induction false} PickAgain(candidates: seq<Proxy>, skipped: set<ProxyId>, rr: nat, i: nat, box: Box)
    requires Weighted(candidates) && DistinctIds(candidates) && |Unskipped(candidates, IdOf, skipped)| > 0
    requires i == Slot(Unskipped(candidates, IdOf, skipped), rr)
    requires UrlOf(Unskipped(candidates, IdOf, skipped)[i], box) == None
    ensures var usable := Unskipped(candidates, IdOf, skipped);
            var rest := Unskipped(candidates, IdOf, skipped + {usable[i].id});
            && usable[i].id !in skipped && |rest| == |usable| - 1
            && PickOpening(usable, rr, box) == PickOpening(rest, Next(rr), box)
  {
    UnskippedWithout(candidates, IdOf, skipped, i);
  }

  // ----- What a selection promises -----

  lemma {:induction false} PickSound(usable: seq<Proxy>, rr: nat, box: Box)
    requires Weighted(usable)
    ensures var choice := PickOpening(usable, rr, box).1;
            && (choice.Some? ==> choice.value in usable && UrlOf(choice.value, box).Some?)
            && (choice == None <==> forall p :: p in usable ==> UrlOf(p, box) == None)
    decreases |usable|
  {
    if |usable| > 0 {
      var i := Slot(usable, rr);
      WithoutMembers(usable, i);
      if UrlOf(usable[i], box).None? { PickSound(Without(usable, i), Next(rr), box); }
    }
  }

  /** Another proxy than the excluded one, enabled, of positive weight, and without a cooldown
      that runs or does not parse. */
  predicate MayCarry(p: Proxy, excluded: ProxyId, now: int) {
    && p.id != excluded && p.enabled && p.weight >= 1
    && !p.cooldown.Unreadable? && (p.cooldown.Until? ==> p.cooldown.at <= now)
  }

  /** A selection fails exactly when no eligible proxy decrypts and parses, and otherwise
      gives an eligible one with its URL. */
  lemma {:induction false} NoHealthyProxyIff(rows: seq<Proxy>, rr: nat, excluded: ProxyId, now: int, box: Box)
    ensures var r := Acquire(rows, rr, excluded, now, box).1;
            && (r.Failure? <==> forall p :: p in rows && MayCarry(p, excluded, now) ==> UrlOf(p, box) == None)
            && (r.Success? ==> exists p :: p in rows && MayCarry(p, excluded, now) && p.id == r.value.id
                                 && UrlOf(p, box) == Some(r.value.url))
  {
    CandidatesMembers(rows, excluded, now);
    PickSound(Candidates(rows, excluded, now), rr, box);
  }

  // ----- Fairness -----

  predicate AllOpen(rows: seq<Proxy>, box: Box) {
    forall p :: p in rows ==> UrlOf(p, box).Some?
  }

  /** The proxies given by the next n selections. */
  function Served(rows: seq<Proxy>, rr: nat, excluded: ProxyId, now: int, box: Box, n: nat): seq<Option<ProxyId>>
    decreases n
  {
    if n == 0 then []
    else
      var (next, r) := Acquire(rows, rr, excluded, now, box);
      [if r.Success? then Some(r.value.id) else None] + Served(rows, next, excluded, now, box, n - 1)
  }

  predicate DistinctIds(rows: seq<Proxy>) { Distinct(rows, IdOf) }

  lemma {:induction false} ServesSlot(c: seq<Proxy>, rr: nat, box: Box)
    requires Weighted(c) && |c| > 0 && AllOpen(c, box)
    ensures PickOpening(c, rr, box) == (Next(rr), Some(c[Slot(c, rr)])) && UrlOf(c[Slot(c, rr)], box).Some?
  {
    assert c[Slot(c, rr)] in c;
  }

  function Ids(c: seq<Proxy>): (r: seq<ProxyId>)
    ensures |r| == |c|
  {
    seq(|c|, i requires 0 <= i < |c| => c[i].id)
  }

  lemma {:induction false} ServesSlotFrom(c: seq<Proxy>, rr: nat, from: nat, box: Box)
    requires Weighted(c) && |c| > 0 && AllOpen(c, box) && Total(Weights(c)) > 0 && from == rr + 1 < WRAP
    ensures PickOpening(c, rr, box).0 == from
    ensures Answer(PickOpening(c, rr, box).1, box).Success?
    ensures Answer(PickOpening(c, rr, box).1, box).value.id == c[SlotIndex(Weights(c), from % Total(Weights(c)))].id
  {
    ServesSlot(c, rr, box);
    assert Next(rr) == from;
  }

  lemma {:induction false} ServedAreSlots(rows: seq<Proxy>, rr: nat, from: nat, excluded: ProxyId, now: int, box: Box,
                                          n: nat, c: seq<Proxy>)
    requires c == Candidates(rows, excluded, now) && |c| > 0 && AllOpen(c, box) && Total(Weights(c)) > 0
    requires from == rr + 1 && rr + n < WRAP
    ensures Served(rows, rr, excluded, now, box, n) == Picks(Ids(c), Weights(c), from, n)
    decreases n
  {
    if n > 0 {
      ServesSlotFrom(c, rr, from, box);
      ServedAreSlots(rows, from, from + 1, excluded, now, box, n - 1, c);
    }
  }

  /** Exact weighted fairness: while the eligible list stays the same and every entry
      opens, any W consecutive selections, W the total weight, serve each proxy exactly
      as often as its weight, from any counter that does not wrap meanwhile. */
  lemma {:induction false} FairRounds(rows: seq<Proxy>, rr: nat, excluded: ProxyId, now: int, box: Box, c: seq<Proxy>,
                                      k: nat)
    requires c == Candidates(rows, excluded, now) && k < |c| && DistinctIds(c) && AllOpen(c, box)
             && rr + Total(Weights(c)) < WRAP
    ensures Count(Served(rows, rr, excluded, now, box, Total(Weights(c))), c[k].id) == c[k].weight
  {
    TotalPositive(c);
    ServedAreSlots(rows, rr, rr + 1, excluded, now, box, Total(Weights(c)), c);
    forall i, j | 0 <= i < j < |c| ensures Ids(c)[i] != Ids(c)[j] { assert IdOf(c[i]) != IdOf(c[j]); }
    PicksFair(Ids(c), Weights(c), rr + 1, k);
    assert c[k] in c;
  }

  // ----- The pool -----

  class Pool {
    /** Ordered by creation; ids are the primary key. */
    var rows: seq<Proxy>
    var rr: nat
    const box: Box

    constructor (rows: seq<Proxy>, box: Box)
      ensures this.rows == rows && rr == 0 && this.box == box
    {
      this.rows, rr, this.box := rows, 0, box;
    }

    /** `stores` tells whether the update reaches the table. */
    method MarkCooldown(id: ProxyId, duration: int, now: int, stores: bool)
      modifies `rows
      ensures var rest := if duration <= 0 then 60_000_000_000 else duration;
              && |rows| == |old(rows)|
              && forall i :: 0 <= i < |rows| ==>
                   rows[i] == if stores && old(rows)[i].id == id then old(rows)[i].(cooldown := Until(now + rest))
                              else old(rows)[i]
      ensures rows == if stores then Cooled(old(rows), id, now + if duration <= 0 then DEFAULT_COOLDOWN else duration)
                      else old(rows)
    {
      var d := if duration <= 0 then DEFAULT_COOLDOWN else duration;
      if stores {
        rows := Cooled(rows, id, now + d);
      }
    }

    method AcquireExcluding(excluded: ProxyId, now: int, lists: bool) returns (r: Result<Selected, AcquireError>)
      requires DistinctIds(rows)
      modifies `rr
      ensures !lists ==> r == Failure(ListFailed) && rr == old(rr)
      ensures lists ==> (rr, r) == Acquire(rows, old(rr), excluded, now, box)
    {
      if !lists {
        return Failure(ListFailed);
      }
      var candidates: seq<Proxy> := [];
      for i := 0 to |rows|
        invariant candidates == Candidates(rows[..i], excluded, now)
      {
        assert rows[..i + 1][..i] == rows[..i];
        if !(rows[i].id == excluded || !rows[i].enabled || rows[i].weight <= 0)
           && !rows[i].cooldown.Unreadable? && (rows[i].cooldown.Until? ==> now >= rows[i].cooldown.at) {
          candidates := candidates + [rows[i]];
        }
      }
      assert rows[..|rows|] == rows;
      if |candidates| == 0 {
        return Failure(NoHealthyProxy);
      }
      CandidatesDistinct(rows, excluded, now);
      r := PickAmong(candidates);
    }

    method PickAmong(candidates: seq<Proxy>) returns (r: Result<Selected, AcquireError>)
      requires DistinctIds(candidates) && Weighted(candidates)
      modifies `rr
      ensures rr == PickOpening(candidates, old(rr), box).0
      ensures r == Answer(PickOpening(candidates, old(rr), box).1, box)
    {
      hide PickOpening, Slot, DistinctIds, Weights, UrlOf, Answer, Weighted;
      var skipped: set<ProxyId> := {};
      UnskippedAll(candidates, IdOf);
      while |skipped| < |candidates|
        invariant |skipped| + |Unskipped(candidates, IdOf, skipped)| == |candidates|
        invariant Weighted(Unskipped(candidates, IdOf, skipped))
        invariant PickOpening(Unskipped(candidates, IdOf, skipped), rr, box) == PickOpening(candidates, old(rr), box)
        decreases |candidates| - |skipped|
      {
        var usable := Usable(candidates, IdOf, skipped);
        ghost var rr0 := rr;
        var i := Choose(usable);
        var url := Open(usable[i]);
        if url.Some? {
          PickFirst(usable, rr0, box);
          AnswerOpened(usable[i], box);
          return Success(Selected(usable[i].id, url.value));
        }
        PickAgain(candidates, skipped, rr0, i, box);
        skipped := skipped + {usable[i].id};
        StillWeighted(candidates, skipped);
      }
      PickNothing(rr, box);
      AnswerNothing(box);
      r := Failure(NoHealthyProxy);
    }

    method Choose(usable: seq<Proxy>) returns (i: nat)
      requires |usable| > 0 && Weighted(usable)
      modifies `rr
      ensures rr == Next(old(rr)) && i == Slot(usable, old(rr))
    {
      var totalWeight := 0;
      for k := 0 to |usable|
        invariant totalWeight == Total(Weights(usable)[..k])
      {
        assert usable[k] in usable && Weights(usable)[..k + 1][..k] == Weights(usable)[..k];
        totalWeight := totalWeight + usable[k].weight;
      }
      assert Weights(usable)[..|usable|] == Weights(usable);
      TotalPositive(usable);
      rr := Next(rr);
      i := AtSlot(Weights(usable), rr % totalWeight);
    }

    method Open(p: Proxy) returns (url: Option<string>)
      ensures url == UrlOf(p, box)
    {
      var raw := box.open(p.ciphertext);
      if raw.None? {
        return None;
      }
      url := box.parse(raw.value);
    }
  }

  function Cooled(rows: seq<Proxy>, id: ProxyId, until: int): (r: seq<Proxy>)
    ensures |r| == |rows|
  {
    seq(|rows|, i requires 0 <= i < |rows| => if rows[i].id == id then rows[i].(cooldown := Until(until)) else rows[i])
  }

  lemma {:induction false} CandidatesDistinct(rows: seq<Proxy>, excluded: ProxyId, now: int)
    requires DistinctIds(rows)
    ensures DistinctIds(Candidates(rows, excluded, now))
  {
    if |rows| > 0 {
      var front, last := rows[..|rows| - 1], rows[|rows| - 1];
      CandidatesDistinct(front, excluded, now);
      CandidatesMembers(front, excluded, now);
      forall i | 0 <= i < |Candidates(front, excluded, now)|
        ensures IdOf(Candidates(front, excluded, now)[i]) != IdOf(last)
      {
        assert Candidates(front, excluded, now)[i] in front;
      }
    }
  }
}
