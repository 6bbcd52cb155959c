/** Weighted round-robin: a counter, taken modulo the total weight, picks the entry
    whose cumulative weight first passes it. */
module WeightedPick {
  import opened Wrappers

  /** The counters are 64 bits wide. */
  const WRAP := 0x1_0000_0000_0000_0000

  function Next(counter: nat): nat {
    if counter + 1 >= WRAP then 0 else counter + 1
  }

  function Total(weights: seq<nat>): nat {
    if |weights| == 0 then 0 else Total(weights[..|weights| - 1]) + weights[|weights| - 1]
  }

  /** The first entry whose cumulative weight passes the slot. */
  function SlotIndex(weights: seq<nat>, slot: nat): (i: nat)
    requires slot < Total(weights)
    ensures i < |weights| && Total(weights[..i]) <= slot < Total(weights[..i + 1])
  {
    var n := |weights| - 1;
    if slot < Total(weights[..n]) then
      var i := SlotIndex(weights[..n], slot);
      assert weights[..n][..i] == weights[..i] && weights[..n][..i + 1] == weights[..i + 1];
      i
    else
      assert weights[..n + 1] == weights;
      n
  }

  method AtSlot(weights: seq<nat>, slot: nat) returns (i: nat)
    requires slot < Total(weights)
    ensures i < |weights| && i == SlotIndex(weights, slot)
  {
    assert weights[..|weights|] == weights;
    var cumulative := 0;
    i := 0;
    while slot >= cumulative + weights[i]
      invariant i < |weights| && cumulative == Total(weights[..i]) <= slot
      decreases |weights| - i
    {
      assert weights[..i + 1][..i] == weights[..i];
      cumulative := cumulative + weights[i];
      i := i + 1;
    }
    assert weights[..i + 1][..i] == weights[..i];
    SlotUnique(weights, slot, i);
  }

  lemma {:induction false} TotalGrows(weights: seq<nat>, i: nat, j: nat)
    requires i <= j <= |weights|
    ensures Total(weights[..i]) <= Total(weights[..j])
  {
    if i < j {
      assert weights[..j][..j - 1] == weights[..j - 1];
      TotalGrows(weights, i, j - 1);
    }
  }

  /** Only one index covers the slot. */
  lemma {:induction false} SlotUnique(weights: seq<nat>, slot: nat, i: nat)
    requires i < |weights| && slot < Total(weights)
    requires Total(weights[..i]) <= slot < Total(weights[..i + 1])
    ensures i == SlotIndex(weights, slot)
  {
    var k := SlotIndex(weights, slot);
    if k < i { TotalGrows(weights, k + 1, i); }
    if i < k { TotalGrows(weights, i + 1, k); }
  }

  // ----- Fairness -----

  /** How often entry i is picked by the n counters from `from` on. */
  function Hits(weights: seq<nat>, from: nat, n: nat, i: nat): nat
    requires Total(weights) > 0
  {
    if n == 0 then 0
    else Hits(weights, from, n - 1, i) + if SlotIndex(weights, (from + n - 1) % Total(weights)) == i then 1 else 0
  }

  lemma {:induction false} HitsFirst(weights: seq<nat>, from: nat, n: nat, i: nat)
    requires Total(weights) > 0 && n > 0
    ensures Hits(weights, from, n, i) ==
            (if SlotIndex(weights, from % Total(weights)) == i then 1 else 0) + Hits(weights, from + 1, n - 1, i)
  {
    if n > 1 { HitsFirst(weights, from, n - 1, i); }
  }

  /** A whole round counts the same wherever it starts. */
  lemma {:induction false} RoundShifts(weights: seq<nat>, from: nat, i: nat)
    requires Total(weights) > 0
    ensures Hits(weights, from, Total(weights), i) == Hits(weights, 0, Total(weights), i)
  {
    if from > 0 {
      RoundShifts(weights, from - 1, i);
      RoundShiftsByOne(weights, from - 1, i, Total(weights));
    }
  }

  lemma {:induction false} RoundShiftsByOne(weights: seq<nat>, from: nat, i: nat, w: nat)
    requires w == Total(weights) > 0
    ensures Hits(weights, from + 1, w, i) == Hits(weights, from, w, i)
  {
    HitsFirst(weights, from, w, i);
    var last := (from + 1) + w - 1;
    assert last == from + w;
    WholeTurn(from, w);
  }

  lemma {:induction false} WholeTurn(a: nat, w: nat)
    requires w > 0
    ensures (a + w) % w == a % w
  {
    var q, r := a / w, a % w;
    assert q * w + r == a;
    assert (q + 1) * w == q * w + w;
    SameRemainder(a + w, q + 1, r, w);
  }

  lemma {:induction false} SameRemainder(x: nat, q: nat, r: nat, w: nat)
    requires w > 0 && r < w && x == q * w + r
    ensures x % w == r
  {
    var p, s := x / w, x % w;
    assert p * w + s == x;
    assert (p - q) * w == r - s;
    NoMultiple(p - q, w);
  }

  /** No multiple of w but 0 lies strictly between -w and w. */
  lemma {:induction false} NoMultiple(d: int, w: int)
    requires -w < d * w < w
    ensures d == 0
  {
    var e := -d;
    assert e * w == -(d * w);
    if d >= 1 { NotLess(d, w); }
    if e >= 1 { NotLess(e, w); }
  }

  lemma {:induction false} NotLess(d: nat, w: int)
    requires d >= 1 && w >= 0
    ensures d * w >= w
  {
    if d > 1 {
      NotLess(d - 1, w);
      assert d * w == (d - 1) * w + w;
    }
  }

  lemma {:induction false} Small(x: nat, w: nat)
    requires x < w
    ensures x % w == x
  {
  }

  /** Whether a slot falls into the stretch of entry i. */
  lemma {:induction false} SlotIff(weights: seq<nat>, slot: nat, i: nat)
    requires slot < Total(weights) && i < |weights|
    ensures SlotIndex(weights, slot) == i <==> Total(weights[..i]) <= slot < Total(weights[..i + 1])
  {
    if Total(weights[..i]) <= slot < Total(weights[..i + 1]) { SlotUnique(weights, slot, i); }
  }

  /** The first n slots hit entry i as often as they overlap its stretch. */
  lemma {:induction false} FirstHits(weights: seq<nat>, n: nat, i: nat, lo: nat, hi: nat)
    requires 0 < Total(weights) && n <= Total(weights) && i < |weights|
    requires lo == Total(weights[..i]) && hi == Total(weights[..i + 1]) && lo <= hi
    ensures Hits(weights, 0, n, i) == Overlap(n, lo, hi)
  {
    hide Total, SlotIndex;
    if n > 0 {
      FirstHits(weights, n - 1, i, lo, hi);
      Small(n - 1, Total(weights));
      SlotIff(weights, n - 1, i);
      assert 0 + n - 1 == n - 1;
    }
  }

  function Overlap(n: nat, lo: nat, hi: nat): nat {
    if n <= lo then 0 else if n >= hi then (if hi >= lo then hi - lo else 0) else n - lo
  }

  /** Exact weighted fairness: any W consecutive counters, W the total weight, pick each
      entry exactly as often as its weight. */
  lemma {:induction false} ExactFairness(weights: seq<nat>, from: nat, i: nat)
    requires Total(weights) > 0 && i < |weights|
    ensures Hits(weights, from, Total(weights), i) == weights[i]
  {
    RoundShifts(weights, from, i);
    TotalGrows(weights, i, i + 1);
    TotalGrows(weights, i + 1, |weights|);
    FirstHits(weights, Total(weights), i, Total(weights[..i]), Total(weights[..i + 1]));
    assert weights[..|weights|] == weights && weights[..i + 1][..i] == weights[..i];
  }

  /** What n counters from `from` on pick. */
  function Picks<T>(ids: seq<T>, weights: seq<nat>, from: nat, n: nat): seq<Option<T>>
    requires |ids| == |weights| && Total(weights) > 0
    decreases n
  {
    if n == 0 then [] else [Some(ids[SlotIndex(weights, from % Total(weights))])] + Picks(ids, weights, from + 1, n - 1)
  }

  lemma {:induction false} PicksFirst<T>(ids: seq<T>, weights: seq<nat>, from: nat, n: nat)
    requires |ids| == |weights| && Total(weights) > 0 && n > 0
    ensures Picks(ids, weights, from, n) == Picks(ids, weights, from, 1) + Picks(ids, weights, from + 1, n - 1)
  {
    hide SlotIndex, Total;
  }

  ghost function Count<T>(picked: seq<Option<T>>, id: T): nat {
    if |picked| == 0 then 0 else (if picked[0] == Some(id) then 1 else 0) + Count(picked[1..], id)
  }

  lemma {:induction false} CountFirst<T>(first: T, rest: seq<Option<T>>, id: T)
    ensures Count([Some(first)] + rest, id) == (if first == id then 1 else 0) + Count(rest, id)
  {
    assert ([Some(first)] + rest)[1..] == rest;
  }

  lemma {:induction false} PicksCount<T>(ids: seq<T>, weights: seq<nat>, from: nat, n: nat, k: nat)
    requires |ids| == |weights| && Total(weights) > 0 && k < |ids|
    requires forall i, j :: 0 <= i < j < |ids| ==> ids[i] != ids[j]
    ensures Count(Picks(ids, weights, from, n), ids[k]) == Hits(weights, from, n, k)
    decreases n
  {
    hide SlotIndex, Total;
    if n > 0 {
      var s := SlotIndex(weights, from % Total(weights));
      PicksCount(ids, weights, from + 1, n - 1, k);
      HitsFirst(weights, from, n, k);
      CountFirst(ids[s], Picks(ids, weights, from + 1, n - 1), ids[k]);
      assert ids[s] == ids[k] <==> s == k;
    }
  }

  /** Of different entries, W consecutive counters pick each exactly as often as its weight. */
  lemma {:induction false} PicksFair<T>(ids: seq<T>, weights: seq<nat>, from: nat, k: nat)
    requires |ids| == |weights| && Total(weights) > 0 && k < |ids|
    requires forall i, j :: 0 <= i < j < |ids| ==> ids[i] != ids[j]
    ensures Count(Picks(ids, weights, from, Total(weights)), ids[k]) == weights[k]
  {
    PicksCount(ids, weights, from, Total(weights), k);
    ExactFairness(weights, from, k);
  }
}
