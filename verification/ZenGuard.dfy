/** The storm guard: a sliding window of a provider's dial outcomes. */
module ZenGuard {
  import opened ZenScoring

  const GUARD_WINDOW := 60 * SECOND
  const GUARD_MIN_COUNT := 5

  datatype Sample = Sample(at: int, is5xx: bool)

  /** The samples without the stale ones at the front. */
  function Pruned(samples: seq<Sample>, now: int): seq<Sample> {
    if |samples| > 0 && samples[0].at < now - GUARD_WINDOW then Pruned(samples[1..], now) else samples
  }

  function Noted(samples: seq<Sample>, is5xx: bool, now: int): seq<Sample> {
    Pruned(samples, now) + [Sample(now, is5xx)]
  }

  function Fives(samples: seq<Sample>): nat {
    if |samples| == 0 then 0
    else Fives(samples[..|samples| - 1]) + if samples[|samples| - 1].is5xx then 1 else 0
  }

  /** At least five 5xx, and at least half of all outcomes. */
  predicate Storm(samples: seq<Sample>) {
    Fives(samples) >= GUARD_MIN_COUNT && 2 * Fives(samples) >= |samples|
  }

  method Prune(samples: seq<Sample>, now: int) returns (kept: seq<Sample>)
    ensures kept == Pruned(samples, now)
  {
    var cutoff := now - GUARD_WINDOW;
    var index := 0;
    while index < |samples| && samples[index].at < cutoff
      invariant 0 <= index <= |samples|
      invariant Pruned(samples[index..], now) == Pruned(samples, now)
    {
      assert samples[index..][1..] == samples[index + 1..];
      index := index + 1;
    }
    kept := if index > 0 then samples[index..] else samples;
  }

  method IsGuardActive(samples: seq<Sample>) returns (active: bool)
    ensures active == Storm(samples)
  {
    if |samples| == 0 {
      return false;
    }
    var fives := 0;
    for i := 0 to |samples|
      invariant fives == Fives(samples[..i])
    {
      assert samples[..i + 1][..i] == samples[..i];
      if samples[i].is5xx { fives := fives + 1; }
    }
    assert samples[..|samples|] == samples;
    if fives < GUARD_MIN_COUNT {
      return false;
    }
    active := fives as real / |samples| as real >= 0.5;
    Half(fives, |samples|);
  }

  lemma {:induction false} Half(a: nat, b: nat)
    requires b > 0
    ensures a as real / b as real >= 0.5 <==> 2 * a >= b
  {
    RatioOrder(a as real, b as real, 0.5);
  }

  // ----- The window against the full history -----

  datatype Event = Note(now: int, is5xx: bool) | Look(now: int)

  /** The samples kept after these events: a look prunes in place too. */
  function After(events: seq<Event>): seq<Sample> {
    if |events| == 0 then []
    else
      var before, e := After(events[..|events| - 1]), events[|events| - 1];
      if e.Note? then Noted(before, e.is5xx, e.now) else Pruned(before, e.now)
  }

  /** Every outcome ever noted. */
  function History(events: seq<Event>): seq<Sample> {
    if |events| == 0 then []
    else
      var before, e := History(events[..|events| - 1]), events[|events| - 1];
      if e.Note? then before + [Sample(e.now, e.is5xx)] else before
  }

  /** The outcomes of the last 60 seconds. */
  function Recent(history: seq<Sample>, now: int): seq<Sample> {
    if |history| == 0 then []
    else
      var last := history[|history| - 1];
      Recent(history[..|history| - 1], now) + if last.at < now - GUARD_WINDOW then [] else [last]
  }

  predicate Monotone(events: seq<Event>) {
    forall i, j :: 0 <= i < j < |events| ==> events[i].now <= events[j].now
  }

  predicate Sorted(samples: seq<Sample>) {
    forall i, j :: 0 <= i < j < |samples| ==> samples[i].at <= samples[j].at
  }

  /** On sorted samples, dropping the stale front is filtering. */
  lemma {:induction false} PrunedIsRecent(samples: seq<Sample>, now: int)
    requires Sorted(samples)
    ensures Pruned(samples, now) == Recent(samples, now)
  {
    if |samples| > 0 && samples[0].at < now - GUARD_WINDOW {
      PrunedIsRecent(samples[1..], now);
      RecentCons(samples, now);
    } else {
      RecentAll(samples, now);
    }
  }

  lemma {:induction false} RecentCons(samples: seq<Sample>, now: int)
    requires |samples| > 0
    ensures Recent(samples, now)
            == (if samples[0].at < now - GUARD_WINDOW then [] else [samples[0]]) + Recent(samples[1..], now)
  {
    if |samples| > 1 {
      var front := samples[..|samples| - 1];
      RecentCons(front, now);
      assert samples[1..][..|samples| - 2] == front[1..];
    } else {
      assert samples[..0] == [] && samples[1..] == [];
    }
  }

  lemma {:induction false} RecentAll(samples: seq<Sample>, now: int)
    requires forall i :: 0 <= i < |samples| ==> samples[i].at >= now - GUARD_WINDOW
    ensures Recent(samples, now) == samples
  {
    if |samples| > 0 {
      var front, last := samples[..|samples| - 1], samples[|samples| - 1];
      assert forall i :: 0 <= i < |front| ==> front[i] == samples[i];
      RecentAll(front, now);
      assert samples == front + [last] && last.at >= now - GUARD_WINDOW;
    }
  }

  lemma {:induction false} RecentMembers(samples: seq<Sample>, now: int)
    requires Sorted(samples)
    ensures Sorted(Recent(samples, now))
    ensures forall x :: x in Recent(samples, now) ==> x in samples
  {
    if |samples| > 0 {
      RecentMembers(samples[..|samples| - 1], now);
      var r := Recent(samples[..|samples| - 1], now);
      forall i | 0 <= i < |r| ensures r[i].at <= samples[|samples| - 1].at {
        assert r[i] in samples[..|samples| - 1];
      }
    }
  }

  /** A later look at recent samples is a later look at all of them. */
  lemma {:induction false} RecentOfRecent(samples: seq<Sample>, earlier: int, now: int)
    requires earlier <= now
    ensures Recent(Recent(samples, earlier), now) == Recent(samples, now)
  {
    if |samples| > 0 {
      var front, last := samples[..|samples| - 1], samples[|samples| - 1];
      RecentOfRecent(front, earlier, now);
      var r := Recent(front, earlier);
      assert (r + [last])[..|r|] == r;
      assert r + [] == r;
    }
  }

  lemma {:induction false} HistorySorted(events: seq<Event>)
    requires Monotone(events)
    ensures Sorted(History(events))
    ensures forall x :: x in History(events) ==> x.at <= events[|events| - 1].now && |events| > 0
  {
    if |events| > 0 { HistorySorted(events[..|events| - 1]); }
  }

  /** Under a monotone clock the kept samples are the recent ones of the full history. */
  lemma {:induction false} WindowIsRecent(events: seq<Event>)
    requires Monotone(events) && |events| > 0
    ensures After(events) == Recent(History(events), events[|events| - 1].now)
    decreases events, 0
  {
    var n := |events| - 1;
    var e, before := events[n], events[..n];
    HistorySorted(before);
    GuardSees(before, e.now);
    if e.Note? {
      assert History(events)[..|History(before)|] == History(before);
    }
  }

  /** Pruning at a later time shows exactly the recent history. */
  lemma {:induction false} GuardSees(events: seq<Event>, now: int)
    requires Monotone(events) && (|events| > 0 ==> events[|events| - 1].now <= now)
    ensures Pruned(After(events), now) == Recent(History(events), now)
    decreases events, 1
  {
    HistorySorted(events);
    if |events| > 0 {
      var last := events[|events| - 1].now;
      WindowIsRecent(events);
      RecentMembers(History(events), last);
      PrunedIsRecent(Recent(History(events), last), now);
      RecentOfRecent(History(events), last, now);
    }
  }

  /** The guard is active exactly when the full history of the last 60 seconds holds
      at least five 5xx outcomes making up at least half. */
  lemma {:induction false} GuardMeansStorm(events: seq<Event>, now: int)
    requires Monotone(events) && (|events| > 0 ==> events[|events| - 1].now <= now)
    ensures Storm(Pruned(After(events), now)) <==>
            var recent := Recent(History(events), now);
            Fives(recent) >= GUARD_MIN_COUNT && 2 * Fives(recent) >= |recent|
  {
    GuardSees(events, now);
  }
}
