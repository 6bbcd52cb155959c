/** The login limiter: at most five failed attempts of a source in fifteen minutes. */
module LoginLimiter {
  const LIMIT := 5
  const WINDOW := 15 * 60 * 1_000_000_000

  type Attempts = map<string, seq<int>>

  /** The stamps without those at the front that have left the window. */
  function Pruned(stamps: seq<int>, now: int): seq<int> {
    if |stamps| > 0 && stamps[0] <= now - WINDOW then Pruned(stamps[1..], now) else stamps
  }

  function StampsOf(a: Attempts, source: string): seq<int> { if source in a then a[source] else [] }

  /** A source without stamps has no entry. */
  function Stored(a: Attempts, source: string, stamps: seq<int>): Attempts {
    if stamps == [] then a - {source} else a[source := stamps]
  }

  function PrunedAt(a: Attempts, source: string, now: int): Attempts {
    Stored(a, source, Pruned(StampsOf(a, source), now))
  }

  predicate Blocked(a: Attempts, source: string, now: int) {
    |Pruned(StampsOf(a, source), now)| >= LIMIT
  }

  function Reserved(a: Attempts, source: string, now: int): Attempts {
    var stamps := Pruned(StampsOf(a, source), now);
    if |stamps| >= LIMIT then PrunedAt(a, source, now) else a[source := stamps + [now]]
  }

  class Limiter {
    var attempts: Attempts

    constructor ()
      ensures attempts == map[]
    {
      attempts := map[];
    }

    method Prune(source: string, now: int)
      modifies this
      ensures attempts == PrunedAt(old(attempts), source, now)
      ensures StampsOf(attempts, source) == Pruned(StampsOf(old(attempts), source), now)
    {
      var stamps := if source in attempts then attempts[source] else [];
      var cutoff := now - WINDOW;
      var firstValid := 0;
      while firstValid < |stamps| && stamps[firstValid] <= cutoff
        invariant firstValid <= |stamps|
        invariant Pruned(stamps[firstValid..], now) == Pruned(stamps, now)
      {
        assert stamps[firstValid..][1..] == stamps[firstValid + 1..];
        firstValid := firstValid + 1;
      }
      if firstValid == |stamps| {
        attempts := attempts - {source};
        return;
      }
      attempts := attempts[source := stamps[firstValid..]];
    }

    method IsBlocked(source: string, now: int) returns (blocked: bool)
      modifies this
      ensures blocked == Blocked(old(attempts), source, now)
      ensures attempts == PrunedAt(old(attempts), source, now)
    {
      Prune(source, now);
      blocked := source in attempts && |attempts[source]| >= LIMIT;
    }

    method ReserveFailure(source: string, now: int) returns (recorded: bool)
      modifies this
      ensures recorded <==> !Blocked(old(attempts), source, now)
      ensures attempts == Reserved(old(attempts), source, now)
    {
      Prune(source, now);
      var stamps := if source in attempts then attempts[source] else [];
      if |stamps| >= LIMIT {
        return false;
      }
      attempts := attempts[source := stamps + [now]];
      recorded := true;
    }

    method Clear(source: string)
      modifies this
      ensures attempts == old(attempts) - {source}
    {
      attempts := attempts - {source};
    }
  }

  // ----- Runs: the limiter's steps in any interleaving -----

  /** One atomic limiter step.  Its stamp is the clock reading at the start of its login,
      so stamps need not be in order. */
  datatype Step =
    | Check(source: string, stamp: int)
    | Fail(source: string, stamp: int)
    | Succeed(source: string)

  /** A step with the time at which it runs. */
  datatype Timed = Timed(at: int, step: Step)

  function Stepped(a: Attempts, s: Step): Attempts {
    match s
    case Check(source, stamp) => PrunedAt(a, source, stamp)
    case Fail(source, stamp) => Reserved(a, source, stamp)
    case Succeed(source) => a - {source}
  }

  function Ran(run: seq<Timed>): Attempts {
    if |run| == 0 then map[] else Stepped(Ran(run[..|run| - 1]), run[|run| - 1].step)
  }

  /** The clock does not go back, and a stamp was read before its step runs. */
  predicate Timely(run: seq<Timed>) {
    && (forall i, j :: 0 <= i < j < |run| ==> run[i].at <= run[j].at)
    && (forall i :: 0 <= i < |run| && !run[i].step.Succeed? ==> run[i].step.stamp <= run[i].at)
  }

  /** A recorded failure: its stamp, and when it was recorded. */
  datatype Failure = Failure(stamp: int, at: int)

  /** The failures of a source recorded since its last success, all of them. */
  function Failures(run: seq<Timed>, source: string): seq<Failure> {
    if |run| == 0 then []
    else
      var before, t := Failures(run[..|run| - 1], source), run[|run| - 1];
      match t.step
      case Check(_, _) => before
      case Fail(s, stamp) =>
        if s == source && !Blocked(Ran(run[..|run| - 1]), s, stamp) then before + [Failure(stamp, t.at)] else before
      case Succeed(s) => if s == source then [] else before
  }

  function Stamps(failures: seq<Failure>): (r: seq<int>)
    ensures |r| == |failures|
  {
    seq(|failures|, i requires 0 <= i < |failures| => failures[i].stamp)
  }

  /** The kept stamps are the last ones recorded; each one dropped has left the window. */
  ghost predicate Keeps(kept: seq<int>, failures: seq<Failure>, clock: int) {
    && |kept| <= |failures|
    && kept == Stamps(failures)[|failures| - |kept|..]
    && forall i :: 0 <= i < |failures| - |kept| ==> failures[i].stamp + WINDOW <= clock
  }

  lemma {:induction false} PruneKeeps(kept: seq<int>, failures: seq<Failure>, now: int, clock: int)
    requires Keeps(kept, failures, clock) && now <= clock
    ensures Keeps(Pruned(kept, now), failures, clock)
    decreases |kept|
  {
    if |kept| > 0 && kept[0] <= now - WINDOW {
      var k := |failures| - |kept|;
      assert kept[0] == Stamps(failures)[k] == failures[k].stamp;
      assert kept[1..] == Stamps(failures)[k + 1..];
      PruneKeeps(kept[1..], failures, now, clock);
    }
  }

  lemma {:induction false} StampsSnoc(failures: seq<Failure>, f: Failure)
    ensures Stamps(failures + [f]) == Stamps(failures) + [f.stamp]
  {
  }

  lemma {:induction false} RecordKeeps(kept: seq<int>, failures: seq<Failure>, f: Failure, clock: int)
    requires Keeps(kept, failures, clock)
    ensures Keeps(kept + [f.stamp], failures + [f], clock)
  {
    StampsSnoc(failures, f);
  }

  predicate Stamped(s: Step, source: string) { !s.Succeed? && s.source == source }

  /** No stamp of this source is later than this. */
  predicate StampedBy(run: seq<Timed>, source: string, clock: int) {
    forall i :: 0 <= i < |run| && Stamped(run[i].step, source) ==> run[i].step.stamp <= clock
  }

  lemma {:induction false} RunKeeps(run: seq<Timed>, source: string, clock: int)
    requires StampedBy(run, source, clock)
    ensures Keeps(StampsOf(Ran(run), source), Failures(run, source), clock)
  {
    if |run| > 0 {
      var front, t := run[..|run| - 1], run[|run| - 1];
      var kept, failures := StampsOf(Ran(front), source), Failures(front, source);
      RunKeeps(front, source, clock);
      if Stamped(t.step, source) {
        PruneKeeps(kept, failures, t.step.stamp, clock);
        RecordKeeps(Pruned(kept, t.step.stamp), failures, Failure(t.step.stamp, t.at), clock);
      }
    }
  }

  /** What stands on record when a failure finds room: the fifth last one left the window
      by some stamp read so far. */
  lemma {:induction false} RoomMeansLeft(run: seq<Timed>, source: string, stamp: int, clock: int)
    requires StampedBy(run, source, clock) && stamp <= clock && !Blocked(Ran(run), source, stamp)
    ensures var failures := Failures(run, source);
            |failures| >= LIMIT ==> failures[|failures| - LIMIT].stamp + WINDOW <= clock
  {
    RunKeeps(run, source, clock);
    PruneKeeps(StampsOf(Ran(run), source), Failures(run, source), stamp, clock);
  }

  /** For every interleaving: the sixth of any six failures recorded in a row for a source
      comes at least fifteen minutes after the first one's login began. */
  lemma {:induction false} SixFailuresSpanWindow(run: seq<Timed>, source: string, i: nat)
    requires Timely(run) && i + LIMIT < |Failures(run, source)|
    ensures Failures(run, source)[i].stamp + 900_000_000_000 <= Failures(run, source)[i + 5].at
  {
    var front, t := run[..|run| - 1], run[|run| - 1];
    var before := Failures(front, source);
    if i + LIMIT < |before| && before == Failures(run, source)[..|before|] {
      SixFailuresSpanWindow(front, source, i);
    } else {
      assert t.step.Fail? && i + LIMIT == |before|;
      RoomMeansLeft(front, source, t.step.stamp, t.at);
    }
  }

  // ----- Stamps in order: blocking by the full history -----

  /** The stamps of this source do not go back, however long its logins take. */
  predicate InOrder(run: seq<Timed>, source: string) {
    forall i, j :: 0 <= i < j < |run| && Stamped(run[i].step, source) && Stamped(run[j].step, source) ==>
      run[i].step.stamp <= run[j].step.stamp
  }

  /** How many of these failures lie inside the window that ends now. */
  function Inside(failures: seq<Failure>, now: int): nat {
    if |failures| == 0 then 0
    else
      var last := failures[|failures| - 1];
      Inside(failures[..|failures| - 1], now) + if last.stamp > now - 900_000_000_000 then 1 else 0
  }

  predicate Ordered(failures: seq<Failure>) {
    forall i, j :: 0 <= i < j < |failures| ==> failures[i].stamp <= failures[j].stamp
  }

  /** With k stamps outside at the front and the rest inside, all the rest count. */
  lemma {:induction false} InsideCounts(failures: seq<Failure>, now: int, k: nat)
    requires k <= |failures|
    requires forall i :: 0 <= i < k ==> failures[i].stamp <= now - WINDOW
    requires forall i :: k <= i < |failures| ==> failures[i].stamp > now - WINDOW
    ensures Inside(failures, now) == |failures| - k
  {
    if |failures| > 0 {
      var front := failures[..|failures| - 1];
      assert forall i :: 0 <= i < |front| ==> front[i] == failures[i];
      InsideCounts(front, now, if k == |failures| then k - 1 else k);
    }
  }

  /** What is kept after pruning an ordered history. */
  lemma {:induction false} PrunedCounts(kept: seq<int>, failures: seq<Failure>, now: int, clock: int)
    requires Keeps(kept, failures, clock) && Ordered(failures) && clock <= now
    ensures |Pruned(kept, now)| == Inside(failures, now)
    decreases |kept|
  {
    var k := |failures| - |kept|;
    if |kept| > 0 { assert kept[0] == failures[k].stamp; }
    if |kept| > 0 && kept[0] <= now - WINDOW {
      assert kept[1..] == Stamps(failures)[k + 1..];
      assert Keeps(kept[1..], failures, now);
      PrunedCounts(kept[1..], failures, now, now);
    } else {
      InsideCounts(failures, now, k);
    }
  }

  lemma {:induction false} FailuresOrdered(run: seq<Timed>, source: string, clock: int)
    requires InOrder(run, source) && StampedBy(run, source, clock)
    ensures Ordered(Failures(run, source))
    ensures forall i :: 0 <= i < |Failures(run, source)| ==> Failures(run, source)[i].stamp <= clock
  {
    if |run| > 0 {
      var front, t := run[..|run| - 1], run[|run| - 1];
      FailuresOrdered(front, source, if Stamped(t.step, source) then t.step.stamp else clock);
    }
  }

  /** With stamps in order a source is blocked exactly when five of its failures since its
      last success, the dropped ones included, lie in the last fifteen minutes. */
  lemma {:induction false} BlockedIff(run: seq<Timed>, source: string, now: int)
    requires InOrder(run, source) && StampedBy(run, source, now)
    ensures Blocked(Ran(run), source, now) <==> Inside(Failures(run, source), now) >= 5
  {
    RunKeeps(run, source, now);
    FailuresOrdered(run, source, now);
    PrunedCounts(StampsOf(Ran(run), source), Failures(run, source), now, now);
  }

  /** In any order, five failures in the last fifteen minutes block. */
  lemma {:induction false} FiveBlock(run: seq<Timed>, source: string, now: int)
    requires StampedBy(run, source, now) && Inside(Failures(run, source), now) >= 5
    ensures Blocked(Ran(run), source, now)
  {
    var kept, failures := StampsOf(Ran(run), source), Failures(run, source);
    RunKeeps(run, source, now);
    PruneKeeps(kept, failures, now, now);
    InsideAtMost(failures, now, |failures| - |Pruned(kept, now)|);
  }

  lemma {:induction false} InsideAtMost(failures: seq<Failure>, now: int, k: nat)
    requires k <= |failures| && forall i :: 0 <= i < k ==> failures[i].stamp <= now - WINDOW
    ensures Inside(failures, now) <= |failures| - k
  {
    if |failures| > 0 {
      var front := failures[..|failures| - 1];
      assert forall i :: 0 <= i < |front| ==> front[i] == failures[i];
      InsideAtMost(front, now, if k == |failures| then k - 1 else k);
    }
  }

  /** By their stamps, any six failures recorded in a row span fifteen minutes. */
  ghost predicate Spans(run: seq<Timed>, source: string) {
    var f := Failures(run, source);
    forall i :: 0 <= i < |f| - 5 ==> f[i].stamp + 900_000_000_000 <= f[i + 5].stamp
  }

  lemma {:induction false} OrderedRunSpans(run: seq<Timed>, source: string)
    requires InOrder(run, source)
    ensures Spans(run, source)
  {
    if |run| > 0 {
      var front, t := run[..|run| - 1], run[|run| - 1];
      var before := Failures(front, source);
      OrderedRunSpans(front, source);
      if t.step.Fail? && t.step.source == source && !Blocked(Ran(front), source, t.step.stamp) {
        RoomMeansLeft(front, source, t.step.stamp, t.step.stamp);
      }
    }
  }

  /** How many logins of this source that began then passed their check and have not failed
      since. */
  function Underway(run: seq<Timed>, source: string, stamp: int): int {
    if |run| == 0 then 0
    else
      var front, step := run[..|run| - 1], run[|run| - 1].step;
      Underway(front, source, stamp)
        + if step == Check(source, stamp) && !Blocked(Ran(front), source, stamp) then 1
          else if step == Fail(source, stamp) then -1 else 0
  }

  /** Each failure ends a login that passed its check. */
  predicate Logins(run: seq<Timed>) {
    |run| > 0 ==>
      var front, step := run[..|run| - 1], run[|run| - 1].step;
      Logins(front) && (step.Fail? ==> Underway(front, step.source, step.stamp) > 0)
  }

  /** A run of logins, its stamps in order but for the last two steps: a check of a login
      that began late, then the failure of one that began early. */
  predicate EndsCrossed(run: seq<Timed>, source: string, late: int, early: int) {
    && |run| >= 2 && Timely(run) && Logins(run) && InOrder(run[..|run| - 1], source)
    && run[|run| - 2].step == Check(source, late) && run[|run| - 1].step == Fail(source, early)
  }

  /** Order is what decides: every run that ends so spans the window exactly if its last
      two stamps are in order too.  (The login that fails last made its own check before, so
      its stamp is at most the late one.) */
  lemma {:induction false} OrderDecides(source: string, late: int, early: int)
    ensures (forall run :: EndsCrossed(run, source, late, early) ==> Spans(run, source)) <==> late <= early
  {
    if late <= early {
      forall run | EndsCrossed(run, source, late, early) ensures Spans(run, source) {
        var front := run[..|run| - 1];
        assert forall i :: 0 <= i < |front| ==> front[i] == run[i];
        OrderedRunSpans(run, source);
      }
    } else {
      var run := StampsCanLieCloser(source, late, early);
      assert Failures(run, source)[0 + 5].stamp < Failures(run, source)[0].stamp + WINDOW;
    }
  }

  /** Any two logins that cross can bring six failures closer together by their stamps: the
      late one's check drops the first stamp while the early one still checks its password. */
  lemma {:induction false} StampsCanLieCloser(source: string, late: int, early: int) returns (run: seq<Timed>)
    requires early < late
    ensures EndsCrossed(run, source, late, early) && |Failures(run, source)| == 6
    ensures Failures(run, source)[5].stamp < Failures(run, source)[0].stamp + 900_000_000_000
  {
    hide Ran, Failures, Underway, Logins, Timely, InOrder, Pruned, EndsCrossed, Stands;
    var first := if early <= late - WINDOW then early else late - WINDOW;
    var two, three, four := [first] + [early], [first] + [early] + [early], [first] + [early] + [early] + [early];
    NothingYet(source, first);
    assert [] + [first] == [first];
    run := FailsLogin([], source, [], first, first);
    run := FailsLogin(run, source, [first], first, early);
    run := FailsLogin(run, source, two, early, early);
    run := FailsLogin(run, source, three, early, early);
    run := Checks(run, source, four, early, early);
    run := FailsLogin(run, source, four, early, early);
    CrossedFails(run, source, four + [early], early, late);
    run := run + [Timed(late, Check(source, late)), Timed(late, Fail(source, early))];
    assert Stamps(Failures(run, source))[0] == first && Stamps(Failures(run, source))[5] == early;
  }

  /** A run of logins in order, up to this clock reading, with these stamps recorded and
      still kept. */
  ghost predicate Stands(run: seq<Timed>, source: string, stamps: seq<int>, clock: int) {
    && StampsOf(Ran(run), source) == stamps && Stamps(Failures(run, source)) == stamps
    && Timely(run) && Logins(run) && InOrder(run, source)
    && (forall i :: 0 <= i < |run| ==> run[i].at <= clock) && StampedBy(run, source, clock)
    && forall stamp :: Underway(run, source, stamp) >= 0
  }

  lemma {:induction false} NothingYet(source: string, clock: int)
    ensures Stands([], source, [], clock)
  {
  }

  lemma {:induction false} OneMore(run: seq<Timed>, step: Step, at: int, source: string)
    requires !step.Succeed?
    ensures var next := run + [Timed(at, step)];
            && Ran(next) == Stepped(Ran(run), step)
            && (Logins(next) <==> Logins(run) && (step.Fail? ==> Underway(run, step.source, step.stamp) > 0))
            && Failures(next, source) == (
                 if step.Fail? && step.source == source && !Blocked(Ran(run), source, step.stamp)
                 then Failures(run, source) + [Failure(step.stamp, at)] else Failures(run, source))
  {
    assert (run + [Timed(at, step)])[..|run|] == run;
  }

  lemma {:induction false} OneMoreUnderway(run: seq<Timed>, step: Step, at: int, source: string, stamp: int)
    ensures Underway(run + [Timed(at, step)], source, stamp) == Underway(run, source, stamp)
              + if step == Check(source, stamp) && !Blocked(Ran(run), source, stamp) then 1
                else if step == Fail(source, stamp) then -1 else 0
  {
    assert (run + [Timed(at, step)])[..|run|] == run;
  }

  lemma {:induction false} OneMoreInOrder(run: seq<Timed>, step: Step, at: int, source: string)
    requires Timely(run) && InOrder(run, source) && !step.Succeed? && step.stamp <= at
    requires (forall i :: 0 <= i < |run| ==> run[i].at <= at)
    ensures Timely(run + [Timed(at, step)])
    ensures StampedBy(run, source, step.stamp) ==> InOrder(run + [Timed(at, step)], source)
  {
  }

  /** A login passes its check. */
  lemma {:induction false} Checks(run: seq<Timed>, source: string, stamps: seq<int>, clock: int, stamp: int)
    returns (next: seq<Timed>)
    requires Stands(run, source, stamps, clock) && clock <= stamp
    requires |stamps| < LIMIT && (|stamps| > 0 ==> stamps[0] > stamp - WINDOW)
    ensures next == run + [Timed(stamp, Check(source, stamp))] && Stands(next, source, stamps, stamp)
    ensures Underway(next, source, stamp) == Underway(run, source, stamp) + 1
    ensures Underway(next, source, stamp) > 0
  {
    hide Ran, Failures, Underway, Logins, Timely, InOrder;
    var check := Check(source, stamp);
    next := run + [Timed(stamp, check)];
    OneMore(run, check, stamp, source);
    OneMoreInOrder(run, check, stamp, source);
    forall other ensures Underway(next, source, other) >= 0 { OneMoreUnderway(run, check, stamp, source, other); }
    OneMoreUnderway(run, check, stamp, source, stamp);
  }

  /** A login underway fails. */
  lemma {:induction false} Fails(run: seq<Timed>, source: string, stamps: seq<int>, stamp: int)
    returns (next: seq<Timed>)
    requires Stands(run, source, stamps, stamp) && Underway(run, source, stamp) > 0
    requires |stamps| < LIMIT && (|stamps| > 0 ==> stamps[0] > stamp - WINDOW)
    ensures next == run + [Timed(stamp, Fail(source, stamp))] && Stands(next, source, stamps + [stamp], stamp)
    ensures Underway(next, source, stamp) == Underway(run, source, stamp) - 1
  {
    hide Ran, Failures, Underway, Logins, Timely, InOrder;
    var fail := Fail(source, stamp);
    next := run + [Timed(stamp, fail)];
    OneMore(run, fail, stamp, source);
    OneMoreInOrder(run, fail, stamp, source);
    StampsSnoc(Failures(run, source), Failure(stamp, stamp));
    forall other ensures Underway(next, source, other) >= 0 { OneMoreUnderway(run, fail, stamp, source, other); }
    OneMoreUnderway(run, fail, stamp, source, stamp);
  }

  /** A login that checks and fails at once. */
  lemma {:induction false} FailsLogin(run: seq<Timed>, source: string, stamps: seq<int>, clock: int, stamp: int)
    returns (next: seq<Timed>)
    requires Stands(run, source, stamps, clock) && clock <= stamp
    requires |stamps| < LIMIT && (|stamps| > 0 ==> stamps[0] > stamp - WINDOW)
    ensures Stands(next, source, stamps + [stamp], stamp)
    ensures Underway(next, source, stamp) == Underway(run, source, stamp)
  {
    hide Stands, Underway;
    next := Checks(run, source, stamps, clock, stamp);
    next := Fails(next, source, stamps, stamp);
  }

  /** A late check that leaves room, and then an early login underway fails. */
  lemma {:induction false} CrossedFails(run: seq<Timed>, source: string, stamps: seq<int>, early: int, late: int)
    requires Stands(run, source, stamps, early) && Underway(run, source, early) > 0 && early < late
    requires |stamps| == LIMIT && stamps[0] <= late - WINDOW
    ensures var all := run + [Timed(late, Check(source, late)), Timed(late, Fail(source, early))];
            EndsCrossed(all, source, late, early) && Stamps(Failures(all, source)) == stamps + [early]
  {
    hide Ran, Failures, Underway, Logins, Timely, InOrder, Pruned;
    var check, fail := Check(source, late), Fail(source, early);
    var checked := run + [Timed(late, check)];
    var all := run + [Timed(late, check), Timed(late, fail)];
    assert all == checked + [Timed(late, fail)] && all[..|checked|] == checked;
    OneMore(run, check, late, source);
    OneMoreUnderway(run, check, late, source, early);
    OneMoreInOrder(run, check, late, source);
    FirstPruned(stamps, late);
    PrunedShorter(Pruned(stamps, late), early);
    OneMore(checked, fail, late, source);
    OneMoreInOrder(checked, fail, late, source);
    StampsSnoc(Failures(run, source), Failure(early, late));
  }

  lemma {:induction false} FirstPruned(stamps: seq<int>, now: int)
    requires |stamps| > 0 && stamps[0] <= now - WINDOW
    ensures |Pruned(stamps, now)| < |stamps|
  {
    PrunedShorter(stamps[1..], now);
  }

  lemma {:induction false} PrunedShorter(stamps: seq<int>, now: int)
    ensures |Pruned(stamps, now)| <= |stamps|
  {
    if |stamps| > 0 && stamps[0] <= now - WINDOW { PrunedShorter(stamps[1..], now); }
  }
}
