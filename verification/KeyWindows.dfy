/** Local API keys: requests counted per UTC minute and per UTC day, in one transaction. */
module KeyWindows {
  import opened Wrappers

  const SECOND := 1_000_000_000
  const MINUTE := 60 * SECOND
  const DAY := 24 * 60 * MINUTE

  type KeyId = string

  datatype Kind = Minute | Day

  /** Limit 0 means unlimited. */
  datatype Key = Key(id: KeyId, rpmLimit: nat, dailyLimit: nat, enabled: bool, revoked: bool)

  /** A usage row: the start of its window, and the requests counted in it. */
  datatype Row = Row(start: int, count: nat)

  type Usage = map<(KeyId, Kind), Row>

  datatype Denial = Unauthorized | RateLimited | StoreFailed

  function Length(kind: Kind): (n: int)
    ensures n > 0
  {
    if kind == Minute then MINUTE else DAY
  }

  function WindowStart(kind: Kind, now: int): int { now - now % Length(kind) }

  function LimitOf(key: Key, kind: Kind): nat { if kind == Minute then key.rpmLimit else key.dailyLimit }

  // ----- One request -----

  predicate HasRoom(u: Usage, key: Key, kind: Kind, now: int) {
    LimitOf(key, kind) == 0 || (key.id, kind) !in u || u[(key.id, kind)].start != WindowStart(kind, now)
    || u[(key.id, kind)].count < LimitOf(key, kind)
  }

  /** The usage after one more request in this window. */
  function Counted(u: Usage, key: Key, kind: Kind, now: int): Usage {
    if LimitOf(key, kind) == 0 then u
    else
      var start := WindowStart(kind, now);
      var again := (key.id, kind) in u && u[(key.id, kind)].start == start;
      u[(key.id, kind) := if again then Row(start, u[(key.id, kind)].count + 1) else Row(start, 1)]
  }

  predicate Admits(u: Usage, key: Key, now: int) {
    HasRoom(u, key, Day, now) && HasRoom(u, key, Minute, now)
  }

  /** What a request finds: its key's hash, the clock, and whether its transaction commits. */
  datatype Request = Request(hash: string, now: int, commits: bool)

  predicate Known(keys: map<string, Key>, hash: string) {
    hash in keys && keys[hash].enabled && !keys[hash].revoked
  }

  predicate Accepts(keys: map<string, Key>, u: Usage, r: Request) {
    Known(keys, r.hash) && Admits(u, keys[r.hash], r.now) && r.commits
  }

  /** A request is counted in both windows or, when it is not accepted, in none. */
  function Served(keys: map<string, Key>, u: Usage, r: Request): Usage {
    if Accepts(keys, u, r) then Counted(Counted(u, keys[r.hash], Day, r.now), keys[r.hash], Minute, r.now) else u
  }

  class Store {
    var keys: map<string, Key>
    var usage: Usage

    constructor (keys: map<string, Key>)
      ensures this.keys == keys && usage == map[]
    {
      this.keys, usage := keys, map[];
    }

    method ConsumeWindow(key: Key, kind: Kind, now: int) returns (ok: bool)
      modifies `usage
      ensures ok == HasRoom(old(usage), key, kind, now)
      ensures usage == if ok then Counted(old(usage), key, kind, now) else old(usage)
    {
      var limit := LimitOf(key, kind);
      if limit == 0 {
        return true;
      }
      var start := WindowStart(kind, now);
      if (key.id, kind) !in usage {
        usage := usage[(key.id, kind) := Row(start, 1)];
        return true;
      }
      var row := usage[(key.id, kind)];
      if row.start != start {
        usage := usage[(key.id, kind) := Row(start, 1)];
        return true;
      }
      if row.count >= limit {
        return false;
      }
      usage := usage[(key.id, kind) := row.(count := row.count + 1)];
      ok := true;
    }

    /** The day is counted before the minute is looked at.  A denial rolls the transaction
        back, the day counter included, and so does a commit that fails. */
    method VerifyAndConsume(r: Request) returns (verified: Result<KeyId, Denial>)
      modifies `usage
      ensures verified.Success? <==> Accepts(keys, old(usage), r)
      ensures verified.Success? ==> verified.value == keys[r.hash].id
      ensures usage == Served(keys, old(usage), r)
      ensures verified.Failure? ==> usage == old(usage)
      ensures verified == Failure(Unauthorized) <==> !Known(keys, r.hash)
      ensures verified == Failure(RateLimited) <==> Known(keys, r.hash) && !Admits(old(usage), keys[r.hash], r.now)
    {
      if r.hash !in keys || !keys[r.hash].enabled || keys[r.hash].revoked {
        return Failure(Unauthorized);
      }
      var key := keys[r.hash];
      var before := usage;
      var ok := ConsumeWindow(key, Day, r.now);
      if ok {
        DayLeavesMinute(before, key, r.now);
        ok := ConsumeWindow(key, Minute, r.now);
      }
      if !ok {
        usage := before;
        return Failure(RateLimited);
      }
      if !r.commits {
        usage := before;
        return Failure(StoreFailed);
      }
      verified := Success(key.id);
    }
  }

  lemma {:induction false} DayLeavesMinute(u: Usage, key: Key, now: int)
    ensures HasRoom(Counted(u, key, Day, now), key, Minute, now) <==> HasRoom(u, key, Minute, now)
  {
  }

  // ----- Runs: the requests of all keys, in any order -----

  function Ran(keys: map<string, Key>, run: seq<Request>): Usage {
    if |run| == 0 then map[] else Served(keys, Ran(keys, run[..|run| - 1]), run[|run| - 1])
  }

  /** How many requests of this key were accepted in the window that starts here. */
  function Accepted(keys: map<string, Key>, run: seq<Request>, hash: string, kind: Kind, start: int): nat {
    if |run| == 0 then 0
    else
      var front, r := run[..|run| - 1], run[|run| - 1];
      Accepted(keys, front, hash, kind, start)
        + if r.hash == hash && WindowStart(kind, r.now) == start && Accepts(keys, Ran(keys, front), r) then 1 else 0
  }

  /** The clock does not go back. */
  predicate Monotone(run: seq<Request>) {
    forall i, j :: 0 <= i < j < |run| ==> run[i].now <= run[j].now
  }

  predicate DistinctIds(keys: map<string, Key>) {
    forall a, b :: a in keys && b in keys && keys[a].id == keys[b].id ==> a == b
  }

  lemma {:induction false} WindowsInOrder(kind: Kind, a: int, b: int)
    requires a <= b
    ensures WindowStart(kind, a) <= WindowStart(kind, b)
  {
    var w := Length(kind);
    var p, q := a / w, b / w;
    assert a == p * w + a % w && b == q * w + b % w;
    if p > q { Multiples(q, p, w); } else { Multiples(p, q, w); }
  }

  lemma {:induction false} Multiples(p: int, q: int, w: int)
    requires p <= q && w > 0
    ensures p * w <= q * w && (p < q ==> p * w + w <= q * w)
  {
    var d := q - p;
    assert d * w == q * w - p * w;
    if d > 0 { AtLeastOnce(d, w); }
  }

  lemma {:induction false} AtLeastOnce(d: nat, w: int)
    requires d >= 1 && w > 0
    ensures d * w >= w
  {
    if d > 1 {
      AtLeastOnce(d - 1, w);
      assert d * w == (d - 1) * w + w;
    }
  }

  /** What is stored for a key and kind: nothing before the first accepted request, then the
      latest window with its accepted requests. */
  ghost predicate Tells(keys: map<string, Key>, run: seq<Request>, hash: string, kind: Kind)
    requires hash in keys
  {
    var u, key := Ran(keys, run), keys[hash];
    if (key.id, kind) in u then
      var row := u[(key.id, kind)];
      && row.count == Accepted(keys, run, hash, kind, row.start) && row.count <= LimitOf(key, kind)
      && (forall start :: start > row.start ==> Accepted(keys, run, hash, kind, start) == 0)
      && |run| > 0 && row.start <= WindowStart(kind, run[|run| - 1].now)
    else
      forall start :: Accepted(keys, run, hash, kind, start) == 0
  }

  /** An accepted request counts in its own key's rows; every other row is as before. */
  lemma {:induction false} ServedRow(keys: map<string, Key>, u: Usage, r: Request, kind: Kind)
    requires r.hash in keys && LimitOf(keys[r.hash], kind) > 0
    ensures var v, key := Served(keys, u, r), keys[r.hash];
            if Accepts(keys, u, r) then (key.id, kind) in v
              && v[(key.id, kind)] == Counted(u, key, kind, r.now)[(key.id, kind)]
            else v == u
  {
  }

  /** Requests of one key leave the rows of another alone. */
  lemma {:induction false} OthersKeep(keys: map<string, Key>, u: Usage, r: Request, hash: string, kind: Kind)
    requires DistinctIds(keys) && hash in keys && r.hash != hash
    ensures var v, id := Served(keys, u, r), keys[hash].id;
            ((id, kind) in v <==> (id, kind) in u) && ((id, kind) in u ==> v[(id, kind)] == u[(id, kind)])
  {
    if r.hash in keys { assert keys[r.hash].id != keys[hash].id; }
  }

  lemma {:induction false} RunTells(keys: map<string, Key>, run: seq<Request>, hash: string, kind: Kind)
    requires DistinctIds(keys) && hash in keys && Monotone(run) && LimitOf(keys[hash], kind) > 0
    ensures Tells(keys, run, hash, kind)
    ensures forall start :: Accepted(keys, run, hash, kind, start) <= LimitOf(keys[hash], kind)
  {
    if |run| > 0 {
      var n := |run| - 1;
      var front, r := run[..n], run[n];
      RunTells(keys, front, hash, kind);
      if n > 0 { WindowsInOrder(kind, run[n - 1].now, r.now); }
      if r.hash == hash {
        ServedRow(keys, Ran(keys, front), r, kind);
      } else {
        OthersKeep(keys, Ran(keys, front), r, hash, kind);
      }
    }
  }

  predicate RoomLeft(key: Key, kind: Kind, accepted: nat) {
    LimitOf(key, kind) == 0 || accepted < LimitOf(key, kind)
  }

  lemma {:induction false} RoomIff(keys: map<string, Key>, run: seq<Request>, r: Request, kind: Kind)
    requires DistinctIds(keys) && Monotone(run + [r]) && r.hash in keys
    ensures HasRoom(Ran(keys, run), keys[r.hash], kind, r.now) <==>
            RoomLeft(keys[r.hash], kind, Accepted(keys, run, r.hash, kind, WindowStart(kind, r.now)))
  {
    var all := run + [r];
    assert forall i :: 0 <= i < |run| ==> all[i] == run[i];
    assert Monotone(run) && (|run| > 0 ==> run[|run| - 1].now <= r.now) by { assert all[|run|] == r; }
    if LimitOf(keys[r.hash], kind) > 0 {
      RunTells(keys, run, r.hash, kind);
      if |run| > 0 { WindowsInOrder(kind, run[|run| - 1].now, r.now); }
    }
  }

  // ----- Minutes and days by the clock -----

  /** The same UTC minute, or the same UTC day. */
  predicate SamePeriod(kind: Kind, a: int, b: int) {
    if kind == Minute then a / 60_000_000_000 == b / 60_000_000_000
    else a / 86_400_000_000_000 == b / 86_400_000_000_000
  }

  lemma {:induction false} SamePeriodIff(kind: Kind, a: int, b: int)
    ensures SamePeriod(kind, a, b) <==> WindowStart(kind, a) == WindowStart(kind, b)
  {
    var w := Length(kind);
    var p, q := a / w, b / w;
    assert a == p * w + a % w && b == q * w + b % w;
    if p < q { Multiples(p, q, w); } else if q < p { Multiples(q, p, w); }
  }

  /** How many requests of this key were accepted in the same minute, or day, as this time. */
  function AcceptedWith(keys: map<string, Key>, run: seq<Request>, hash: string, kind: Kind, now: int): nat {
    if |run| == 0 then 0
    else
      var front, r := run[..|run| - 1], run[|run| - 1];
      AcceptedWith(keys, front, hash, kind, now)
        + if r.hash == hash && SamePeriod(kind, r.now, now) && Accepts(keys, Ran(keys, front), r) then 1 else 0
  }

  lemma {:induction false} AcceptedSame(keys: map<string, Key>, run: seq<Request>, hash: string, kind: Kind, now: int)
    ensures AcceptedWith(keys, run, hash, kind, now) == Accepted(keys, run, hash, kind, WindowStart(kind, now))
  {
    if |run| > 0 {
      hide SamePeriod, WindowStart;
      AcceptedSame(keys, run[..|run| - 1], hash, kind, now);
      SamePeriodIff(kind, run[|run| - 1].now, now);
    }
  }

  /** Under a monotone clock, whatever other keys do: no UTC minute accepts more requests of a
      key than its limit per minute, and no UTC day more than its limit per day, unless that
      limit is zero; and each stored counter is the number accepted in its window. */
  lemma {:induction false} LimitsHold(keys: map<string, Key>, run: seq<Request>, hash: string, now: int)
    requires DistinctIds(keys) && hash in keys && Monotone(run)
    ensures keys[hash].rpmLimit > 0 ==> AcceptedWith(keys, run, hash, Minute, now) <= keys[hash].rpmLimit
    ensures keys[hash].dailyLimit > 0 ==> AcceptedWith(keys, run, hash, Day, now) <= keys[hash].dailyLimit
    ensures forall kind :: LimitOf(keys[hash], kind) > 0 ==>
              var u, id := Ran(keys, run), keys[hash].id;
              (id, kind) in u ==> u[(id, kind)].count == Accepted(keys, run, hash, kind, u[(id, kind)].start)
  {
    forall kind | LimitOf(keys[hash], kind) > 0
      ensures Tells(keys, run, hash, kind) && AcceptedWith(keys, run, hash, kind, now) <= LimitOf(keys[hash], kind)
    {
      RunTells(keys, run, hash, kind);
      AcceptedSame(keys, run, hash, kind, now);
    }
  }

  /** A request that can commit is accepted exactly when its key is known, enabled and not
      revoked, and fewer than its limits of its own requests were accepted in the same UTC
      minute and in the same UTC day; a limit of zero allows all. */
  lemma {:induction false} AcceptedIff(keys: map<string, Key>, run: seq<Request>, r: Request)
    requires DistinctIds(keys) && Monotone(run + [r]) && r.commits
    ensures Accepts(keys, Ran(keys, run), r) <==>
            && r.hash in keys && keys[r.hash].enabled && !keys[r.hash].revoked
            && (keys[r.hash].rpmLimit == 0 || AcceptedWith(keys, run, r.hash, Minute, r.now) < keys[r.hash].rpmLimit)
            && (keys[r.hash].dailyLimit == 0 || AcceptedWith(keys, run, r.hash, Day, r.now) < keys[r.hash].dailyLimit)
  {
    if r.hash in keys {
      RoomIff(keys, run, r, Minute);
      RoomIff(keys, run, r, Day);
      AcceptedSame(keys, run, r.hash, Minute, r.now);
      AcceptedSame(keys, run, r.hash, Day, r.now);
    }
  }
}
