/** What a selection promises: an eligible key, availability, and the share cap. */
module ZenSelection {
  import opened Wrappers
  import opened ZenScoring
  import opened ZenPool
  import opened ZenAcquire
  import opened Skipping
  import opened WeightedPick

  // ----- The pick -----

  predicate NoneOpens(usable: seq<Candidate>, open: string -> Option<string>) {
    forall c :: c in usable ==> open(c.row.ciphertext) == None
  }

  lemma {:induction false} NoneOpensWithout(usable: seq<Candidate>, i: nat, open: string -> Option<string>)
    requires i < |usable| && open(usable[i].row.ciphertext) == None
    ensures NoneOpens(usable, open) <==> NoneOpens(Without(usable, i), open)
  {
    WithoutMembers(usable, i);
  }

  /** The pick fails exactly when nothing in the list opens. */
  lemma {:induction false} PickFailsIff(usable: seq<Candidate>, rr: nat, mode: Mode, open: string -> Option<string>)
    requires forall c :: c in usable ==> c.score >= 1
    ensures PickFrom(usable, rr, mode, open).1 == None <==> NoneOpens(usable, open)
    decreases |usable|
  {
    if |usable| > 0 {
      var i := Chosen(usable, rr, mode);
      if open(usable[i].row.ciphertext) == None {
        PickFailsIff(Without(usable, i), if mode.ByRank? then rr else Next(rr), mode, open);
        NoneOpensWithout(usable, i, open);
      }
    }
  }

  // ----- Who is on the list -----

  lemma {:induction false} ListMembers(p: Pool, rows: seq<Row>, opts: Options, now: int, c: Candidate)
    ensures c in Actives(p, rows, opts, now)
            <==> c == CandidateOf(p, c.row, now) && c.row in rows && IsActive(p, c.row, opts, now)
    ensures c in Probes(p, rows, opts, now)
            <==> c == CandidateOf(p, c.row, now) && c.row in rows && IsProbe(p, c.row, opts, now)
  {
    if |rows| > 0 {
      ListMembers(p, rows[..|rows| - 1], opts, now, c);
      assert rows == rows[..|rows| - 1] + [rows[|rows| - 1]];
    }
  }

  lemma {:induction false} ProviderMembers(rows: seq<Row>, provider: Provider, row: Row)
    ensures row in OfProvider(rows, provider) <==> row in rows && row.provider == provider
  {
    if |rows| > 0 {
      ProviderMembers(rows[..|rows| - 1], provider, row);
      assert rows == rows[..|rows| - 1] + [rows[|rows| - 1]];
    }
  }

  lemma {:induction false} NarrowedMembers(p: Pool, actives: seq<Candidate>, probes: seq<Candidate>, turn: nat,
                                           policy: Policy, now: int, c: Candidate)
    requires c in Narrowed(p, actives, probes, turn, policy, now)
    ensures c in if ProbeTurn(actives, probes, turn) then probes else actives
  {
    WithinCapMembers(p, actives, actives, now);
  }

  /** A selected key is an enabled, untried, unbenched and rested key of the pool asked
      for, and opens; one with a failure behind it is selected only to probe, for a
      real attempt, and never while another probe is in flight. */
  lemma {:induction false} SelectedIsEligible(p: Pool, rr: nat, turn: nat, rows: seq<Row>, opts: Options, own: Policy,
                                              now: int, keys: Keys) returns (row: Row)
    requires Acquire(p, rr, turn, Some(rows), opts, own, now, keys).result.Success?
    ensures var s := Acquire(p, rr, turn, Some(rows), opts, own, now, keys).result.value;
            && row in rows && row.id == s.id && row.provider == s.provider == Resolved(opts.provider)
            && Some(s.secret) == keys.open(row.ciphertext)
            && Eligible(p, row, opts, now)
            && (if s.probing then IsProbe(p, row, opts, now) else IsActive(p, row, opts, now))
  {
    var mine := OfProvider(rows, Resolved(opts.provider));
    var list := PickList(p, turn, rows, opts, own, now);
    var probing := Probing(p, turn, rows, opts, now);
    var c := PickFrom(list, rr, ModeOf(opts, own, probing, keys), keys.open).1.value;
    NarrowedMembers(p, Actives(p, mine, opts, now), Probes(p, mine, opts, now), Next(turn), PolicyOf(opts, own), now,
                    c);
    ListMembers(p, mine, opts, now, c);
    row := c.row;
    ProviderMembers(rows, Resolved(opts.provider), row);
  }

  // ----- Availability -----

  /** A call fails exactly when no key on its narrowed list opens. */
  lemma {:induction false} UnavailableIff(p: Pool, rr: nat, turn: nat, rows: seq<Row>, opts: Options, own: Policy,
                                          now: int, keys: Keys)
    ensures Acquire(p, rr, turn, Some(rows), opts, own, now, keys).result == Failure(NoHealthyKey) <==>
            NoneOpens(PickList(p, turn, rows, opts, own, now), keys.open)
  {
    var list := PickList(p, turn, rows, opts, own, now);
    PickFailsIff(list, rr, ModeOf(opts, own, Probing(p, turn, rows, opts, now), keys), keys.open);
  }

  /** One bad ciphertext can fail a call although another key would open: on a probe
      turn only the probing keys are tried. */
  lemma {:induction false} ProbeTurnCanFail() returns (p: Pool, rows: seq<Row>, opts: Options, keys: Keys)
    ensures Acquire(p, 0, 19, Some(rows), opts, Spread, 0, keys).result == Failure(NoHealthyKey)
    ensures exists row :: row in rows && IsActive(p, row, opts, 0) && row.provider == Resolved(opts.provider)
              && keys.open(row.ciphertext).Some?
  {
    var good, bad := Row("g", true, OpenCode, "g"), Row("b", true, OpenCode, "b");
    assert "g"[0] != "b"[0];
    var failed := COLD_START.(failures := 1, consecutive := 1, lastError := RateLimited, reason := RateLimited,
                              updated := Some(0));
    p := Pool(map[bad.id := failed], map[], map[], map[], map[], map[]);
    opts := Options(OpenCode, [], "", None, true);
    keys := Keys(c => if c == "g" then Some("secret") else None, a => id => 0.0);
    rows := [good, bad];
    hide IsActive, IsProbe, Acquire, OfProvider, Probes, Actives, Resolved, CandidateOf;
    GoodAndBad(p, good, bad, opts, failed);
    ProviderMembers(rows, Resolved(OpenCode), bad);
    ProviderMembers(rows, Resolved(OpenCode), good);
    ListMembers(p, OfProvider(rows, Resolved(OpenCode)), opts, 0, CandidateOf(p, bad, 0));
    OnlyProbesTried(p, rows, opts, keys, bad);
  }

  /** A key that never failed is active; one whose failure has run out is to be probed. */
  lemma {:induction false} GoodAndBad(p: Pool, good: Row, bad: Row, opts: Options, failed: Health)
    requires p == Pool(map[bad.id := failed], map[], map[], map[], map[], map[]) && good.id != bad.id
    requires failed.reason != NoClass && failed.updated == Some(0) && good.enabled && bad.enabled
    requires opts == Options(OpenCode, [], "", None, true)
    ensures IsActive(p, good, opts, 0) && IsProbe(p, bad, opts, 0) && !IsProbe(p, good, opts, 0)
    ensures Resolved(OpenCode) == OpenCode && CandidateOf(p, bad, 0).row == bad
  {
  }

  lemma {:induction false} OnlyProbesTried(p: Pool, rows: seq<Row>, opts: Options, keys: Keys, bad: Row)
    requires |Probes(p, OfProvider(rows, Resolved(opts.provider)), opts, 0)| > 0
    requires keys.open(bad.ciphertext) == None
    requires forall row :: row in rows && IsProbe(p, row, opts, 0) ==> row == bad
    ensures Acquire(p, 0, 19, Some(rows), opts, Spread, 0, keys).result == Failure(NoHealthyKey)
  {
    var mine := OfProvider(rows, Resolved(opts.provider));
    var list := PickList(p, 19, rows, opts, Spread, 0);
    forall c | c in list
      ensures keys.open(c.row.ciphertext) == None
    {
      NarrowedMembers(p, Actives(p, mine, opts, 0), Probes(p, mine, opts, 0), Next(19), PolicyOf(opts, Spread), 0, c);
      ListMembers(p, mine, opts, 0, c);
      ProviderMembers(rows, Resolved(opts.provider), c.row);
    }
    UnavailableIff(p, 0, 19, rows, opts, Spread, 0, keys);
  }

  // ----- The share cap -----

  lemma {:induction false} TotalCovers(p: Pool, cands: seq<Candidate>, now: int, i: nat)
    requires i < |cands|
    ensures TotalRequests(p, cands, now) >= Requests(p, cands[i].row.id, now)
    ensures forall j :: 0 <= j < i ==>
      TotalRequests(p, cands, now) >= Requests(p, cands[i].row.id, now) + Requests(p, cands[j].row.id, now)
  {
    var n := |cands| - 1;
    if i < n {
      TotalCovers(p, cands[..n], now, i);
      assert forall j :: 0 <= j < i ==> cands[..n][j] == cands[j];
    } else {
      forall j | 0 <= j < i
        ensures TotalRequests(p, cands, now) >= Requests(p, cands[i].row.id, now) + Requests(p, cands[j].row.id, now)
      {
        TotalCovers(p, cands[..n], now, j);
      }
    }
  }

  /** At most one candidate is over its share. */
  lemma {:induction false} AtMostOneOverCap(p: Pool, cands: seq<Candidate>, now: int, i: nat, j: nat)
    requires i < j < |cands|
    ensures !(OverCap(p, cands, cands[i].row.id, now) && OverCap(p, cands, cands[j].row.id, now))
  {
    TotalCovers(p, cands, now, j);
  }

  /** With two or more active keys the cap leaves a key to pick, so the list without the
      cap is never used; and the key picked stays within 70 percent of the window
      once it has at least ten requests. */
  lemma {:induction false} ShareCapHolds(p: Pool, rr: nat, turn: nat, rows: seq<Row>, opts: Options, own: Policy,
                                         now: int, keys: Keys)
    requires var mine := OfProvider(rows, Resolved(opts.provider));
             |Actives(p, mine, opts, now)| >= 2 && PolicyOf(opts, own) != Sticky && !Probing(p, turn, rows, opts, now)
    ensures var actives := Actives(p, OfProvider(rows, Resolved(opts.provider)), opts, now);
            var r := Acquire(p, rr, turn, Some(rows), opts, own, now, keys).result;
            && |WithinCap(p, actives, actives, now)| > 0
            && PickList(p, turn, rows, opts, own, now) == WithinCap(p, actives, actives, now)
            && (r.Success? && TotalRequests(p, actives, now) >= 10 ==>
                  10 * (Requests(p, r.value.id, now) + 1) <= 7 * (TotalRequests(p, actives, now) + 1))
  {
    var actives := Actives(p, OfProvider(rows, Resolved(opts.provider)), opts, now);
    WithinCapMembers(p, actives, actives, now);
    AtMostOneOverCap(p, actives, now, 0, 1);
    assert actives[0] in WithinCap(p, actives, actives, now) || actives[1] in WithinCap(p, actives, actives, now);
  }

  /** An active key is tried exactly when it is no probe turn and, for the spread
      policy, the key is not over its share. */
  lemma {:induction false} TriedIff(p: Pool, turn: nat, rows: seq<Row>, opts: Options, own: Policy, now: int,
                                    c: Candidate)
    requires c in Actives(p, OfProvider(rows, Resolved(opts.provider)), opts, now)
    ensures var actives := Actives(p, OfProvider(rows, Resolved(opts.provider)), opts, now);
            c in PickList(p, turn, rows, opts, own, now) <==>
            !Probing(p, turn, rows, opts, now) && (PolicyOf(opts, own) == Sticky || !OverCap(p, actives, c.row.id, now))
    ensures var actives := Actives(p, OfProvider(rows, Resolved(opts.provider)), opts, now);
            OverCap(p, actives, c.row.id, now) <==>
            && |actives| >= 2 && TotalRequests(p, actives, now) >= 10
            && (Requests(p, c.row.id, now) + 1) as real > 0.7 * (TotalRequests(p, actives, now) + 1) as real
  {
    var mine := OfProvider(rows, Resolved(opts.provider));
    var actives := Actives(p, mine, opts, now);
    WithinCapMembers(p, actives, actives, now);
    ListMembers(p, mine, opts, now, c);
    if |actives| >= 2 {
      AtMostOneOverCap(p, actives, now, 0, 1);
      assert actives[0] in WithinCap(p, actives, actives, now) || actives[1] in WithinCap(p, actives, actives, now);
    }
  }

  predicate SomeOpens(cands: seq<Candidate>, open: string -> Option<string>) { !NoneOpens(cands, open) }

  /** A call fails although some active key opens, exactly on a probe turn whose probes all
      fail to open, or when, by the spread policy, every key that opens is over its share
      (there can be only one such key). */
  lemma {:induction false} FailsDespiteActiveIff(p: Pool, rr: nat, turn: nat, rows: seq<Row>, opts: Options,
                                                 own: Policy, now: int, keys: Keys)
    requires var mine := OfProvider(rows, Resolved(opts.provider)); SomeOpens(Actives(p, mine, opts, now), keys.open)
    ensures var mine := OfProvider(rows, Resolved(opts.provider)); var actives := Actives(p, mine, opts, now);
            Acquire(p, rr, turn, Some(rows), opts, own, now, keys).result == Failure(NoHealthyKey) <==>
            if Probing(p, turn, rows, opts, now) then NoneOpens(Probes(p, mine, opts, now), keys.open)
            else PolicyOf(opts, own) != Sticky
                 && forall c :: c in actives && keys.open(c.row.ciphertext).Some? ==> OverCap(p, actives, c.row.id, now)
  {
    hide Acquire, OverCap;
    var mine := OfProvider(rows, Resolved(opts.provider));
    var actives, list := Actives(p, mine, opts, now), PickList(p, turn, rows, opts, own, now);
    UnavailableIff(p, rr, turn, rows, opts, own, now, keys);
    if !Probing(p, turn, rows, opts, now) {
      forall c | c in actives
        ensures c in list <==> PolicyOf(opts, own) == Sticky || !OverCap(p, actives, c.row.id, now)
      {
        TriedIff(p, turn, rows, opts, own, now, c);
      }
      forall c | c in list ensures c in actives {
        NarrowedMembers(p, actives, Probes(p, mine, opts, now), Next(turn), PolicyOf(opts, own), now, c);
      }
    }
  }
}
