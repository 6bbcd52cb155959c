/** How a paid request goes on from key to key, and which keys it blames. */
module ZenAttempts {
  import opened Wrappers
  import opened ZenScoring
  import opened ZenGuard
  import opened ZenPool
  import opened ZenAcquire
  import opened ZenRuns
  import opened ZenFailover
  import opened ZenOutcomes
  import opened ZenWeights

  /** Another key may help: the credentials were rejected, the rate was limited, the upstream
      or the way to it failed; and the client still waits. */
  predicate MayRetry(a: Attempt) {
    && !a.cancelled
    && (a.dial.Unreachable? || a.dial.EgressFault?
        || (a.dial.Refused? && (a.dial.code == 401 || a.dial.code == 429 || a.dial.code >= 500)))
  }

  /** A call goes on exactly while it may: each key but the last one dialed failed so that
      another may help; after such a failure of the last one either two to four keys, as
      configured, have been dialed, or no further key could be acquired.  The answer is that
      of the last dial. */
  lemma {:induction false} GoesOnWhileItMay(s: State, call: Call, i: nat, tried: seq<KeyId>, last: Option<Dial>,
                                            set_: Setting)
    returns (stopped: State)
    requires |tried| == i <= call.Max()
    ensures call.Max() == if call.attempts < 2 then 2 else if call.attempts > 4 then 4 else call.attempts
    ensures var r := Attempts(s, call, i, tried, last, set_); var n := |r.dialed|;
            && i <= n <= call.Max() && r.dialed[..i] == tried
            && (forall j: nat :: i <= j && j + 1 < n ==> MayRetry(call.env(j)))
            && (n > i ==> r.result == if call.env(n - 1).dial == Answered then Response
                                      else DialError(call.env(n - 1).dial))
            && (n > i && n < call.Max() && MayRetry(call.env(n - 1)) ==>
                  AcquiredBy(stopped, call, call.env(n), r.dialed, set_.keys).result.Failure?)
            && (n == i ==> stopped == s)
            && (n == i < call.Max() ==>
                  var q := AcquiredBy(s, call, call.env(i), tried, set_.keys).result;
                  q.Failure? && r.result == if last.Some? then DialError(last.value) else NoKey(q.error))
    decreases call.Max() - i
  {
    hide AcquiredBy, Dialed;
    stopped := s;
    if i < call.Max() {
      var a := call.env(i);
      var q := AcquiredBy(s, call, a, tried, set_.keys);
      if q.result.Success? && a.dial != Answered && !a.cancelled && ShouldFailover(a.dial) {
        var next, all := Dialed(q, call, a, set_), tried + [q.result.value.id];
        stopped := GoesOnWhileItMay(next, call, i + 1, all, Some(a.dial), set_);
        var r := Attempts(next, call, i + 1, all, Some(a.dial), set_);
        assert all[..i] == tried && r.dialed[..i] == r.dialed[..i + 1][..i];
      }
    }
  }

  /** Each acquisition is a real attempt: of the keys of the call's provider that were not tried
      and that neither bench nor cooldown holds, those without a failure are candidates, and the
      failed ones that no probe is out for are to be probed. */
  lemma {:induction false} AsksFor(p: Pool, rows: seq<Row>, call: Call, tried: seq<KeyId>, own: Policy, now: int,
                                   row: Row)
    ensures var opts, mine := OptionsOf(call, tried), OfProvider(rows, Resolved(call.provider));
            var may := row in rows && row.id !in tried && MayServe(p, row, opts, now);
            var failed := Effective(p, row.id).reason != NoClass;
            && ((exists c :: c in Actives(p, mine, opts, now) && c.row == row) <==> may && !failed)
            && ((exists c :: c in Probes(p, mine, opts, now) && c.row == row) <==>
                  may && failed && !RuntimeOf(p, row.id).probing)
            && opts.affinity == call.affinity && PolicyOf(opts, own) == call.policy
  {
    hide Actives, Probes, Effective;
    CandidateIff(p, rows, OptionsOf(call, tried), now, row);
  }

  /** A dial is held against its key exactly if it is heard and the upstream refused it with
      401, or, when no egress proxy stands between, with 429 or a 5xx outside a storm. */
  lemma {:induction false} BlamesIff(p: Pool, call: Call, a: Attempt, k: Selected)
    ensures CountedFailure(p, OutcomeOf(call, a, k), a.io) <==>
            && k.id != "" && !a.io.cancelled && a.io.loads && a.dial.Refused?
            && (a.dial.code == 401
                || (!call.egress && (a.dial.code == 429
                    || (a.dial.code >= 500
                        && !Storm(Pruned(WindowOf(p, ProviderOf(OutcomeOf(call, a, k))), a.doneAt))))))
  {
    hide Storm, Pruned;
    CountedIff(p, OutcomeOf(call, a, k), a.io);
  }

  /** What a dial reports: its key and provider, whether it was a probe, how long it took, and
      when it ended; an egress proxy takes the blame for 403, 429 and 5xx. */
  lemma {:induction false} Reports(call: Call, a: Attempt, k: Selected)
    ensures var o := OutcomeOf(call, a, k);
            && o.id == k.id && o.provider == k.provider && o.probing == k.probing
            && o.latency == a.doneAt - a.startedAt && o.now == a.doneAt
            && o.dial == if call.egress && a.dial.Refused?
                            && (a.dial.code == 403 || a.dial.code == 429 || a.dial.code >= 500)
                         then EgressFault else a.dial
  {
  }
}
