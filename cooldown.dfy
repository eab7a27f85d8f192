// Alert de-duplication: an opportunity's fingerprint, the cooldown during
// which a repeat of the same fingerprint is not alerted again, the pruning
// of stale fingerprints, and the session's best profit.
module Cooldown {
  import opened ArbTypes

  /** Seconds during which an alerted fingerprint is not alerted again. */
  const CooldownSecs: real := 600.0

  /** `home-bookie1-bookie2-team1`: the identity of an alert. */
  function Fingerprint(o: Opportunity): string {
    o.fixture.home + "-" + o.bookie1 + "-" + o.bookie2 + "-" + o.team1
  }

  /** An alert for `key` at `now` goes out unless `key` was alerted less than the cooldown ago. */
  predicate Admits(seen: map<string, real>, key: string, now: real) {
    key !in seen || now - seen[key] >= CooldownSecs
  }

  /** The fingerprints still within their cooldown at `now`. */
  function Evicted(seen: map<string, real>, now: real): map<string, real> {
    map k | k in seen && now - seen[k] < CooldownSecs :: seen[k]
  }

  /** What a run of alert decisions sends, and the fingerprint times it leaves. */
  datatype Run = Run(emitted: seq<Opportunity>, seen: map<string, real>)

  /**
   * The alert loop over `opps`, the k-th decided at `times[k]`: an
   * admitted opportunity is sent and its fingerprint stamped with the
   * time; a suppressed one changes nothing.
   */
  function AlertRun(seen: map<string, real>, opps: seq<Opportunity>, times: seq<real>): Run
    requires |times| == |opps|
    decreases |opps|
  {
    if opps == [] then Run([], seen)
    else
      var r := AlertRun(seen, opps[..|opps| - 1], times[..|times| - 1]);
      var o, now := opps[|opps| - 1], times[|times| - 1];
      if Admits(r.seen, Fingerprint(o), now) then Run(r.emitted + [o], r.seen[Fingerprint(o) := now])
      else r
  }

  /** One more decision, on the (k+1)-th opportunity. */
  lemma AlertRunStep(seen: map<string, real>, opps: seq<Opportunity>, times: seq<real>, k: nat)
    requires |times| == |opps| && k < |opps|
    ensures var r := AlertRun(seen, opps[..k], times[..k]);
      var o, now := opps[k], times[k];
      AlertRun(seen, opps[..k + 1], times[..k + 1]) ==
        if Admits(r.seen, Fingerprint(o), now) then Run(r.emitted + [o], r.seen[Fingerprint(o) := now]) else r
  {
    assert opps[..k + 1][..k] == opps[..k] && times[..k + 1][..k] == times[..k];
  }

  /** The best profit after the sent opportunities `s`, starting from `best`. */
  function BestProfit(best: real, s: seq<Opportunity>): real
    decreases |s|
  {
    if s == [] then best
    else
      var b := BestProfit(best, s[..|s| - 1]);
      if s[|s| - 1].profitPct > b then s[|s| - 1].profitPct else b
  }

  /**
   * Pruning is invisible to later decisions: at any time from `now` on,
   * a fingerprint is admitted after pruning exactly when it was before;
   * and every fingerprint left is younger than the cooldown, with its
   * time unchanged.
   */
  lemma EvictedAdmits(seen: map<string, real>, now: real, later: real, key: string)
    requires now <= later
    ensures Admits(Evicted(seen, now), key, later) == Admits(seen, key, later)
    ensures key in Evicted(seen, now) ==>
      key in seen && Evicted(seen, now)[key] == seen[key] && now - seen[key] < CooldownSecs
  {
  }

  /** The sent opportunities are drawn from the input, at most one per input. */
  lemma {:induction false} AlertRunSubset(seen: map<string, real>, opps: seq<Opportunity>, times: seq<real>)
    requires |times| == |opps|
    ensures |AlertRun(seen, opps, times).emitted| <= |opps|
    ensures forall o :: o in AlertRun(seen, opps, times).emitted ==> o in opps
    ensures multiset(AlertRun(seen, opps, times).emitted) <= multiset(opps)
    decreases |opps|
  {
    if opps != [] {
      var front := opps[..|opps| - 1];
      AlertRunSubset(seen, front, times[..|times| - 1]);
      assert opps == front + [opps[|opps| - 1]];
      assert forall o :: o in front ==> o in opps;
    }
  }

  /**
   * Every sent opportunity's fingerprint is stamped with one of the run's
   * times, so with a time no earlier than any lower bound `t0` of them.
   */
  lemma {:induction false} AlertRunStamped(seen: map<string, real>, opps: seq<Opportunity>, times: seq<real>, t0: real)
    requires |times| == |opps|
    requires forall k :: 0 <= k < |times| ==> t0 <= times[k]
    ensures var r := AlertRun(seen, opps, times);
      forall o :: o in r.emitted ==> Fingerprint(o) in r.seen && r.seen[Fingerprint(o)] >= t0
    ensures var r := AlertRun(seen, opps, times);
      forall o :: o in r.emitted ==> exists k :: 0 <= k < |times| && r.seen[Fingerprint(o)] == times[k]
    decreases |opps|
  {
    if opps != [] {
      var ft := times[..|times| - 1];
      AlertRunStamped(seen, opps[..|opps| - 1], ft, t0);
      assert forall k :: 0 <= k < |ft| ==> ft[k] == times[k];
      assert times[|times| - 1] == times[|times| - 1];
    }
  }

  /**
   * Within one cooldown window no fingerprint is sent twice: when every
   * decision falls in [t0, t0 + 600), the sent opportunities have
   * pairwise different fingerprints.
   */
  lemma {:induction false} NoRepeatWithinCooldown(seen: map<string, real>, opps: seq<Opportunity>, times: seq<real>, t0: real)
    requires |times| == |opps|
    requires forall k :: 0 <= k < |times| ==> t0 <= times[k] < t0 + CooldownSecs
    ensures var e := AlertRun(seen, opps, times).emitted;
      forall i, j :: 0 <= i < j < |e| ==> Fingerprint(e[i]) != Fingerprint(e[j])
    decreases |opps|
  {
    if opps != [] {
      var front, ft := opps[..|opps| - 1], times[..|times| - 1];
      var o, now := opps[|opps| - 1], times[|times| - 1];
      var r := AlertRun(seen, front, ft);
      NoRepeatWithinCooldown(seen, front, ft, t0);
      if Admits(r.seen, Fingerprint(o), now) {
        AlertRunStamped(seen, front, ft, t0);
        var e := r.emitted + [o];
        assert AlertRun(seen, opps, times).emitted == e;
        assert t0 <= now < t0 + CooldownSecs;
        forall i, j | 0 <= i < j < |e| ensures Fingerprint(e[i]) != Fingerprint(e[j]) {
          if j == |e| - 1 {
            assert e[i] in r.emitted;
            assert Fingerprint(e[i]) in r.seen && r.seen[Fingerprint(e[i])] >= t0;
          }
        }
      }
    }
  }

  /** The run leaves the times of fingerprints it never decides on as they were. */
  lemma {:induction false} AlertRunOtherKeys(seen: map<string, real>, opps: seq<Opportunity>, times: seq<real>, key: string)
    requires |times| == |opps|
    requires forall k :: 0 <= k < |opps| ==> Fingerprint(opps[k]) != key
    ensures var r := AlertRun(seen, opps, times);
      (key in r.seen <==> key in seen) && (key in seen ==> r.seen[key] == seen[key])
    decreases |opps|
  {
    if opps != [] {
      AlertRunOtherKeys(seen, opps[..|opps| - 1], times[..|times| - 1], key);
    }
  }

  /**
   * Opportunities with pairwise different fingerprints, each admitted by
   * the times recorded before the run, are all sent, in order.
   */
  lemma {:induction false} FreshAllSent(seen: map<string, real>, opps: seq<Opportunity>, times: seq<real>)
    requires |times| == |opps|
    requires forall i, j :: 0 <= i < j < |opps| ==> Fingerprint(opps[i]) != Fingerprint(opps[j])
    requires forall k :: 0 <= k < |opps| ==> Admits(seen, Fingerprint(opps[k]), times[k])
    ensures AlertRun(seen, opps, times).emitted == opps
    decreases |opps|
  {
    if opps != [] {
      var front, ft := opps[..|opps| - 1], times[..|times| - 1];
      var o := opps[|opps| - 1];
      FreshAllSent(seen, front, ft);
      AlertRunOtherKeys(seen, front, ft, Fingerprint(o));
      assert front + [o] == opps;
    }
  }

  /**
   * The best profit is a running maximum: at least the starting value and
   * every sent profit, and equal to one of them.
   */
  lemma {:induction false} BestProfitIsMax(best: real, s: seq<Opportunity>)
    ensures BestProfit(best, s) >= best
    ensures forall o :: o in s ==> BestProfit(best, s) >= o.profitPct
    ensures BestProfit(best, s) == best || exists o :: o in s && BestProfit(best, s) == o.profitPct
    decreases |s|
  {
    if s != [] {
      var front := s[..|s| - 1];
      BestProfitIsMax(best, front);
      assert s == front + [s[|s| - 1]];
    }
  }

  /**
   * The same opportunity found at t, t + 599 and t + 600: sent the first
   * time, suppressed the second, sent again the third.
   */
  lemma CooldownExample(o: Opportunity, t: real)
    ensures AlertRun(map[], [o, o], [t, t + 599.0]).emitted == [o]
    ensures AlertRun(map[], [o, o, o], [t, t + 599.0, t + 600.0]).emitted == [o, o]
  {
    var key := Fingerprint(o);
    assert [o][..0] == [] && [t][..0] == [];
    var r0 := AlertRun(map[], [], []);
    assert r0 == Run([], map[]);
    assert Admits(r0.seen, key, t);
    var r1 := AlertRun(map[], [o], [t]);
    assert r1 == Run(r0.emitted + [o], r0.seen[key := t]);
    assert r1.emitted == [o] && key in r1.seen && r1.seen[key] == t;
    assert [o, o][..1] == [o] && [t, t + 599.0][..1] == [t];
    var r2 := AlertRun(map[], [o, o], [t, t + 599.0]);
    assert r2 == r1;
    assert [o, o, o][..2] == [o, o] && [t, t + 599.0, t + 600.0][..2] == [t, t + 599.0];
    assert AlertRun(map[], [o, o, o], [t, t + 599.0, t + 600.0]).emitted == r2.emitted + [o];
  }
}
