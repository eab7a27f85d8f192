// Pairwise arbitrage detection for one event: every unordered pair of
// bookmakers in table order, the two cross assignments of the first two
// shared outcome names, the implied-probability test, the profit threshold,
// the stakes, and the per-event ranking.
module ArbEvaluator {
  import opened ArbTypes
  import opened BookieOdds
  import opened Ranking

  /**
   * The iteration order of a set of shared outcome names, which the
   * scanner takes as given: `order(bk1, bk2, s)` lists the set `s` built
   * for the pair (bk1, bk2). Every result below holds for every order.
   */
  type SetOrder = (string, string, set<string>) -> seq<string>

  /** `xs` lists every element of `s` exactly once. */
  predicate Lists(s: set<string>, xs: seq<string>) {
    && |xs| == |s|
    && (forall i :: 0 <= i < |xs| ==> xs[i] in s)
    && (forall i, j :: 0 <= i < j < |xs| ==> xs[i] != xs[j])
  }

  ghost predicate ListsEverySet(order: SetOrder) {
    forall bk1, bk2, s :: Lists(s, order(bk1, bk2, s))
  }

  /**
   * One cross assignment: `t1` at `e1` against `t2` at `e2`. A zero odd
   * is skipped; otherwise the combination is kept when the implied
   * probabilities sum below one and the profit reaches `minProfit`.
   */
  function Evaluate(fx: Fixture, e1: Entry, t1: string, e2: Entry, t2: string, minProfit: real): (kept: Option<Opportunity>)
    requires t1 in e1.odds && t2 in e2.odds
    requires e1.odds[t1] >= 0.0 && e2.odds[t2] >= 0.0
  {
    var odd1, odd2 := e1.odds[t1], e2.odds[t2];
    if odd1 == 0.0 || odd2 == 0.0 then None
    else
      var prob1 := 1.0 / odd1;
      var prob2 := 1.0 / odd2;
      var total := prob1 + prob2;
      if total >= 1.0 then None
      else
        var profitPct := (1.0 / total - 1.0) * 100.0;
        if profitPct < minProfit then None
        else
          Some(Opportunity(fx,
            e1.key, t1, odd1, (Bankroll * prob1) / total,
            e2.key, t2, odd2, (Bankroll * prob2) / total,
            profitPct, Bankroll * (1.0 / total - 1.0),
            e1.key in PriorityBooks || e2.key in PriorityBooks))
  }

  /** The stake identities of a two-way arbitrage with positive odds `a` and `b`. */
  lemma CoverArithmetic(a: real, b: real)
    requires a > 0.0 && b > 0.0 && 1.0 / a + 1.0 / b < 1.0
    ensures var total := 1.0 / a + 1.0 / b;
      && total > 0.0
      && (Bankroll * (1.0 / a)) / total + (Bankroll * (1.0 / b)) / total == Bankroll
      && ((Bankroll * (1.0 / a)) / total) * a == Bankroll + Bankroll * (1.0 / total - 1.0)
      && ((Bankroll * (1.0 / b)) / total) * b == Bankroll + Bankroll * (1.0 / total - 1.0)
      && (1.0 / total - 1.0) * 100.0 == Bankroll * (1.0 / total - 1.0) * 100.0 / Bankroll
      && Bankroll * (1.0 / total - 1.0) > 0.0
  {
    var p1, p2 := 1.0 / a, 1.0 / b;
    var total := p1 + p2;
    assert p1 * a == 1.0 && p2 * b == 1.0;
    assert total > 0.0;
    var inv := 1.0 / total;
    assert inv * total == 1.0;
    assert inv > 1.0;
    assert (Bankroll * p1) / total == Bankroll * p1 * inv;
    assert (Bankroll * p2) / total == Bankroll * p2 * inv;
    assert Bankroll * p1 * inv + Bankroll * p2 * inv == Bankroll * inv * total;
    assert (Bankroll * p1 * inv) * a == Bankroll * inv * (p1 * a);
    assert (Bankroll * p2 * inv) * b == Bankroll * inv * (p2 * b);
  }

  /** `a + b < a * b` is the arbitrage condition for odds `a`, `b` without division. */
  lemma ArbConditionIff(a: real, b: real)
    requires a > 0.0 && b > 0.0
    ensures 1.0 / a + 1.0 / b < 1.0 <==> a + b < a * b
    ensures 1.0 / a + 1.0 / b < 1.0 ==> 1.0 / (1.0 / a + 1.0 / b) == a * b / (a + b)
  {
    var p1, p2 := 1.0 / a, 1.0 / b;
    var q := a * b;
    assert p1 * a == 1.0 && p2 * b == 1.0;
    assert (p1 + p2) * q == a + b by {
      assert (p1 + p2) * q == (p1 * a) * b + (p2 * b) * a;
    }
    assert q > 0.0;
    if p1 + p2 < 1.0 {
      var e := 1.0 - (p1 + p2);
      assert e * q > 0.0;
      assert e * q == q - (a + b);
      var total := p1 + p2;
      assert total > 0.0;
      assert (1.0 / total) * (a + b) == (1.0 / total) * total * q;
      assert (1.0 / total) * total == 1.0;
    } else {
      var e := (p1 + p2) - 1.0;
      assert e * q >= 0.0;
      assert e * q == (a + b) - q;
    }
  }

  /**
   * A kept combination is a covering arbitrage on the given quotes:
   * positive odds read from the two bookmakers for the named outcomes,
   * equal payout, stakes summing to the bankroll, and a profit of at
   * least `minProfit` percent.
   */
  lemma EvaluateSound(fx: Fixture, e1: Entry, t1: string, e2: Entry, t2: string, minProfit: real)
    requires t1 in e1.odds && t2 in e2.odds
    requires e1.odds[t1] >= 0.0 && e2.odds[t2] >= 0.0
    ensures match Evaluate(fx, e1, t1, e2, t2, minProfit)
      case None => true
      case Some(o) =>
        && o.fixture == fx
        && o.bookie1 == e1.key && o.team1 == t1 && o.odd1 == e1.odds[t1]
        && o.bookie2 == e2.key && o.team2 == t2 && o.odd2 == e2.odds[t2]
        && IsCoveringArb(o) && o.profitPct >= minProfit
  {
    var odd1, odd2 := e1.odds[t1], e2.odds[t2];
    if odd1 != 0.0 && odd2 != 0.0 && 1.0 / odd1 + 1.0 / odd2 < 1.0 {
      CoverArithmetic(odd1, odd2);
    }
  }

  /**
   * Both directions: a combination is kept exactly when both odds are
   * positive, `odd1 + odd2 < odd1 * odd2`, and the guaranteed payout
   * factor `odd1 * odd2 / (odd1 + odd2)` beats 1 by at least
   * `minProfit` percent.
   */
  lemma EvaluateExact(fx: Fixture, e1: Entry, t1: string, e2: Entry, t2: string, minProfit: real)
    requires t1 in e1.odds && t2 in e2.odds
    requires e1.odds[t1] >= 0.0 && e2.odds[t2] >= 0.0
    ensures var a, b := e1.odds[t1], e2.odds[t2];
      Evaluate(fx, e1, t1, e2, t2, minProfit).Some? <==>
        a > 0.0 && b > 0.0 && a + b < a * b && (a * b / (a + b) - 1.0) * 100.0 >= minProfit
  {
    var a, b := e1.odds[t1], e2.odds[t2];
    if a > 0.0 && b > 0.0 {
      ArbConditionIff(a, b);
    }
  }

  /** Raising the threshold only drops combinations; kept ones are unchanged. */
  lemma EvaluateThreshold(fx: Fixture, e1: Entry, t1: string, e2: Entry, t2: string, low: real, high: real)
    requires t1 in e1.odds && t2 in e2.odds
    requires e1.odds[t1] >= 0.0 && e2.odds[t2] >= 0.0
    requires low <= high
    ensures AsSeq(Evaluate(fx, e1, t1, e2, t2, high)) == AtLeast(AsSeq(Evaluate(fx, e1, t1, e2, t2, low)), high)
  {
  }

  function AsSeq(r: Option<Opportunity>): seq<Opportunity> {
    if r.Some? then [r.value] else []
  }

  /** The elements of `s` whose profit reaches `minProfit`, in order. */
  function AtLeast(s: seq<Opportunity>, minProfit: real): (passing: seq<Opportunity>)
    decreases |s|
  {
    if s == [] then []
    else (if s[0].profitPct >= minProfit then [s[0]] else []) + AtLeast(s[1..], minProfit)
  }

  lemma {:induction false} AtLeastConcat(a: seq<Opportunity>, b: seq<Opportunity>, minProfit: real)
    ensures AtLeast(a + b, minProfit) == AtLeast(a, minProfit) + AtLeast(b, minProfit)
    decreases |a|
  {
    if a == [] {
      assert a + b == b;
    } else {
      var ab := a + b;
      assert ab[0] == a[0] && ab[1..] == a[1..] + b;
      var h := if a[0].profitPct >= minProfit then [a[0]] else [];
      var x, y := AtLeast(a[1..], minProfit), AtLeast(b, minProfit);
      assert AtLeast(ab, minProfit) == h + AtLeast(a[1..] + b, minProfit);
      AtLeastConcat(a[1..], b, minProfit);
      assert h + (x + y) == (h + x) + y;
    }
  }

  lemma {:induction false} AtLeastShorter(s: seq<Opportunity>, minProfit: real)
    ensures |AtLeast(s, minProfit)| <= |s|
    decreases |s|
  {
    if s != [] {
      AtLeastShorter(s[1..], minProfit);
    }
  }

  /** The opportunities of the pair (t[i], t[j]). */
  function PairOpps(fx: Fixture, t: Table, i: nat, j: nat, order: SetOrder, minProfit: real): (opps: seq<Opportunity>)
    requires i < j < |t| && NonNegative(t) && ListsEverySet(order)
  {
    var shared := t[i].odds.Keys * t[j].odds.Keys;
    var teams := order(t[i].key, t[j].key, shared);
    assert Lists(shared, teams);
    assert t[i] in t && t[j] in t;
    if |teams| < 2 then []
    else
      AsSeq(Evaluate(fx, t[i], teams[0], t[j], teams[1], minProfit)) +
      AsSeq(Evaluate(fx, t[i], teams[1], t[j], teams[0], minProfit))
  }

  /**
   * `o` comes from the pair (t[i], t[j]): it bets on two different outcome
   * names quoted by both bookmakers, at their odds, and is a covering
   * arbitrage reaching the threshold.
   */
  ghost predicate FromPair(o: Opportunity, fx: Fixture, t: Table, i: nat, j: nat, minProfit: real) {
    && i < j < |t|
    && o.fixture == fx
    && o.bookie1 == t[i].key && o.bookie2 == t[j].key
    && o.team1 != o.team2
    && o.team1 in t[i].odds.Keys * t[j].odds.Keys
    && o.team2 in t[i].odds.Keys * t[j].odds.Keys
    && o.odd1 == t[i].odds[o.team1] && o.odd2 == t[j].odds[o.team2]
    && IsCoveringArb(o) && o.profitPct >= minProfit
  }

  ghost predicate FromSomePair(o: Opportunity, fx: Fixture, t: Table, minProfit: real) {
    exists i, j :: FromPair(o, fx, t, i, j, minProfit)
  }

  /** A pair yields at most two opportunities, each from that pair. */
  lemma PairOppsSound(fx: Fixture, t: Table, i: nat, j: nat, order: SetOrder, minProfit: real)
    requires i < j < |t| && NonNegative(t) && ListsEverySet(order)
    ensures |PairOpps(fx, t, i, j, order, minProfit)| <= 2
    ensures forall o :: o in PairOpps(fx, t, i, j, order, minProfit) ==> FromPair(o, fx, t, i, j, minProfit)
  {
    var shared := t[i].odds.Keys * t[j].odds.Keys;
    var teams := order(t[i].key, t[j].key, shared);
    assert Lists(shared, teams);
    assert t[i] in t && t[j] in t;
    if |teams| >= 2 {
      assert teams[0] != teams[1];
      EvaluateSound(fx, t[i], teams[0], t[j], teams[1], minProfit);
      EvaluateSound(fx, t[i], teams[1], t[j], teams[0], minProfit);
    }
  }

  /** Raising the threshold filters a pair's opportunities. */
  lemma PairOppsThreshold(fx: Fixture, t: Table, i: nat, j: nat, order: SetOrder, low: real, high: real)
    requires i < j < |t| && NonNegative(t) && ListsEverySet(order) && low <= high
    ensures PairOpps(fx, t, i, j, order, high) == AtLeast(PairOpps(fx, t, i, j, order, low), high)
  {
    var shared := t[i].odds.Keys * t[j].odds.Keys;
    var teams := order(t[i].key, t[j].key, shared);
    assert Lists(shared, teams);
    assert t[i] in t && t[j] in t;
    if |teams| >= 2 {
      EvaluateThreshold(fx, t[i], teams[0], t[j], teams[1], low, high);
      EvaluateThreshold(fx, t[i], teams[1], t[j], teams[0], low, high);
      AtLeastConcat(AsSeq(Evaluate(fx, t[i], teams[0], t[j], teams[1], low)),
                    AsSeq(Evaluate(fx, t[i], teams[1], t[j], teams[0], low)), high);
    }
  }

  /** The opportunities of the pair (t[i], t[j]) as a function of the two indices. */
  function PairsOf(fx: Fixture, t: Table, order: SetOrder, minProfit: real): (nat, nat) -> seq<Opportunity>
    requires NonNegative(t) && ListsEverySet(order)
  {
    (i: nat, j: nat) => if i < j < |t| then PairOpps(fx, t, i, j, order, minProfit) else []
  }

  /** Row i of `combinations`: the pairs (i, j) for i < j < k, in order of j. */
  function Row(pair: (nat, nat) -> seq<Opportunity>, i: nat, k: nat): seq<Opportunity>
    requires i < k
    decreases k
  {
    if k == i + 1 then [] else Row(pair, i, k - 1) + pair(i, k - 1)
  }

  /** Rows 0..m-1 of `combinations` over n items, in order. */
  function Accumulated(pair: (nat, nat) -> seq<Opportunity>, n: nat, m: nat): seq<Opportunity>
    requires m <= n
    decreases m
  {
    if m == 0 then [] else Accumulated(pair, n, m - 1) + Row(pair, m - 1, n)
  }

  /** The opportunities accumulated over all bookmaker pairs of the table. */
  function Found(fx: Fixture, t: Table, order: SetOrder, minProfit: real): (found: seq<Opportunity>)
    requires NonNegative(t) && ListsEverySet(order)
  {
    Accumulated(PairsOf(fx, t, order, minProfit), |t|, |t|)
  }

  /** An opportunity in row i comes from some pair (i, j) of the row. */
  lemma {:induction false} RowSource(pair: (nat, nat) -> seq<Opportunity>, i: nat, k: nat, o: Opportunity)
    returns (j: nat)
    requires i < k && o in Row(pair, i, k)
    ensures i < j < k && o in pair(i, j)
    decreases k
  {
    var front := Row(pair, i, k - 1);
    assert Row(pair, i, k) == front + pair(i, k - 1);
    if o in front {
      j := RowSource(pair, i, k - 1, o);
    } else {
      j := k - 1;
    }
  }

  /** Every opportunity of a pair (i, j) of the row is in row i. */
  lemma {:induction false} RowHas(pair: (nat, nat) -> seq<Opportunity>, i: nat, j: nat, k: nat, o: Opportunity)
    requires i < j < k && o in pair(i, j)
    ensures o in Row(pair, i, k)
    decreases k
  {
    var front := Row(pair, i, k - 1);
    assert Row(pair, i, k) == front + pair(i, k - 1);
    if j < k - 1 {
      RowHas(pair, i, j, k - 1, o);
    }
  }

  /** An accumulated opportunity comes from some pair (i, j) with i < m. */
  lemma {:induction false} AccumulatedSource(pair: (nat, nat) -> seq<Opportunity>, n: nat, m: nat, o: Opportunity)
    returns (i: nat, j: nat)
    requires m <= n && o in Accumulated(pair, n, m)
    ensures i < m && i < j < n && o in pair(i, j)
    decreases m
  {
    var front, row := Accumulated(pair, n, m - 1), Row(pair, m - 1, n);
    assert Accumulated(pair, n, m) == front + row;
    if o in front {
      i, j := AccumulatedSource(pair, n, m - 1, o);
    } else {
      i := m - 1;
      j := RowSource(pair, m - 1, n, o);
    }
  }

  /** Every opportunity of a pair (i, j) with i < m is accumulated. */
  lemma {:induction false} AccumulatedHas(pair: (nat, nat) -> seq<Opportunity>, n: nat, m: nat, i: nat, j: nat, o: Opportunity)
    requires m <= n && i < m && i < j < n && o in pair(i, j)
    ensures o in Accumulated(pair, n, m)
    decreases m
  {
    var p := m - 1;
    var front, row := Accumulated(pair, n, p), Row(pair, p, n);
    assert Accumulated(pair, n, m) == front + row;
    if i < p {
      AccumulatedHas(pair, n, p, i, j, o);
      assert o in front;
    } else {
      RowHas(pair, i, j, n, o);
      assert o in row;
    }
  }

  lemma {:induction false} RowBound(pair: (nat, nat) -> seq<Opportunity>, i: nat, k: nat)
    requires i < k
    requires forall j: nat :: i < j < k ==> |pair(i, j)| <= 2
    ensures |Row(pair, i, k)| <= 2 * (k - i - 1)
    decreases k
  {
    if k > i + 1 {
      RowBound(pair, i, k - 1);
    }
  }

  /** The number of pairs (i, j) with i < m and i < j < n. */
  function PairCount(m: nat, n: nat): nat
    requires m <= n
  {
    if m == 0 then 0 else PairCount(m - 1, n) + (n - m)
  }

  lemma {:induction false} PairCountAll(m: nat, n: nat)
    requires m <= n
    ensures 2 * PairCount(m, n) == m * (2 * n - m - 1)
  {
    if m > 0 {
      PairCountAll(m - 1, n);
    }
  }

  /** With at most two opportunities per pair, rows 0..m-1 hold at most two per pair. */
  lemma {:induction false} AccumulatedBound(pair: (nat, nat) -> seq<Opportunity>, n: nat, m: nat)
    requires m <= n
    requires forall i: nat, j: nat :: i < j < n ==> |pair(i, j)| <= 2
    ensures |Accumulated(pair, n, m)| <= 2 * PairCount(m, n)
    decreases m
  {
    if m > 0 {
      AccumulatedBound(pair, n, m - 1);
      RowBound(pair, m - 1, n);
    }
  }

  lemma {:induction false} RowFilter(low: (nat, nat) -> seq<Opportunity>, high: (nat, nat) -> seq<Opportunity>,
                                     minProfit: real, i: nat, k: nat)
    requires i < k
    requires forall j: nat :: i < j < k ==> high(i, j) == AtLeast(low(i, j), minProfit)
    ensures Row(high, i, k) == AtLeast(Row(low, i, k), minProfit)
    decreases k
  {
    if k > i + 1 {
      RowFilter(low, high, minProfit, i, k - 1);
      AtLeastConcat(Row(low, i, k - 1), low(i, k - 1), minProfit);
    }
  }

  /** When each pair's list is another's filtered by profit, so is the accumulated list. */
  lemma {:induction false} AccumulatedFilter(low: (nat, nat) -> seq<Opportunity>, high: (nat, nat) -> seq<Opportunity>,
                                             minProfit: real, n: nat, m: nat)
    requires m <= n
    requires forall i: nat, j: nat :: i < j < n ==> high(i, j) == AtLeast(low(i, j), minProfit)
    ensures Accumulated(high, n, m) == AtLeast(Accumulated(low, n, m), minProfit)
    decreases m
  {
    if m > 0 {
      AccumulatedFilter(low, high, minProfit, n, m - 1);
      RowFilter(low, high, minProfit, m - 1, n);
      AtLeastConcat(Accumulated(low, n, m - 1), Row(low, m - 1, n), minProfit);
    }
  }

  /** Every accumulated opportunity comes from some pair (i, j) of the table. */
  lemma FoundSource(fx: Fixture, t: Table, order: SetOrder, minProfit: real, o: Opportunity)
    returns (i: nat, j: nat)
    requires NonNegative(t) && ListsEverySet(order)
    requires o in Found(fx, t, order, minProfit)
    ensures i < j < |t| && o in PairOpps(fx, t, i, j, order, minProfit)
  {
    var pair := PairsOf(fx, t, order, minProfit);
    i, j := AccumulatedSource(pair, |t|, |t|, o);
  }

  /** Every opportunity of every pair (i, j) of the table is accumulated. */
  lemma FoundHas(fx: Fixture, t: Table, order: SetOrder, minProfit: real, i: nat, j: nat, o: Opportunity)
    requires NonNegative(t) && ListsEverySet(order)
    requires i < j < |t| && o in PairOpps(fx, t, i, j, order, minProfit)
    ensures o in Found(fx, t, order, minProfit)
  {
    var pair := PairsOf(fx, t, order, minProfit);
    assert o in pair(i, j);
    AccumulatedHas(pair, |t|, |t|, i, j, o);
  }

  /**
   * Every accumulated opportunity is a covering arbitrage reaching the
   * threshold, taken from two bookmakers of the table (different ones
   * when the table's keys are unique) on two different outcome names
   * quoted by both.
   */
  lemma FoundSound(fx: Fixture, t: Table, order: SetOrder, minProfit: real, o: Opportunity)
    requires NonNegative(t) && ListsEverySet(order)
    requires o in Found(fx, t, order, minProfit)
    ensures FromSomePair(o, fx, t, minProfit)
    ensures UniqueKeys(t) ==> o.bookie1 != o.bookie2
  {
    var i, j := FoundSource(fx, t, order, minProfit, o);
    PairOppsSound(fx, t, i, j, order, minProfit);
    assert FromPair(o, fx, t, i, j, minProfit);
  }

  /** An event with n bookmakers in the table yields at most n * (n - 1) opportunities. */
  lemma FoundBound(fx: Fixture, t: Table, order: SetOrder, minProfit: real)
    requires NonNegative(t) && ListsEverySet(order)
    ensures |Found(fx, t, order, minProfit)| <= |t| * (|t| - 1)
  {
    var pair := PairsOf(fx, t, order, minProfit);
    forall i: nat, j: nat | i < j < |t| ensures |pair(i, j)| <= 2 {
      PairOppsSound(fx, t, i, j, order, minProfit);
    }
    AccumulatedBound(pair, |t|, |t|);
    PairCountAll(|t|, |t|);
  }

  /** Raising the threshold from `low` to `high` filters the list by the higher threshold. */
  lemma FoundThreshold(fx: Fixture, t: Table, order: SetOrder, low: real, high: real)
    requires NonNegative(t) && ListsEverySet(order) && low <= high
    ensures Found(fx, t, order, high) == AtLeast(Found(fx, t, order, low), high)
  {
    var lo, hi := PairsOf(fx, t, order, low), PairsOf(fx, t, order, high);
    forall i: nat, j: nat | i < j < |t| ensures hi(i, j) == AtLeast(lo(i, j), high) {
      PairOppsThreshold(fx, t, i, j, order, low, high);
    }
    AccumulatedFilter(lo, hi, high, |t|, |t|);
  }

  lemma {:induction false} AtLeastMembers(s: seq<Opportunity>, minProfit: real)
    ensures multiset(AtLeast(s, minProfit)) <= multiset(s)
    ensures forall o :: o in AtLeast(s, minProfit) <==> o in s && o.profitPct >= minProfit
    decreases |s|
  {
    if s != [] {
      AtLeastMembers(s[1..], minProfit);
      assert s == [s[0]] + s[1..];
    }
  }

  /** Ranking a filtered list gives a sub-multiset of the ranked whole. */
  lemma RankedFilterCount(lo: seq<Opportunity>, hi: seq<Opportunity>, minProfit: real)
    requires hi == AtLeast(lo, minProfit)
    ensures multiset(SortByRank(hi)) <= multiset(SortByRank(lo))
    ensures |SortByRank(hi)| <= |SortByRank(lo)|
  {
    AtLeastMembers(lo, minProfit);
    SortByRankCorrect(lo);
    SortByRankCorrect(hi);
    var rh, rl := multiset(SortByRank(hi)), multiset(SortByRank(lo));
    assert rl == rh + (rl - rh);
  }

  /** Ranking a filtered list keeps exactly the ranked elements that pass the filter. */
  lemma RankedFilterMembers(lo: seq<Opportunity>, hi: seq<Opportunity>, minProfit: real, o: Opportunity)
    requires hi == AtLeast(lo, minProfit)
    ensures o in SortByRank(hi) <==> o in SortByRank(lo) && o.profitPct >= minProfit
  {
    AtLeastMembers(lo, minProfit);
    SortByRankMembers(lo, o);
    SortByRankMembers(hi, o);
  }

  /** A table with fewer than two bookmakers yields nothing. */
  lemma FoundFewBookies(fx: Fixture, t: Table, order: SetOrder, minProfit: real)
    requires NonNegative(t) && ListsEverySet(order) && |t| < 2
    ensures Found(fx, t, order, minProfit) == []
  {
    var pair := PairsOf(fx, t, order, minProfit);
    if |t| == 1 {
      assert Accumulated(pair, 1, 1) == Accumulated(pair, 1, 0) + Row(pair, 0, 1);
    }
  }

  /**
   * The game's bookmaker table: one entry per bookmaker with a non-empty
   * h2h market, no empty price map, no negative price.
   */
  function EventTable(game: Game): (t: Table)
    requires PricesNonNegative(game.bookmakers)
    ensures WellFormed(t) && NonNegative(t)
    ensures KeysOf(t) == QuotingBookies(game.bookmakers)
  {
    CollectShape(game.bookmakers);
    Collect(game.bookmakers)
  }

  /**
   * `find_arb_opportunities`: the table of the game's h2h quotes, the
   * opportunities of every bookmaker pair in table order, ranked.
   */
  function EventOpportunities(game: Game, sport: string, order: SetOrder, minProfit: real): seq<Opportunity>
    requires PricesNonNegative(game.bookmakers) && ListsEverySet(order)
  {
    SortByRank(Found(FixtureOf(game, sport), EventTable(game), order, minProfit))
  }

  /** The first loop of the search: the table, market by market, in feed order. */
  method BuildTable(bms: seq<Bookmaker>) returns (table: Table)
    ensures table == Collect(bms)
  {
    table := [];
    for b := 0 to |bms|
      invariant table == Collect(bms[..b])
    {
      var bk := bms[b];
      assert bms[..b + 1][..b] == bms[..b];
      for k := 0 to |bk.markets|
        invariant table == PutMarkets(Collect(bms[..b]), bk.key, bk.markets[..k])
      {
        assert bk.markets[..k + 1][..k] == bk.markets[..k];
        var m := bk.markets[k];
        var odds := OddsMap(m.outcomes);
        if m.key == "h2h" && odds != map[] {
          table := Put(table, bk.key, odds);
        }
      }
      assert bk.markets[..|bk.markets|] == bk.markets;
    }
    assert bms[..|bms|] == bms;
  }

  /**
   * One pair of the search: the first two shared outcome names, then a
   * loop over both cross assignments that appends each kept combination.
   */
  method TryPair(fx: Fixture, table: Table, i: nat, j: nat, order: SetOrder, minProfit: real) returns (opps: seq<Opportunity>)
    requires i < j < |table| && NonNegative(table) && ListsEverySet(order)
    ensures opps == PairOpps(fx, table, i, j, order, minProfit)
  {
    var e1, e2 := table[i], table[j];
    var teams := order(e1.key, e2.key, e1.odds.Keys * e2.odds.Keys);
    assert Lists(e1.odds.Keys * e2.odds.Keys, teams);
    assert e1 in table && e2 in table;
    opps := [];
    if |teams| < 2 {
      return;
    }
    var assignments := [(teams[0], teams[1]), (teams[1], teams[0])];
    for a := 0 to 2
      invariant opps ==
        (if a >= 1 then AsSeq(Evaluate(fx, e1, teams[0], e2, teams[1], minProfit)) else []) +
        (if a >= 2 then AsSeq(Evaluate(fx, e1, teams[1], e2, teams[0], minProfit)) else [])
    {
      var (t1, t2) := assignments[a];
      opps := opps + AsSeq(Evaluate(fx, e1, t1, e2, t2, minProfit));
    }
  }

  /** The pairs (t[i], t[j]) for every j after i, in table order. */
  method ScanRow(fx: Fixture, table: Table, i: nat, order: SetOrder, minProfit: real) returns (row: seq<Opportunity>)
    requires i < |table| && NonNegative(table) && ListsEverySet(order)
    ensures row == Row(PairsOf(fx, table, order, minProfit), i, |table|)
  {
    ghost var pair := PairsOf(fx, table, order, minProfit);
    row := [];
    for j := i + 1 to |table|
      invariant row == Row(pair, i, j)
    {
      var opps := TryPair(fx, table, i, j, order, minProfit);
      row := row + opps;
    }
  }

  /** The pair loop of the search: every pair in `combinations` order, both cross assignments. */
  method ScanPairs(fx: Fixture, table: Table, order: SetOrder, minProfit: real) returns (found: seq<Opportunity>)
    requires NonNegative(table) && ListsEverySet(order)
    ensures found == Found(fx, table, order, minProfit)
  {
    ghost var pair := PairsOf(fx, table, order, minProfit);
    found := [];
    for i := 0 to |table|
      invariant found == Accumulated(pair, |table|, i)
    {
      var row := ScanRow(fx, table, i, order, minProfit);
      found := found + row;
    }
  }

  /**
   * The whole search: builds the table, returns early below two
   * bookmakers, tries every pair, and ranks the result.
   */
  method FindArbOpportunities(game: Game, sport: string, order: SetOrder, minProfit: real) returns (opps: seq<Opportunity>)
    requires PricesNonNegative(game.bookmakers) && ListsEverySet(order)
    ensures opps == EventOpportunities(game, sport, order, minProfit)
  {
    var fx := FixtureOf(game, sport);
    var table := BuildTable(game.bookmakers);
    assert table == EventTable(game);
    if |table| < 2 {
      FoundFewBookies(fx, table, order, minProfit);
      return [];
    }
    var found := ScanPairs(fx, table, order, minProfit);
    opps := SortByRank(found);
  }

  /**
   * Every reported opportunity is a covering arbitrage reaching the
   * threshold, for the game's labels, between two different bookmakers
   * that both quote an h2h market, on two different outcome names both
   * quote, at the odds in the table; the first bookmaker precedes the
   * second in the table.
   */
  lemma EventSound(game: Game, sport: string, order: SetOrder, minProfit: real, o: Opportunity)
    requires PricesNonNegative(game.bookmakers) && ListsEverySet(order)
    requires o in EventOpportunities(game, sport, order, minProfit)
    ensures FromSomePair(o, FixtureOf(game, sport), EventTable(game), minProfit)
    ensures IsCoveringArb(o) && o.profitPct >= minProfit && o.fixture == FixtureOf(game, sport)
    ensures o.bookie1 != o.bookie2 && o.team1 != o.team2
    ensures o.bookie1 in QuotingBookies(game.bookmakers) && o.bookie2 in QuotingBookies(game.bookmakers)
  {
    var fx, t := FixtureOf(game, sport), EventTable(game);
    SortByRankMembers(Found(fx, t, order, minProfit), o);
    FoundSound(fx, t, order, minProfit, o);
    var i: nat, j: nat :| FromPair(o, fx, t, i, j, minProfit);
    assert t[i] in t && t[j] in t;
  }

  /** Every opportunity of every bookmaker pair of the table is reported. */
  lemma EventComplete(game: Game, sport: string, order: SetOrder, minProfit: real, i: nat, j: nat)
    requires PricesNonNegative(game.bookmakers) && ListsEverySet(order)
    requires i < j < |EventTable(game)|
    ensures forall o :: o in PairOpps(FixtureOf(game, sport), EventTable(game), i, j, order, minProfit) ==>
        o in EventOpportunities(game, sport, order, minProfit)
  {
    var fx, t := FixtureOf(game, sport), EventTable(game);
    forall o | o in PairOpps(fx, t, i, j, order, minProfit)
      ensures o in EventOpportunities(game, sport, order, minProfit)
    {
      FoundHas(fx, t, order, minProfit, i, j, o);
      SortByRankMembers(Found(fx, t, order, minProfit), o);
    }
  }

  /**
   * The report is the pairs' opportunities reordered: non-increasing in
   * (has_priority, profit_pct), a permutation, and in table order among
   * equal keys.
   */
  lemma EventRanked(game: Game, sport: string, order: SetOrder, minProfit: real)
    requires PricesNonNegative(game.bookmakers) && ListsEverySet(order)
    ensures var found := Found(FixtureOf(game, sport), EventTable(game), order, minProfit);
      var r := EventOpportunities(game, sport, order, minProfit);
      && Ranked(r, RankOf)
      && multiset(r) == multiset(found)
      && forall rank :: WithRank(r, RankOf, rank) == WithRank(found, RankOf, rank)
  {
    SortByRankCorrect(Found(FixtureOf(game, sport), EventTable(game), order, minProfit));
  }

  /**
   * Fewer than two bookmakers with an h2h quote give no opportunity, and
   * n of them give at most n * (n - 1): two per pair.
   */
  lemma EventBound(game: Game, sport: string, order: SetOrder, minProfit: real)
    requires PricesNonNegative(game.bookmakers) && ListsEverySet(order)
    ensures var n := |QuotingBookies(game.bookmakers)|;
      && |EventOpportunities(game, sport, order, minProfit)| <= n * (n - 1)
      && (n < 2 ==> EventOpportunities(game, sport, order, minProfit) == [])
  {
    var fx, t := FixtureOf(game, sport), EventTable(game);
    KeysOfCount(t);
    SortByRankCorrect(Found(fx, t, order, minProfit));
    assert |SortByRank(Found(fx, t, order, minProfit))| == |Found(fx, t, order, minProfit)| by {
      assert |multiset(SortByRank(Found(fx, t, order, minProfit)))| == |multiset(Found(fx, t, order, minProfit))|;
    }
    FoundBound(fx, t, order, minProfit);
    if |t| < 2 {
      FoundFewBookies(fx, t, order, minProfit);
    }
  }

  /**
   * Raising the threshold keeps exactly the opportunities that reach the
   * higher one: the report at `high` is a sub-multiset of the report at
   * `low`, no longer, and holds every reported opportunity at `low` whose
   * profit reaches `high`.
   */
  lemma EventThreshold(game: Game, sport: string, order: SetOrder, low: real, high: real)
    requires PricesNonNegative(game.bookmakers) && ListsEverySet(order) && low <= high
    ensures multiset(EventOpportunities(game, sport, order, high)) <= multiset(EventOpportunities(game, sport, order, low))
    ensures |EventOpportunities(game, sport, order, high)| <= |EventOpportunities(game, sport, order, low)|
    ensures forall o :: o in EventOpportunities(game, sport, order, high) <==>
      o in EventOpportunities(game, sport, order, low) && o.profitPct >= high
  {
    var fx, t := FixtureOf(game, sport), EventTable(game);
    FoundThreshold(fx, t, order, low, high);
    var lo, hi := Found(fx, t, order, low), Found(fx, t, order, high);
    RankedFilterCount(lo, hi, high);
    forall o ensures o in SortByRank(hi) <==> o in SortByRank(lo) && o.profitPct >= high {
      RankedFilterMembers(lo, hi, high, o);
    }
  }

  /** The events fetched for one sport, with the sport label the alerts carry. */
  datatype SportFeed = SportFeed(sport: string, games: seq<Game>)

  predicate FeedsNonNegative(feeds: seq<SportFeed>) {
    forall f, g :: f in feeds && g in f.games ==> PricesNonNegative(g.bookmakers)
  }

  /** The per-event lists of one sport, concatenated in event order. */
  function SportOpportunities(sport: string, games: seq<Game>, order: SetOrder, minProfit: real): seq<Opportunity>
    requires forall g :: g in games ==> PricesNonNegative(g.bookmakers)
    requires ListsEverySet(order)
    decreases |games|
  {
    if games == [] then []
    else
      SportOpportunities(sport, games[..|games| - 1], order, minProfit) +
      EventOpportunities(games[|games| - 1], sport, order, minProfit)
  }

  /** One scan: every sport's list, concatenated in sport order, with no ranking across events. */
  function ScanOpportunities(feeds: seq<SportFeed>, order: SetOrder, minProfit: real): seq<Opportunity>
    requires FeedsNonNegative(feeds) && ListsEverySet(order)
    decreases |feeds|
  {
    if feeds == [] then []
    else
      var f := feeds[|feeds| - 1];
      ScanOpportunities(feeds[..|feeds| - 1], order, minProfit) + SportOpportunities(f.sport, f.games, order, minProfit)
  }

  /** The events of one sport, in the order fetched. */
  method GatherSport(sport: string, games: seq<Game>, order: SetOrder, minProfit: real) returns (opps: seq<Opportunity>)
    requires forall g :: g in games ==> PricesNonNegative(g.bookmakers)
    requires ListsEverySet(order)
    ensures opps == SportOpportunities(sport, games, order, minProfit)
  {
    opps := [];
    for g := 0 to |games|
      invariant opps == SportOpportunities(sport, games[..g], order, minProfit)
    {
      assert games[..g + 1][..g] == games[..g];
      var event := FindArbOpportunities(games[g], sport, order, minProfit);
      opps := opps + event;
    }
    assert games[..|games|] == games;
  }

  /** The scan loop over sports and their events. */
  method GatherOpportunities(feeds: seq<SportFeed>, order: SetOrder, minProfit: real) returns (all: seq<Opportunity>)
    requires FeedsNonNegative(feeds) && ListsEverySet(order)
    ensures all == ScanOpportunities(feeds, order, minProfit)
  {
    all := [];
    for f := 0 to |feeds|
      invariant all == ScanOpportunities(feeds[..f], order, minProfit)
    {
      assert feeds[..f + 1][..f] == feeds[..f];
      var opps := GatherSport(feeds[f].sport, feeds[f].games, order, minProfit);
      all := all + opps;
    }
    assert feeds[..|feeds|] == feeds;
  }

  lemma {:induction false} SportMembers(sport: string, games: seq<Game>, order: SetOrder, minProfit: real, o: Opportunity)
    requires forall g :: g in games ==> PricesNonNegative(g.bookmakers)
    requires ListsEverySet(order)
    ensures o in SportOpportunities(sport, games, order, minProfit) <==>
      exists g :: g in games && o in EventOpportunities(g, sport, order, minProfit)
    decreases |games|
  {
    if games != [] {
      var front, last := games[..|games| - 1], games[|games| - 1];
      var sf, ev := SportOpportunities(sport, front, order, minProfit), EventOpportunities(last, sport, order, minProfit);
      assert forall g :: g in games <==> g in front || g == last;
      assert SportOpportunities(sport, games, order, minProfit) == sf + ev;
      SportMembers(sport, front, order, minProfit, o);
    }
  }

  /**
   * An opportunity is in a scan exactly when it is in the list of some
   * event of some sport, under that sport's label.
   */
  lemma {:induction false} ScanMembers(feeds: seq<SportFeed>, order: SetOrder, minProfit: real, o: Opportunity)
    requires FeedsNonNegative(feeds) && ListsEverySet(order)
    ensures o in ScanOpportunities(feeds, order, minProfit) <==>
      exists f, g :: f in feeds && g in f.games && o in EventOpportunities(g, f.sport, order, minProfit)
    decreases |feeds|
  {
    if feeds != [] {
      var front, last := feeds[..|feeds| - 1], feeds[|feeds| - 1];
      var sf, sp := ScanOpportunities(front, order, minProfit), SportOpportunities(last.sport, last.games, order, minProfit);
      assert forall f :: f in feeds <==> f in front || f == last;
      assert ScanOpportunities(feeds, order, minProfit) == sf + sp;
      ScanMembers(front, order, minProfit, o);
      SportMembers(last.sport, last.games, order, minProfit, o);
    }
  }

  /** Scanning two runs of sports one after the other concatenates their lists. */
  lemma {:induction false} ScanConcat(a: seq<SportFeed>, b: seq<SportFeed>, order: SetOrder, minProfit: real)
    requires FeedsNonNegative(a + b) && ListsEverySet(order)
    ensures FeedsNonNegative(a) && FeedsNonNegative(b)
    ensures ScanOpportunities(a + b, order, minProfit) ==
      ScanOpportunities(a, order, minProfit) + ScanOpportunities(b, order, minProfit)
    decreases |b|
  {
    assert forall f :: f in a || f in b ==> f in a + b;
    if b == [] {
      assert a + b == a;
    } else {
      var front, last := b[..|b| - 1], b[|b| - 1];
      assert (a + b)[..|a + b| - 1] == a + front;
      assert forall f :: f in a + front ==> f in a + b;
      ScanConcat(a, front, order, minProfit);
    }
  }

  /**
   * Every opportunity of a scan is a covering arbitrage reaching the
   * threshold, between two different bookmakers on two different
   * outcomes, labelled with the sport and teams of an event it came from.
   */
  lemma ScanSound(feeds: seq<SportFeed>, order: SetOrder, minProfit: real, o: Opportunity)
    requires FeedsNonNegative(feeds) && ListsEverySet(order)
    requires o in ScanOpportunities(feeds, order, minProfit)
    ensures IsCoveringArb(o) && o.profitPct >= minProfit
    ensures o.bookie1 != o.bookie2 && o.team1 != o.team2
    ensures exists f, g :: f in feeds && g in f.games && o.fixture == FixtureOf(g, f.sport)
  {
    ScanMembers(feeds, order, minProfit, o);
    var f, g :| f in feeds && g in f.games && o in EventOpportunities(g, f.sport, order, minProfit);
    EventSound(g, f.sport, order, minProfit, o);
  }
}
