// Ranking of one event's opportunities: a stable sort in descending order
// of the key (has_priority, profit_pct). The sort is written once, over any
// element type and a key function, as the list sort with a key and
// reverse order is; the scanner sorts opportunities by RankOf.
module Ranking {
  import opened ArbTypes

  /** The sort key (has_priority, profit_pct). */
  datatype Rank = Rank(priority: bool, pct: real)

  /** Tuple order on keys, False below True: `a` is strictly above `b`. */
  predicate Above(a: Rank, b: Rank) {
    (a.priority && !b.priority) || (a.priority == b.priority && a.pct > b.pct)
  }

  function RankOf(o: Opportunity): Rank {
    Rank(o.hasPriority, o.profitPct)
  }

  /** Non-increasing in the key. */
  predicate Ranked<T>(s: seq<T>, key: T -> Rank) {
    forall i, j :: 0 <= i < j < |s| ==> !Above(key(s[j]), key(s[i]))
  }

  /** `[x]` when `x` has key `r`, otherwise nothing. */
  function OwnIfRank<T>(x: T, key: T -> Rank, r: Rank): seq<T> {
    if key(x) == r then [x] else []
  }

  /** The elements of `s` whose key is `r`, in their order in `s`. */
  function WithRank<T>(s: seq<T>, key: T -> Rank, r: Rank): seq<T>
    decreases |s|
  {
    if s == [] then [] else OwnIfRank(s[0], key, r) + WithRank(s[1..], key, r)
  }

  /** Places `x` after every element whose key is not below its own. */
  function Insert<T>(x: T, s: seq<T>, key: T -> Rank): seq<T>
    decreases |s|
  {
    if s == [] then [x]
    else if Above(key(x), key(s[0])) then [x] + s
    else [s[0]] + Insert(x, s[1..], key)
  }

  /** Insertion sort, taking the elements in list order. */
  function Sort<T>(s: seq<T>, key: T -> Rank): seq<T>
    decreases |s|
  {
    if s == [] then [] else Insert(s[|s| - 1], Sort(s[..|s| - 1], key), key)
  }

  /** The event's opportunities, best first. */
  function SortByRank(s: seq<Opportunity>): seq<Opportunity> {
    Sort(s, RankOf)
  }

  lemma {:induction false} WithRankConcat<T>(a: seq<T>, b: seq<T>, key: T -> Rank, r: Rank)
    ensures WithRank(a + b, key, r) == WithRank(a, key, r) + WithRank(b, key, r)
    decreases |a|
  {
    if a == [] {
      assert a + b == b;
    } else {
      var ab := a + b;
      assert ab[0] == a[0] && ab[1..] == a[1..] + b;
      var h, x, y := OwnIfRank(a[0], key, r), WithRank(a[1..], key, r), WithRank(b, key, r);
      assert WithRank(ab, key, r) == h + WithRank(a[1..] + b, key, r);
      WithRankConcat(a[1..], b, key, r);
      assert h + (x + y) == (h + x) + y;
    }
  }

  lemma WithRankCons<T>(x: T, s: seq<T>, key: T -> Rank, r: Rank)
    ensures WithRank([x] + s, key, r) == OwnIfRank(x, key, r) + WithRank(s, key, r)
  {
    assert ([x] + s)[0] == x && ([x] + s)[1..] == s;
  }

  lemma {:induction false} WithRankNone<T>(s: seq<T>, key: T -> Rank, r: Rank)
    requires forall k :: 0 <= k < |s| ==> key(s[k]) != r
    ensures WithRank(s, key, r) == []
    decreases |s|
  {
    if s != [] {
      WithRankNone(s[1..], key, r);
    }
  }

  lemma {:induction false} InsertPermutes<T>(x: T, s: seq<T>, key: T -> Rank)
    ensures multiset(Insert(x, s, key)) == multiset(s) + multiset{x}
    decreases |s|
  {
    if s != [] && !Above(key(x), key(s[0])) {
      InsertPermutes(x, s[1..], key);
      assert s == [s[0]] + s[1..];
    }
  }

  lemma {:induction false} InsertRanked<T>(x: T, s: seq<T>, key: T -> Rank)
    requires Ranked(s, key)
    ensures Ranked(Insert(x, s, key), key)
    decreases |s|
  {
    if s != [] && !Above(key(x), key(s[0])) {
      InsertRanked(x, s[1..], key);
      InsertPermutes(x, s[1..], key);
      var r := Insert(x, s, key);
      forall i, j | 0 <= i < j < |r| ensures !Above(key(r[j]), key(r[i])) {
        if i == 0 {
          assert r[j] in multiset(Insert(x, s[1..], key));
          assert r[j] == x || r[j] in s[1..];
        }
      }
    }
  }

  /** Inserting `x` appends it to the elements sharing its key. */
  lemma {:induction false} InsertWithRank<T>(x: T, s: seq<T>, key: T -> Rank, r: Rank)
    requires Ranked(s, key)
    ensures WithRank(Insert(x, s, key), key, r) == WithRank(s, key, r) + OwnIfRank(x, key, r)
    decreases |s|
  {
    var own := OwnIfRank(x, key, r);
    if s == [] {
      WithRankCons(x, s, key, r);
      assert Insert(x, s, key) == [x] + s;
    } else if Above(key(x), key(s[0])) {
      WithRankCons(x, s, key, r);
      if key(x) == r {
        forall k | 0 <= k < |s| ensures key(s[k]) != r {
          assert k > 0 ==> !Above(key(s[k]), key(s[0]));
        }
        WithRankNone(s, key, r);
      }
    } else {
      var rest := Insert(x, s[1..], key);
      assert Insert(x, s, key) == [s[0]] + rest;
      assert s == [s[0]] + s[1..];
      WithRankCons(s[0], rest, key, r);
      WithRankCons(s[0], s[1..], key, r);
      InsertWithRank(x, s[1..], key, r);
      var h, w := OwnIfRank(s[0], key, r), WithRank(s[1..], key, r);
      assert h + (w + own) == (h + w) + own;
    }
  }

  lemma {:induction false} SortRanked<T>(s: seq<T>, key: T -> Rank)
    ensures Ranked(Sort(s, key), key)
    ensures multiset(Sort(s, key)) == multiset(s)
    decreases |s|
  {
    if s != [] {
      var front, x := s[..|s| - 1], s[|s| - 1];
      SortRanked(front, key);
      InsertRanked(x, Sort(front, key), key);
      InsertPermutes(x, Sort(front, key), key);
      assert s == front + [x];
    }
  }

  lemma {:induction false} SortStable<T>(s: seq<T>, key: T -> Rank, r: Rank)
    ensures WithRank(Sort(s, key), key, r) == WithRank(s, key, r)
    decreases |s|
  {
    if s != [] {
      var front, x := s[..|s| - 1], s[|s| - 1];
      SortStable(front, key, r);
      SortRanked(front, key);
      InsertWithRank(x, Sort(front, key), key, r);
      assert s == front + [x];
      WithRankConcat(front, [x], key, r);
      WithRankCons(x, [], key, r);
      assert [x] + [] == [x];
    }
  }

  /**
   * The ranking is non-increasing in (has_priority, profit_pct), is a
   * permutation of its input, and keeps the input order among elements
   * with equal keys (stability).
   */
  lemma SortByRankCorrect(s: seq<Opportunity>)
    ensures Ranked(SortByRank(s), RankOf)
    ensures multiset(SortByRank(s)) == multiset(s)
    ensures forall r :: WithRank(SortByRank(s), RankOf, r) == WithRank(s, RankOf, r)
  {
    SortRanked(s, RankOf);
    forall r ensures WithRank(SortByRank(s), RankOf, r) == WithRank(s, RankOf, r) {
      SortStable(s, RankOf, r);
    }
  }

  /** The ranking keeps exactly the elements of its input. */
  lemma SortByRankMembers(s: seq<Opportunity>, o: Opportunity)
    ensures o in SortByRank(s) <==> o in s
  {
    SortByRankCorrect(s);
    assert o in SortByRank(s) <==> o in multiset(SortByRank(s));
  }

  /**
   * Example: [A (no priority, 4%), B (priority, 1%), C (priority, 3%)]
   * is ranked [C, B, A].
   */
  lemma RankingExample(a: Opportunity, b: Opportunity, c: Opportunity)
    requires !a.hasPriority && a.profitPct == 4.0
    requires b.hasPriority && b.profitPct == 1.0
    requires c.hasPriority && c.profitPct == 3.0
    ensures SortByRank([a, b, c]) == [c, b, a]
  {
    assert [a, b, c][..2] == [a, b] && [a, b][..1] == [a] && [a][..0] == [];
    assert Sort([a], RankOf) == [a];
    assert Sort([a, b], RankOf) == Insert(b, [a], RankOf) == [b, a];
    assert Sort([a, b, c], RankOf) == Insert(c, [b, a], RankOf) == [c, b, a];
  }
}
