// The per-event bookmaker table: bookmaker key to {outcome name: decimal odd},
// built from the feed's h2h markets. The table is a dictionary that keeps
// insertion order, which decides the order in which bookmaker pairs are tried.
module BookieOdds {
  import opened ArbTypes

  /** One bookmaker's head-to-head prices: outcome name to decimal odd. */
  datatype Entry = Entry(key: string, odds: map<string, real>)

  /** The dictionary in insertion order; a well-formed table has one entry per key. */
  type Table = seq<Entry>

  /** `{o.name: o.price for o in outcomes}`: every listed name is a key. */
  function OddsMap(os: seq<Outcome>): (m: map<string, real>)
    ensures m.Keys == set o | o in os :: o.name
    decreases |os|
  {
    if os == [] then map[]
    else
      var m := OddsMap(os[..|os| - 1]);
      assert forall o :: o in os <==> o in os[..|os| - 1] || o == os[|os| - 1];
      m[os[|os| - 1].name := os[|os| - 1].price]
  }

  /** When a name is listed twice, the later price wins. */
  lemma {:induction false} OddsMapLastWins(os: seq<Outcome>, i: nat)
    requires i < |os|
    requires forall j :: i < j < |os| ==> os[j].name != os[i].name
    ensures os[i].name in OddsMap(os) && OddsMap(os)[os[i].name] == os[i].price
  {
    if i < |os| - 1 {
      OddsMapLastWins(os[..|os| - 1], i);
    }
  }

  lemma {:induction false} OddsMapNonNegative(os: seq<Outcome>)
    requires forall o :: o in os ==> o.price >= 0.0
    ensures forall n :: n in OddsMap(os) ==> OddsMap(os)[n] >= 0.0
    decreases |os|
  {
    if os != [] {
      OddsMapNonNegative(os[..|os| - 1]);
    }
  }

  function KeysOf(t: Table): set<string> {
    set e | e in t :: e.key
  }

  predicate UniqueKeys(t: Table) {
    forall i, j :: 0 <= i < j < |t| ==> t[i].key != t[j].key
  }

  /** One entry per bookmaker, and no bookmaker with an empty price map. */
  predicate WellFormed(t: Table) {
    UniqueKeys(t) && forall e :: e in t ==> e.odds != map[]
  }

  predicate NonNegative(t: Table) {
    forall e, n :: e in t && n in e.odds ==> e.odds[n] >= 0.0
  }

  /** `t[k] = v` on the dictionary. */
  function Put(t: Table, k: string, v: map<string, real>): (updated: Table)
    decreases |t|
  {
    if t == [] then [Entry(k, v)]
    else if t[0].key == k then [Entry(k, v)] + t[1..]
    else [t[0]] + Put(t[1..], k, v)
  }

  lemma KeysOfCons(t: Table)
    requires t != []
    ensures KeysOf(t) == {t[0].key} + KeysOf(t[1..])
  {
    assert forall e :: e in t <==> e == t[0] || e in t[1..];
  }

  lemma HeadKeyNotInTail(t: Table)
    requires t != [] && UniqueKeys(t)
    ensures t[0].key !in KeysOf(t[1..])
  {
    forall e | e in t[1..] ensures e.key != t[0].key {
      var j :| 0 <= j < |t[1..]| && t[1..][j] == e;
      assert t[j + 1] == e;
    }
  }

  /** A table with unique keys has as many keys as entries. */
  lemma {:induction false} KeysOfCount(t: Table)
    requires UniqueKeys(t)
    ensures |KeysOf(t)| == |t|
    decreases |t|
  {
    if t != [] {
      KeysOfCons(t);
      HeadKeyNotInTail(t);
      KeysOfCount(t[1..]);
    }
  }

  /** Assignment adds `k` to the keys and only ever adds the new entry. */
  lemma {:induction false} PutKeys(t: Table, k: string, v: map<string, real>)
    ensures KeysOf(Put(t, k, v)) == KeysOf(t) + {k}
    ensures forall e :: e in Put(t, k, v) ==> e in t || e == Entry(k, v)
    decreases |t|
  {
    if t != [] {
      KeysOfCons(t);
      KeysOfCons(Put(t, k, v));
      if t[0].key != k {
        PutKeys(t[1..], k, v);
      }
    }
  }

  /** Putting an entry in front of a unique-keyed table whose keys avoid its key keeps keys unique. */
  lemma ConsUnique(e: Entry, rest: Table)
    requires UniqueKeys(rest) && e.key !in KeysOf(rest)
    ensures UniqueKeys([e] + rest)
  {
    var r := [e] + rest;
    forall i, j | 0 <= i < j < |r| ensures r[i].key != r[j].key {
      assert r[j] == rest[j - 1];
      if i > 0 {
        assert r[i] == rest[i - 1];
      } else {
        assert rest[j - 1] in rest;
      }
    }
  }

  lemma {:induction false} PutUnique(t: Table, k: string, v: map<string, real>)
    requires UniqueKeys(t)
    ensures UniqueKeys(Put(t, k, v))
    decreases |t|
  {
    if t != [] {
      HeadKeyNotInTail(t);
      assert UniqueKeys(t[1..]);
      if t[0].key != k {
        PutUnique(t[1..], k, v);
        PutKeys(t[1..], k, v);
        ConsUnique(t[0], Put(t[1..], k, v));
      } else {
        ConsUnique(Entry(k, v), t[1..]);
      }
    }
  }

  /** A new key is appended at the end. */
  lemma {:induction false} PutAppends(t: Table, k: string, v: map<string, real>)
    requires k !in KeysOf(t)
    ensures Put(t, k, v) == t + [Entry(k, v)]
    decreases |t|
  {
    if t != [] {
      KeysOfCons(t);
      PutAppends(t[1..], k, v);
      assert t == [t[0]] + t[1..];
    }
  }

  /** A key already present keeps its position and gets the new value. */
  lemma {:induction false} PutReplaces(t: Table, k: string, v: map<string, real>, i: nat)
    requires UniqueKeys(t) && k in KeysOf(t) && i < |t|
    ensures |Put(t, k, v)| == |t|
    ensures Put(t, k, v)[i] == if t[i].key == k then Entry(k, v) else t[i]
    decreases |t|
  {
    KeysOfCons(t);
    HeadKeyNotInTail(t);
    if t[0].key != k {
      var rest := Put(t[1..], k, v);
      assert Put(t, k, v) == [t[0]] + rest;
      PutReplaces(t[1..], k, v, if i == 0 then 0 else i - 1);
    } else {
      assert Put(t, k, v) == [Entry(k, v)] + t[1..];
      if i > 0 {
        assert t[i] in t[1..];
      }
    }
  }

  /** A market that contributes to the table: a non-empty h2h market. */
  predicate Qualifies(m: Market) {
    m.key == "h2h" && m.outcomes != []
  }

  predicate Quotes(b: Bookmaker) {
    exists m :: m in b.markets && Qualifies(m)
  }

  /** The bookmakers that end up in the table. */
  function QuotingBookies(bms: seq<Bookmaker>): set<string> {
    set b | b in bms && Quotes(b) :: b.key
  }

  /** The loop body for one market of bookmaker `bk`. */
  function PutMarket(t: Table, bk: string, m: Market): Table {
    var odds := OddsMap(m.outcomes);
    if m.key == "h2h" && odds != map[] then Put(t, bk, odds) else t
  }

  /** All markets of bookmaker `bk`, in feed order. */
  function PutMarkets(t: Table, bk: string, ms: seq<Market>): Table
    decreases |ms|
  {
    if ms == [] then t
    else PutMarket(PutMarkets(t, bk, ms[..|ms| - 1]), bk, ms[|ms| - 1])
  }

  /** The table built from all bookmakers of an event, in feed order. */
  function Collect(bms: seq<Bookmaker>): (table: Table)
    decreases |bms|
  {
    if bms == [] then []
    else
      var b := bms[|bms| - 1];
      PutMarkets(Collect(bms[..|bms| - 1]), b.key, b.markets)
  }

  lemma {:induction false} PutMarketsShape(t: Table, bk: string, ms: seq<Market>)
    requires WellFormed(t)
    ensures WellFormed(PutMarkets(t, bk, ms))
    ensures KeysOf(PutMarkets(t, bk, ms)) ==
      KeysOf(t) + (if exists m :: m in ms && Qualifies(m) then {bk} else {})
    ensures NonNegative(t) && (forall m, o :: m in ms && o in m.outcomes ==> o.price >= 0.0) ==>
      NonNegative(PutMarkets(t, bk, ms))
    decreases |ms|
  {
    if ms != [] {
      var front, m := ms[..|ms| - 1], ms[|ms| - 1];
      PutMarketsShape(t, bk, front);
      var t' := PutMarkets(t, bk, front);
      var odds := OddsMap(m.outcomes);
      assert odds == map[] <==> m.outcomes == [] by {
        if m.outcomes != [] {
          assert m.outcomes[0].name in odds.Keys;
        }
      }
      assert (exists m' :: m' in ms && Qualifies(m')) <==>
        (exists m' :: m' in front && Qualifies(m')) || Qualifies(m) by {
        assert forall m' :: m' in ms <==> m' in front || m' == m;
      }
      if m.key == "h2h" && odds != map[] {
        PutKeys(t', bk, odds);
        PutUnique(t', bk, odds);
        if NonNegative(t) && (forall m', o :: m' in ms && o in m'.outcomes ==> o.price >= 0.0) {
          OddsMapNonNegative(m.outcomes);
        }
      }
    }
  }

  /**
   * The table has one non-empty entry for exactly the bookmakers that
   * list a non-empty h2h market, and no negative odd when the feed has none.
   */
  lemma {:induction false} CollectShape(bms: seq<Bookmaker>)
    ensures WellFormed(Collect(bms))
    ensures KeysOf(Collect(bms)) == QuotingBookies(bms)
    ensures PricesNonNegative(bms) ==> NonNegative(Collect(bms))
    decreases |bms|
  {
    if bms != [] {
      var front, b := bms[..|bms| - 1], bms[|bms| - 1];
      CollectShape(front);
      PutMarketsShape(Collect(front), b.key, b.markets);
      assert forall x :: x in bms <==> x in front || x == b;
      assert QuotingBookies(bms) == QuotingBookies(front) + (if Quotes(b) then {b.key} else {});
    }
  }

  /** Assignment to one key leaves the entries of every other key in the table. */
  lemma PutKeepsOthers(t: Table, k: string, v: map<string, real>, e: Entry)
    requires UniqueKeys(t) && e in t && e.key != k
    ensures e in Put(t, k, v)
  {
    var i :| 0 <= i < |t| && t[i] == e;
    if k in KeysOf(t) {
      PutReplaces(t, k, v, i);
    } else {
      PutAppends(t, k, v);
    }
  }

  lemma {:induction false} PutMarketsKeepsOthers(t: Table, bk: string, ms: seq<Market>, e: Entry)
    requires UniqueKeys(t) && e in t && e.key != bk
    ensures UniqueKeys(PutMarkets(t, bk, ms)) && e in PutMarkets(t, bk, ms)
    decreases |ms|
  {
    if ms != [] {
      var t' := PutMarkets(t, bk, ms[..|ms| - 1]);
      PutMarketsKeepsOthers(t, bk, ms[..|ms| - 1], e);
      var odds := OddsMap(ms[|ms| - 1].outcomes);
      PutUnique(t', bk, odds);
      PutKeepsOthers(t', bk, odds, e);
    }
  }

  lemma {:induction false} PutMarketsSkips(t: Table, bk: string, ms: seq<Market>)
    requires forall m :: m in ms ==> !Qualifies(m)
    ensures PutMarkets(t, bk, ms) == t
    decreases |ms|
  {
    if ms != [] {
      PutMarketsSkips(t, bk, ms[..|ms| - 1]);
      var m := ms[|ms| - 1];
      assert m in ms;
      assert m.outcomes == [] ==> OddsMap(m.outcomes) == map[];
    }
  }

  lemma PutHasEntry(t: Table, k: string, v: map<string, real>)
    requires UniqueKeys(t)
    ensures Entry(k, v) in Put(t, k, v)
  {
    if k in KeysOf(t) {
      var e :| e in t && e.key == k;
      var i :| 0 <= i < |t| && t[i] == e;
      PutReplaces(t, k, v, i);
    } else {
      PutAppends(t, k, v);
    }
  }

  lemma {:induction false} PutMarketsUnique(t: Table, bk: string, ms: seq<Market>)
    requires UniqueKeys(t)
    ensures UniqueKeys(PutMarkets(t, bk, ms))
    decreases |ms|
  {
    if ms != [] {
      PutMarketsUnique(t, bk, ms[..|ms| - 1]);
      PutUnique(PutMarkets(t, bk, ms[..|ms| - 1]), bk, OddsMap(ms[|ms| - 1].outcomes));
    }
  }

  /** Of several h2h markets of one bookmaker, the last non-empty one is kept. */
  lemma {:induction false} PutMarketsLastWins(t: Table, bk: string, ms: seq<Market>, j: nat)
    requires UniqueKeys(t)
    requires j < |ms| && Qualifies(ms[j])
    requires forall j' :: j < j' < |ms| ==> !Qualifies(ms[j'])
    ensures Entry(bk, OddsMap(ms[j].outcomes)) in PutMarkets(t, bk, ms)
    decreases |ms|
  {
    var front := ms[..|ms| - 1];
    var t' := PutMarkets(t, bk, front);
    PutMarketsUnique(t, bk, front);
    if j == |ms| - 1 {
      var odds := OddsMap(ms[j].outcomes);
      assert ms[j].outcomes[0].name in odds.Keys;
      PutHasEntry(t', bk, odds);
    } else {
      PutMarketsLastWins(t, bk, front, j);
      var m := ms[|ms| - 1];
      assert !Qualifies(m);
      assert m.outcomes == [] ==> OddsMap(m.outcomes) == map[];
    }
  }

  /**
   * A later market overwrites an earlier one: the table holds, for a
   * bookmaker key, the prices of the last non-empty h2h market listed
   * under that key anywhere in the feed.
   */
  lemma {:induction false} CollectLastWins(bms: seq<Bookmaker>, i: nat, j: nat)
    requires i < |bms| && j < |bms[i].markets| && Qualifies(bms[i].markets[j])
    requires forall j' :: j < j' < |bms[i].markets| ==> !Qualifies(bms[i].markets[j'])
    requires forall i' :: i < i' < |bms| && bms[i'].key == bms[i].key ==> !Quotes(bms[i'])
    ensures Entry(bms[i].key, OddsMap(bms[i].markets[j].outcomes)) in Collect(bms)
    decreases |bms|
  {
    var front, b := bms[..|bms| - 1], bms[|bms| - 1];
    CollectShape(front);
    if i == |bms| - 1 {
      PutMarketsLastWins(Collect(front), b.key, b.markets, j);
    } else {
      CollectLastWins(front, i, j);
      if b.key == bms[i].key {
        PutMarketsSkips(Collect(front), b.key, b.markets);
      } else {
        PutMarketsKeepsOthers(Collect(front), b.key, b.markets,
          Entry(bms[i].key, OddsMap(bms[i].markets[j].outcomes)));
      }
    }
  }
}
