// Data model shared by the arbitrage scanner: the odds feed as the scanner
// receives it, the configuration constants, and a detected opportunity.
module ArbTypes {

  /** Minimum profit, in percent of the bankroll, for a combination to be reported. */
  const MinProfitPct: real := 1.0

  /** Notional bankroll on which the stakes and the profit are computed. */
  const Bankroll: real := 100.0

  /** Bookmakers whose opportunities are ranked first. */
  const PriorityBooks: seq<string> := ["betfair_ex_eu", "bet365"]

  datatype Option<T> = None | Some(value: T) {
    function GetOr(default: T): T {
      if Some? then value else default
    }
  }

  /** One priced outcome of a market, as listed by the feed. */
  datatype Outcome = Outcome(name: string, price: real)

  /** A market of one bookmaker; only the "h2h" (head to head) market is used. */
  datatype Market = Market(key: string, outcomes: seq<Outcome>)

  datatype Bookmaker = Bookmaker(key: string, markets: seq<Market>)

  /** One event of the feed; a missing team name is None. */
  datatype Game = Game(homeTeam: Option<string>, awayTeam: Option<string>, bookmakers: seq<Bookmaker>)

  /** The identifying labels an opportunity carries. */
  datatype Fixture = Fixture(sport: string, home: string, away: string)

  /** A two-way arbitrage: bet `stake1` on `team1` at `bookie1` and `stake2` on `team2` at `bookie2`. */
  datatype Opportunity = Opportunity(
    fixture: Fixture,
    bookie1: string, team1: string, odd1: real, stake1: real,
    bookie2: string, team2: string, odd2: real, stake2: real,
    profitPct: real, profit: real, hasPriority: bool)

  /** Labels of a game; absent team names default to "Home" and "Away". */
  function FixtureOf(game: Game, sport: string): Fixture {
    Fixture(sport, game.homeTeam.GetOr("Home"), game.awayTeam.GetOr("Away"))
  }

  /** Decimal odds from the feed are never negative (zero stands for a missing price). */
  predicate PricesNonNegative(bookmakers: seq<Bookmaker>) {
    forall b, m, o :: b in bookmakers && m in b.markets && o in m.outcomes ==> o.price >= 0.0
  }

  /**
   * What makes `o` a covering arbitrage on the bankroll: both odds are
   * positive, the implied probabilities sum below one, the two stakes
   * are positive and add up to the bankroll, either outcome pays back the
   * bankroll plus the same positive profit, `profitPct` is that profit in
   * percent of the bankroll, and the priority flag is set exactly when
   * one of the two bookmakers is a priority bookmaker.
   */
  predicate IsCoveringArb(o: Opportunity) {
    && o.odd1 > 0.0 && o.odd2 > 0.0
    && 1.0 / o.odd1 + 1.0 / o.odd2 < 1.0
    && o.stake1 > 0.0 && o.stake2 > 0.0
    && o.stake1 + o.stake2 == Bankroll
    && o.stake1 * o.odd1 == Bankroll + o.profit
    && o.stake2 * o.odd2 == Bankroll + o.profit
    && o.profit > 0.0
    && o.profitPct == o.profit * 100.0 / Bankroll
    && o.hasPriority == (o.bookie1 in PriorityBooks || o.bookie2 in PriorityBooks)
  }

  /**
   * A message the scanner sends to its chat: an opportunity alert, a reply
   * to a command, or the session report.
   */
  datatype Notice =
    | Alert(opp: Opportunity)
    | AlreadyPaused
    | NowPaused
    | AlreadyActive
    | NowResumed
    | StatsReport
    | HelpText
}
