# Arbitrage scanner — a Dafny model

The scanner polls a bookmakers' odds feed for a few sports. For each event it
looks for two-way arbitrages: two bookmakers whose head-to-head ("h2h") prices
on two different outcomes let a bettor stake a bankroll so that either outcome
returns more than the bankroll. It alerts a chat about each one, at most once
per fingerprint every ten minutes. It obeys `/pause`, `/resume`, `/stats` and
`/help` from that chat.

The model covers four parts of the scanner:

- **Per-event search** (`find_arb_opportunities`, modules `BookieOdds`,
  `ArbEvaluator` and `Ranking`).
  - It builds the bookmaker table from the non-empty h2h markets. A later
    market of the same bookmaker overwrites an earlier one, and a key keeps
    its first position, as in an insertion-ordered dictionary.
  - It returns early below two bookmakers.
  - It tries every unordered pair of bookmakers in table order and takes the
    first two outcome names the pair shares.
  - For each of the two cross assignments of those names it skips a zero
    price and applies the test `1/o1 + 1/o2 < 1` and the 1 % profit
    threshold.
  - It computes the stakes and the profit on a bankroll of 100 and sets the
    priority flag.
  - It ranks the event's list with a stable sort, descending by
    (has_priority, profit_pct).
  - Imperative loops (`BuildTable`, `ScanPairs`, `FindArbOpportunities`,
    `GatherOpportunities`) are each proved equal to a functional
    specification, and the properties are proved about that specification.
- **Alert cooldown** (module `Cooldown` and the `Scanner.Session` methods
  `Announce`, `AnnounceAll` and `Evict`).
  - The fingerprint of an opportunity is `home-bookie1-bookie2-team1`.
  - A fingerprint is alerted when it is absent or at least 600 s old. An alert
    stamps the fingerprint with its time, counts the opportunity and keeps the
    best profit as a running maximum. A suppressed repeat changes nothing.
  - After each scan, fingerprints 600 s old or more are pruned.
- **Chat commands** (module `Commands` and `Scanner.Session.CheckCommands`).
  - Every update moves the update offset.
  - Updates from other chats are ignored.
  - Text is stripped and lower-cased before it is compared.
  - `/pause` and `/resume` are idempotent, and each answered command sends one
    message.
- **Main loop** (`Scanner.Session.RunCycle`).
  - It checks commands, then idles 15 s while paused.
  - Otherwise it scans every sport in order and concatenates the per-event
    lists without ranking across events.
  - It runs the alert loop, sends the hourly report and prunes the
    fingerprints.
  - It then waits up to 600 s in 15 s steps, checking commands at each step,
    and stops waiting as soon as the scanner is paused.

Inputs the program reads from the outside are parameters of the model:
- the feed, one `SportFeed` per sport, where a failed fetch is an empty list
- the batches of chat updates, where a failed poll is an empty batch
- the clock readings
- the iteration order of Python sets (`SetOrder`), constrained only to list
  each set exactly once

Alerts and command answers are appended to the session's `outbox` as `Notice` values; the startup message and the low-quota warning are not (see "## Left out").

## Model

| member | source | states |
|---|---|---|
| BookieOdds.OddsMap | arb_scanner_v2.py:280 | the price map built from a market's outcomes has exactly the listed outcome names as keys |
| BookieOdds.OddsMapLastWins | arb_scanner_v2.py:280 | when a name is listed more than once, the last listed price is the one kept |
| BookieOdds.OddsMapNonNegative | arb_scanner_v2.py:280 | non-negative feed prices give a non-negative price map |
| BookieOdds.PutKeys | arb_scanner_v2.py:282 | assigning `bookie_odds[k] = v` adds exactly `k` to the keys and adds no entry other than `(k, v)` |
| BookieOdds.PutUnique | arb_scanner_v2.py:282 | assignment keeps one entry per key |
| BookieOdds.PutAppends | arb_scanner_v2.py:282 | a new key is appended at the end of the insertion order |
| BookieOdds.PutReplaces | arb_scanner_v2.py:282 | an existing key keeps its position and gets the new value; every other entry is unchanged |
| BookieOdds.PutKeepsOthers | arb_scanner_v2.py:282 | assignment to one key keeps every entry of another key |
| BookieOdds.PutHasEntry | arb_scanner_v2.py:282 | after assignment the table holds `(k, v)` |
| BookieOdds.PutMarketsSkips | arb_scanner_v2.py:277-281 | markets that are not h2h or have no outcomes leave the table unchanged |
| BookieOdds.PutMarketsShape | arb_scanner_v2.py:277-282 | one bookmaker's market loop keeps the table well formed (unique keys, no empty map) and adds its key exactly when one of its markets is a non-empty h2h market; prices stay non-negative |
| BookieOdds.PutMarketsUnique | arb_scanner_v2.py:277-282 | the market loop keeps keys unique |
| BookieOdds.PutMarketsKeepsOthers | arb_scanner_v2.py:277-282 | the market loop of one bookmaker keeps every other bookmaker's entry |
| BookieOdds.PutMarketsLastWins | arb_scanner_v2.py:277-282 | a bookmaker's last qualifying market is the one its entry holds |
| BookieOdds.CollectShape | arb_scanner_v2.py:274-282 | the table has unique keys and no empty price map; its keys are exactly the bookmakers with a non-empty h2h market; non-negative feed prices stay non-negative |
| BookieOdds.CollectLastWins | arb_scanner_v2.py:274-282 | the entry of a bookmaker is the price map of its last qualifying market when no later bookmaker with the same key qualifies |
| BookieOdds.KeysOfCount | arb_scanner_v2.py:284 | the number of bookmakers in the table is its number of entries |
| ArbEvaluator.CoverArithmetic | arb_scanner_v2.py:298-311 | with positive odds passing the test, the two stakes sum to the bankroll, each pays back the bankroll plus the same positive profit, and profit_pct is that profit in percent of the bankroll |
| ArbEvaluator.ArbConditionIff | arb_scanner_v2.py:298-303 | the implied-probability test holds exactly when `o1 + o2 < o1 * o2`, and then `1/total == o1*o2/(o1+o2)` |
| ArbEvaluator.EvaluateSound | arb_scanner_v2.py:292-330 | a kept combination carries the event's labels, both bookmakers, both outcome names and their odds, is a covering arbitrage and reaches the threshold |
| ArbEvaluator.EvaluateExact | arb_scanner_v2.py:293-307 | a combination is kept exactly when both odds are non-zero, `o1 + o2 < o1 * o2` and the profit reaches the threshold |
| ArbEvaluator.EvaluateThreshold | arb_scanner_v2.py:305-307 | a higher threshold keeps a combination exactly when the lower one kept it with a profit reaching the higher one |
| ArbEvaluator.AtLeastConcat | arb_scanner_v2.py:306-307 | the threshold filter distributes over concatenation |
| ArbEvaluator.AtLeastShorter | arb_scanner_v2.py:306-307 | the threshold filter never lengthens a list |
| ArbEvaluator.AtLeastMembers | arb_scanner_v2.py:306-307 | the threshold filter keeps exactly the elements reaching the threshold, as a sub-multiset |
| ArbEvaluator.PairOppsSound | arb_scanner_v2.py:287-311 | a bookmaker pair yields at most two opportunities, each from that pair on two different shared outcome names, at the table's odds, a covering arbitrage reaching the threshold |
| ArbEvaluator.PairOppsThreshold | arb_scanner_v2.py:288-307 | a pair's list at a higher threshold is its list at a lower one filtered by the higher |
| ArbEvaluator.RowSource | arb_scanner_v2.py:287 | an opportunity of row i of `combinations` comes from a pair (i, j) with j after i |
| ArbEvaluator.RowHas | arb_scanner_v2.py:287 | every opportunity of a pair (i, j) is in row i |
| ArbEvaluator.AccumulatedSource | arb_scanner_v2.py:287 | an accumulated opportunity comes from some pair (i, j), i < j, of the rows taken so far |
| ArbEvaluator.AccumulatedHas | arb_scanner_v2.py:287 | every opportunity of every pair of the rows taken so far is accumulated |
| ArbEvaluator.RowBound | arb_scanner_v2.py:287-292 | row i of n bookmakers holds at most two opportunities per later bookmaker |
| ArbEvaluator.PairCountAll | arb_scanner_v2.py:287 | the first m rows over n items hold `m(2n-m-1)/2` pairs |
| ArbEvaluator.AccumulatedBound | arb_scanner_v2.py:287-292 | the accumulated list holds at most two opportunities per pair visited |
| ArbEvaluator.RowFilter | arb_scanner_v2.py:287-307 | when every pair's list is filtered by the threshold, so is the row |
| ArbEvaluator.AccumulatedFilter | arb_scanner_v2.py:287-307 | when every pair's list is filtered by the threshold, so is the whole accumulation |
| ArbEvaluator.FoundSource | arb_scanner_v2.py:287-330 | every opportunity found for a table comes from one of its pairs (i, j), i < j |
| ArbEvaluator.FoundHas | arb_scanner_v2.py:287-330 | every opportunity of every pair of the table is found |
| ArbEvaluator.FoundSound | arb_scanner_v2.py:287-330 | every found opportunity comes from a pair of the table, with different bookmakers when keys are unique |
| ArbEvaluator.FoundBound | arb_scanner_v2.py:287-292 | a table of n bookmakers yields at most n(n-1) opportunities |
| ArbEvaluator.FoundThreshold | arb_scanner_v2.py:287-307 | the search at a higher threshold is the search at a lower one filtered by the higher |
| ArbEvaluator.FoundFewBookies | arb_scanner_v2.py:284-285 | fewer than two bookmakers give no opportunity |
| ArbEvaluator.RankedFilterCount | arb_scanner_v2.py:306-307 | ranking a filtered list gives a sub-multiset of the ranked unfiltered list |
| ArbEvaluator.RankedFilterMembers | arb_scanner_v2.py:306-307 | an opportunity is in the ranked filtered list exactly when it is in the ranked unfiltered list and reaches the threshold |
| ArbEvaluator.EventTable | arb_scanner_v2.py:274-282 | the event's table has unique keys, no empty price map, no negative price, and its keys are the bookmakers quoting a non-empty h2h market |
| ArbEvaluator.BuildTable | arb_scanner_v2.py:274-282 | the nested bookmaker and market loop builds exactly the specified table |
| ArbEvaluator.TryPair | arb_scanner_v2.py:288-330 | for one bookmaker pair, the loop over both cross assignments of the first two shared names appends each kept combination, giving the pair's list whose soundness and threshold properties `PairOppsSound` and `PairOppsThreshold` state |
| ArbEvaluator.ScanRow | arb_scanner_v2.py:287-330 | the pairs (i, j), j after i, in order, give exactly row i |
| ArbEvaluator.ScanPairs | arb_scanner_v2.py:287-330 | the pair loop returns exactly the specified accumulation over `combinations` order |
| ArbEvaluator.FindArbOpportunities | arb_scanner_v2.py:262-333 | the whole search, with its early return, returns exactly the ranked specification |
| ArbEvaluator.EventSound | arb_scanner_v2.py:262-333 | every reported opportunity is a covering arbitrage reaching the threshold, for the event's labels, between two different bookmakers quoting h2h, on two different outcomes both quote, at the table's odds |
| ArbEvaluator.EventComplete | arb_scanner_v2.py:287-333 | every opportunity of every bookmaker pair of the table is reported |
| ArbEvaluator.EventRanked | arb_scanner_v2.py:332 | the report is non-increasing in (has_priority, profit_pct), a permutation of the pairs' opportunities, and in pair order among equal keys |
| ArbEvaluator.EventBound | arb_scanner_v2.py:284-292 | an event with n quoting bookmakers yields at most n(n-1) opportunities, and none when n < 2 |
| ArbEvaluator.EventThreshold | arb_scanner_v2.py:306-307 | raising the threshold only drops opportunities, exactly those below it |
| ArbEvaluator.GatherSport | arb_scanner_v2.py:415-416 | the event loop of one sport returns the concatenation of the events' lists, in event order |
| ArbEvaluator.GatherOpportunities | arb_scanner_v2.py:412-416 | the scan loop returns the concatenation over sports, in sport order |
| ArbEvaluator.SportMembers | arb_scanner_v2.py:415-416 | an opportunity is in a sport's list exactly when it is in the list of one of its events |
| ArbEvaluator.ScanMembers | arb_scanner_v2.py:412-416 | an opportunity is in a scan exactly when it is in the list of some event of some sport |
| ArbEvaluator.ScanConcat | arb_scanner_v2.py:413-416 | scanning two runs of sports concatenates their lists, with no ranking across events |
| ArbEvaluator.ScanSound | arb_scanner_v2.py:412-416 | every opportunity of a scan is a covering arbitrage reaching the threshold, between different bookmakers and outcomes, labelled with a fetched event |
| Ranking.WithRankConcat | arb_scanner_v2.py:332 | the elements of one key in a concatenation are those of each part, in order |
| Ranking.InsertPermutes | arb_scanner_v2.py:332 | insertion adds exactly the inserted element |
| Ranking.InsertRanked | arb_scanner_v2.py:332 | insertion into a ranked list gives a ranked list |
| Ranking.InsertWithRank | arb_scanner_v2.py:332 | insertion places the element after every element of equal key |
| Ranking.SortRanked | arb_scanner_v2.py:332 | the sort by a key is non-increasing in the key and a permutation |
| Ranking.SortStable | arb_scanner_v2.py:332 | the sort keeps the input order among elements of equal key |
| Ranking.SortByRankCorrect | arb_scanner_v2.py:332 | the ranking is descending by (has_priority, profit_pct), a permutation, and stable |
| Ranking.SortByRankMembers | arb_scanner_v2.py:332 | the ranking keeps exactly the elements of its input |
| Ranking.RankingExample | arb_scanner_v2.py:332 | a priority opportunity at 1 % ranks above a non-priority one at 4 %, below a priority one at 3 % |
| Cooldown.EvictedAdmits | arb_scanner_v2.py:441 | pruning keeps only fingerprints younger than 600 s, with their times, and does not change any later alert decision |
| Cooldown.AlertRunSubset | arb_scanner_v2.py:420-425 | the alerts sent are among the scan's opportunities and, as a multiset, contained in them: an opportunity listed once is alerted at most once |
| Cooldown.AlertRunStamped | arb_scanner_v2.py:421-425 | every alerted fingerprint is stamped with one of the run's decision times, hence no earlier than any lower bound of them |
| Cooldown.NoRepeatWithinCooldown | arb_scanner_v2.py:420-425 | within one 600 s window no fingerprint is alerted twice |
| Cooldown.AlertRunOtherKeys | arb_scanner_v2.py:421-425 | fingerprints no opportunity has keep their times |
| Cooldown.FreshAllSent | arb_scanner_v2.py:420-425 | opportunities with distinct fingerprints that are all admitted are all alerted, in order |
| Cooldown.BestProfitIsMax | arb_scanner_v2.py:427-428 | the best profit is the maximum of its start value and the alerted profits, and is one of them |
| Cooldown.CooldownExample | arb_scanner_v2.py:423-425 | the same opportunity at t, t+599 and t+600 is alerted, suppressed, and alerted again |
| Commands.StripLeftSpec | arb_scanner_v2.py:140 | leading stripping keeps a suffix, drops only whitespace and leaves no leading whitespace |
| Commands.StripRightSpec | arb_scanner_v2.py:140 | trailing stripping keeps a prefix, drops only whitespace and leaves no trailing whitespace |
| Commands.LowerSpec | arb_scanner_v2.py:140 | lower-casing maps each character on its own and keeps the length |
| Commands.StripLeftSpaces | arb_scanner_v2.py:140 | leading whitespace before a non-space is removed exactly |
| Commands.StripRightSpaces | arb_scanner_v2.py:140 | trailing whitespace after a non-space is removed exactly |
| Commands.StripPadding | arb_scanner_v2.py:140 | surrounding whitespace changes neither the stripped text nor the command |
| Commands.LowerIs | arb_scanner_v2.py:140 | a text lower-cases to the text whose characters are its lower-cased characters |
| Commands.ParsePaddedPause | arb_scanner_v2.py:140-147 | `" /Pause\n"` is the pause command |
| Commands.ParseUpperResume | arb_scanner_v2.py:140-159 | `"/RESUME"` is the resume command |
| Commands.ParseTrailingWords | arb_scanner_v2.py:140-147 | `"/pause now"` is no command |
| Commands.ProcessLastUpdateId | arb_scanner_v2.py:137-138 | after a batch the offset is the last update's id, whichever chat sent it |
| Commands.StepIgnoresOffset | arb_scanner_v2.py:137-180 | an update's effect on the paused flag and the messages does not depend on the offset |
| Commands.ProcessIgnoresForeign | arb_scanner_v2.py:141-145 | updates from other chats change neither the paused flag nor the messages |
| Commands.NoToggleKeepsPaused | arb_scanner_v2.py:147-168 | without /pause or /resume from the scanner's chat the paused flag is unchanged |
| Commands.LastToggleDecides | arb_scanner_v2.py:147-168 | the last /pause or /resume of a batch decides the paused flag |
| Commands.ProcessAnswers | arb_scanner_v2.py:147-180 | each recognised command from the scanner's chat adds exactly one message, and messages are only appended |
| Commands.ToggleIdempotent | arb_scanner_v2.py:147-168 | a repeated /pause (or /resume) keeps the flag and only answers that it is already set |
| Scanner.RoundsStayActive | arb_scanner_v2.py:444-450 | without /pause or /resume no command check of the wait leaves a running scanner paused |
| Scanner.Session.constructor | arb_scanner_v2.py:67-76 | a session starts running, with offset 0, no fingerprint, zero counters and the report clock at the start time |
| Scanner.Session.CheckCommands | arb_scanner_v2.py:137-180 | one command check applies the batch's updates in order, as the command specification says, and changes nothing else |
| Scanner.Session.HandleUpdate | arb_scanner_v2.py:137-180 | one update moves the offset and applies its command from the scanner's chat, and changes nothing else |
| Scanner.Session.Announce | arb_scanner_v2.py:420-428 | an opportunity is alerted exactly when its fingerprint is admitted; then it is stamped, counted, folded into the best profit and sent; otherwise nothing changes |
| Scanner.Session.AnnounceAll | arb_scanner_v2.py:420-428 | the alert loop leaves the fingerprint table, the alerts sent, the count and the best profit given by the alert-run specification |
| Scanner.Session.Evict | arb_scanner_v2.py:441 | pruning replaces the fingerprint table by its entries younger than 600 s and changes nothing else |
| Scanner.Session.WaitBetweenScans | arb_scanner_v2.py:444-450 | the wait checks commands every 15 s, stops at the first check that leaves the scanner paused, and otherwise lasts the full 600 s |
| Scanner.Session.ScanOnce | arb_scanner_v2.py:409-441 | a scan counts itself, alerts per the cooldown over every sport's opportunities, sends the report after more than an hour, and prunes the fingerprints |
| Scanner.Session.RunCycle | arb_scanner_v2.py:397-450 | a paused scanner only handles commands and idles 15 s; a running one scans, alerts, reports, prunes and waits, as specified |

## Left out

- Rounding to two decimals (`round(..., 2)`) of the stakes, the profit and profit_pct is not modelled. The model keeps exact real values, so the ranking compares unrounded profits where the source compares rounded ones.
- EventSound: the covering-arbitrage identities hold for the exact stakes; the source's rounded stakes only approximate them.
- Prices are real numbers assumed non-negative (`PricesNonNegative`), with zero standing for the falsy price the source skips. A negative price, which the feed does not send, is outside the model.
- The iteration order of `set(odds1) & set(odds2)` is a parameter (`SetOrder`). Every result holds for every order that lists each set once. One order function serves a whole scan, so two events with the same bookmaker pair and the same shared names are taken in the same order, whereas CPython's order can also depend on how each set was filled.
- A present but null `home_team` or `away_team` is modelled as absent, falling back to "Home" and "Away", whereas Python's `get` would return None there.
- `commence_time` parsing, `detected_at` timestamps and the date formatting are left out. These are labels only.
- HTTP requests to the odds feed and the chat service are parameters of the model: the fetched feeds, the batches of updates (one per command check), and the clock readings. A failed request is an empty list or batch.
- The request count `api_calls` is left out. It is a field of the stats report (line 217) that the model does not keep, so a `StatsReport` notice carries no counts.
- The low-quota warning of `fetch_odds` (lines 244-249) is left out. It is a chat message the outbox does not hold, because the feed is a parameter and its response headers are not modelled.
- Logging, `format_alert`, `log_opportunity` (the JSON log file) and `analyze_results` are left out. They are output only.
- The text of the help, stats and pause/resume messages is left out. Each of these messages and each alert is a `Notice` tag in the outbox.
- The startup message (line 391) is not in the outbox. It is sent once before the loop, which the model starts after it.
- `time.sleep` is left out. The one-second pause between alerts and the 30 s back-off after an exception are not modelled, and the 15 s steps of the wait are counted, not slept.
- Exceptions inside the loop and `KeyboardInterrupt` handling, with its final report, are left out.
- RunCycle: the hourly report and the pruning read one clock value `now`. The source reads the clock separately for the report check, the new report time and each pruned entry.
- Commands.Lower: lower-casing is exact for ASCII letters only. Python's `str.lower()` also folds other letters, and a few of them fold to ASCII letters (U+212A KELVIN SIGN becomes `k`). The model can therefore differ only on a text that folds onto a command through such a character; no command contains a letter that one of these characters folds to, so none is affected.
