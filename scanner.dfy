// The scanner's session: the command state, the alert cooldown table and the
// session counters, updated in place by the main loop: commands, one scan
// over every sport, alerts, the hourly report, pruning, and the wait between
// scans during which commands keep being handled.
module Scanner {
  import opened ArbTypes
  import opened ArbEvaluator
  import opened Cooldown
  import opened Commands

  /** Seconds between two scans. */
  const PollInterval: int := 600

  /** Seconds between two command checks while waiting. */
  const CommandPollSecs: int := 15

  /** Seconds between two session reports. */
  const ReportInterval: real := 3600.0

  /** The alert notices for `s`, in order. */
  function AlertsOf(s: seq<Opportunity>): seq<Notice>
    decreases |s|
  {
    if s == [] then [] else AlertsOf(s[..|s| - 1]) + [Alert(s[|s| - 1])]
  }

  /** The times of `n` successive alert decisions read from `clock`. */
  function Times(clock: int -> real, n: nat): (r: seq<real>)
    ensures |r| == n && forall k :: 0 <= k < n ==> r[k] == clock(k)
  {
    seq(n, k => clock(k))
  }

  /** The updates of the r-th command check while waiting; a check that returns nothing counts as empty. */
  function BatchAt(batches: seq<seq<Update>>, r: nat): seq<Update> {
    if r < |batches| then batches[r] else []
  }

  /** The command state after `r` command checks while waiting. */
  function AfterRounds(st: CommandState, chat: string, batches: seq<seq<Update>>, r: nat): CommandState
    decreases r
  {
    if r == 0 then st else Process(AfterRounds(st, chat, batches, r - 1), chat, BatchAt(batches, r - 1))
  }

  /**
   * Without a /pause or /resume during the wait, no round of it ends
   * paused when the scanner was running: the wait lasts the full interval.
   */
  lemma {:induction false} RoundsStayActive(st: CommandState, chat: string, batches: seq<seq<Update>>, r: nat)
    requires !st.paused
    requires forall b, k :: 0 <= b < |batches| && 0 <= k < |batches[b]| ==> !IsToggle(chat, batches[b][k])
    ensures !AfterRounds(st, chat, batches, r).paused
    decreases r
  {
    if r > 0 {
      RoundsStayActive(st, chat, batches, r - 1);
      var b := BatchAt(batches, r - 1);
      NoToggleKeepsPaused(AfterRounds(st, chat, batches, r - 1), chat, b);
    }
  }

  class Session {
    var paused: bool
    var lastUpdateId: int
    var outbox: seq<Notice>
    var seen: map<string, real>
    var scans: nat
    var oppsFound: nat
    var bestProfitPct: real
    var lastReport: real
    /** The chat whose commands are obeyed. */
    const chatId: string

    /** A fresh session started at `start`. */
    constructor (chatId: string, start: real)
      ensures this.chatId == chatId
      ensures !paused && lastUpdateId == 0 && outbox == []
      ensures seen == map[] && scans == 0 && oppsFound == 0 && bestProfitPct == 0.0 && lastReport == start
    {
      this.chatId := chatId;
      paused := false;
      lastUpdateId := 0;
      outbox := [];
      seen := map[];
      scans := 0;
      oppsFound := 0;
      bestProfitPct := 0.0;
      lastReport := start;
    }

    /** The part of the session the command handler reads and writes. */
    function CommandView(): CommandState
      reads this
    {
      CommandState(paused, lastUpdateId, outbox)
    }

    /**
     * One command check: every update of the batch in order, each one
     * moving the offset, those of the session's chat answered.
     */
    method CheckCommands(batch: seq<Update>)
      modifies this
      ensures CommandView() == Process(old(CommandView()), chatId, batch)
      ensures seen == old(seen) && scans == old(scans) && oppsFound == old(oppsFound)
      ensures bestProfitPct == old(bestProfitPct) && lastReport == old(lastReport)
    {
      for k := 0 to |batch|
        invariant CommandView() == Process(old(CommandView()), chatId, batch[..k])
        invariant seen == old(seen) && scans == old(scans) && oppsFound == old(oppsFound)
        invariant bestProfitPct == old(bestProfitPct) && lastReport == old(lastReport)
      {
        assert batch[..k + 1][..k] == batch[..k];
        HandleUpdate(batch[k]);
      }
      assert batch[..|batch|] == batch;
    }

    /** One update: the offset moves; a command from the session's chat is answered. */
    method HandleUpdate(u: Update)
      modifies this
      ensures CommandView() == Step(old(CommandView()), chatId, u)
      ensures seen == old(seen) && scans == old(scans) && oppsFound == old(oppsFound)
      ensures bestProfitPct == old(bestProfitPct) && lastReport == old(lastReport)
    {
      lastUpdateId := u.updateId;
      if u.chatId == chatId {
        var text := Lower(Strip(u.text));
        if text == "/pause" {
          if paused {
            outbox := outbox + [AlreadyPaused];
          } else {
            paused := true;
            outbox := outbox + [NowPaused];
          }
        } else if text == "/resume" {
          if !paused {
            outbox := outbox + [AlreadyActive];
          } else {
            paused := false;
            outbox := outbox + [NowResumed];
          }
        } else if text == "/stats" {
          outbox := outbox + [StatsReport];
        } else if text == "/help" {
          outbox := outbox + [HelpText];
        }
      }
    }

    /**
     * The alert decision for one opportunity found at `now`: sent and
     * stamped when its fingerprint is not within the cooldown, counted,
     * and folded into the best profit; otherwise nothing changes.
     */
    method Announce(o: Opportunity, now: real) returns (sent: bool)
      modifies this
      ensures sent == Admits(old(seen), Fingerprint(o), now)
      ensures seen == if sent then old(seen)[Fingerprint(o) := now] else old(seen)
      ensures oppsFound == old(oppsFound) + (if sent then 1 else 0)
      ensures bestProfitPct == if sent && o.profitPct > old(bestProfitPct) then o.profitPct else old(bestProfitPct)
      ensures outbox == old(outbox) + (if sent then [Alert(o)] else [])
      ensures paused == old(paused) && lastUpdateId == old(lastUpdateId)
      ensures scans == old(scans) && lastReport == old(lastReport)
    {
      var key := Fingerprint(o);
      if key in seen && now - seen[key] < CooldownSecs {
        return false;
      }
      seen := seen[key := now];
      oppsFound := oppsFound + 1;
      if o.profitPct > bestProfitPct {
        bestProfitPct := o.profitPct;
      }
      outbox := outbox + [Alert(o)];
      sent := true;
    }

    /** The alert loop of a scan, the k-th decision taken at `times[k]`. */
    method AnnounceAll(opps: seq<Opportunity>, times: seq<real>)
      requires |times| == |opps|
      modifies this
      ensures var run := AlertRun(old(seen), opps, times);
        && seen == run.seen
        && outbox == old(outbox) + AlertsOf(run.emitted)
        && oppsFound == old(oppsFound) + |run.emitted|
        && bestProfitPct == BestProfit(old(bestProfitPct), run.emitted)
      ensures paused == old(paused) && lastUpdateId == old(lastUpdateId)
      ensures scans == old(scans) && lastReport == old(lastReport)
    {
      ghost var run := Run([], old(seen));
      for k := 0 to |opps|
        invariant run == AlertRun(old(seen), opps[..k], times[..k])
        invariant seen == run.seen
        invariant outbox == old(outbox) + AlertsOf(run.emitted)
        invariant oppsFound == old(oppsFound) + |run.emitted|
        invariant bestProfitPct == BestProfit(old(bestProfitPct), run.emitted)
        invariant paused == old(paused) && lastUpdateId == old(lastUpdateId)
        invariant scans == old(scans) && lastReport == old(lastReport)
      {
        AlertRunStep(old(seen), opps, times, k);
        var sent := Announce(opps[k], times[k]);
        if sent {
          var e := run.emitted + [opps[k]];
          assert e[..|e| - 1] == run.emitted;
          assert AlertsOf(e) == AlertsOf(run.emitted) + [Alert(opps[k])];
          assert old(outbox) + AlertsOf(e) == old(outbox) + AlertsOf(run.emitted) + [Alert(opps[k])];
          run := Run(e, run.seen[Fingerprint(opps[k]) := times[k]]);
        }
      }
      assert opps[..|opps|] == opps && times[..|times|] == times;
    }

    /** Drops the fingerprints whose cooldown is over at `now`. */
    method Evict(now: real)
      modifies this
      ensures seen == Evicted(old(seen), now)
      ensures CommandView() == old(CommandView()) && scans == old(scans) && oppsFound == old(oppsFound)
      ensures bestProfitPct == old(bestProfitPct) && lastReport == old(lastReport)
    {
      seen := Evicted(seen, now);
    }

    /**
     * The wait between scans: a command check every 15 seconds until the
     * poll interval is reached, cut short by the first check that leaves
     * the scanner paused. Returns the seconds waited.
     */
    method WaitBetweenScans(batches: seq<seq<Update>>) returns (elapsed: int)
      modifies this
      ensures 0 < elapsed <= PollInterval && elapsed % CommandPollSecs == 0
      ensures CommandView() == AfterRounds(old(CommandView()), chatId, batches, elapsed / CommandPollSecs)
      ensures elapsed < PollInterval ==> paused
      ensures forall r :: 1 <= r < elapsed / CommandPollSecs ==>
        !AfterRounds(old(CommandView()), chatId, batches, r).paused
      ensures seen == old(seen) && scans == old(scans) && oppsFound == old(oppsFound)
      ensures bestProfitPct == old(bestProfitPct) && lastReport == old(lastReport)
    {
      ghost var start := CommandView();
      ghost var rounds: nat := 0;
      elapsed := 0;
      while elapsed < PollInterval
        invariant 0 <= elapsed <= PollInterval && elapsed == CommandPollSecs * rounds
        invariant CommandView() == AfterRounds(start, chatId, batches, rounds)
        invariant forall r :: 1 <= r <= rounds ==> !AfterRounds(start, chatId, batches, r).paused
        invariant seen == old(seen) && scans == old(scans) && oppsFound == old(oppsFound)
        invariant bestProfitPct == old(bestProfitPct) && lastReport == old(lastReport)
        decreases PollInterval - elapsed
      {
        elapsed := elapsed + CommandPollSecs;
        rounds := rounds + 1;
        assert elapsed / CommandPollSecs - 1 == rounds - 1;
        var batch := BatchAt(batches, elapsed / CommandPollSecs - 1);
        CheckCommands(batch);
        if paused {
          break;
        }
      }
      assert elapsed / CommandPollSecs == rounds;
    }

    /**
     * One pass of the main loop, returning the seconds waited at its end.
     * The command check comes first; a paused scanner only sleeps 15
     * seconds. Otherwise: count the scan, gather every sport's
     * opportunities, run the alert loop (the k-th decision at `clock(k)`),
     * send the report when more than an hour has passed since the last
     * one, prune the cooldown table at `now`, and wait.
     */
    method RunCycle(batch: seq<Update>, feeds: seq<SportFeed>, order: SetOrder,
                    clock: int -> real, now: real, waits: seq<seq<Update>>) returns (waited: int)
      requires FeedsNonNegative(feeds) && ListsEverySet(order)
      modifies this
      ensures var cmd := Process(old(CommandView()), chatId, batch);
        cmd.paused ==>
          && waited == CommandPollSecs
          && CommandView() == cmd && seen == old(seen) && scans == old(scans)
          && oppsFound == old(oppsFound) && bestProfitPct == old(bestProfitPct) && lastReport == old(lastReport)
      ensures var cmd := Process(old(CommandView()), chatId, batch);
        var all := ScanOpportunities(feeds, order, MinProfitPct);
        var run := AlertRun(old(seen), all, Times(clock, |all|));
        var report := now - old(lastReport) > ReportInterval;
        var before := cmd.(outbox := cmd.outbox + AlertsOf(run.emitted) + (if report then [StatsReport] else []));
        !cmd.paused ==>
          && scans == old(scans) + 1
          && seen == Evicted(run.seen, now)
          && oppsFound == old(oppsFound) + |run.emitted|
          && bestProfitPct == BestProfit(old(bestProfitPct), run.emitted)
          && lastReport == (if report then now else old(lastReport))
          && 0 < waited <= PollInterval && waited % CommandPollSecs == 0
          && CommandView() == AfterRounds(before, chatId, waits, waited / CommandPollSecs)
          && (waited < PollInterval ==> paused)
          && forall r :: 1 <= r < waited / CommandPollSecs ==> !AfterRounds(before, chatId, waits, r).paused
    {
      CheckCommands(batch);
      if paused {
        return CommandPollSecs;
      }
      ScanOnce(feeds, order, clock, now);
      waited := WaitBetweenScans(waits);
    }

    /**
     * The scanning part of a pass: count the scan, gather every sport's
     * opportunities, run the alert loop (the k-th decision at `clock(k)`),
     * send the report when more than an hour has passed since the last
     * one, and prune the cooldown table at `now`.
     */
    method ScanOnce(feeds: seq<SportFeed>, order: SetOrder, clock: int -> real, now: real)
      requires FeedsNonNegative(feeds) && ListsEverySet(order)
      modifies this
      ensures var all := ScanOpportunities(feeds, order, MinProfitPct);
        var run := AlertRun(old(seen), all, Times(clock, |all|));
        var report := now - old(lastReport) > ReportInterval;
        && paused == old(paused) && lastUpdateId == old(lastUpdateId)
        && outbox == old(outbox) + AlertsOf(run.emitted) + (if report then [StatsReport] else [])
        && scans == old(scans) + 1
        && seen == Evicted(run.seen, now)
        && oppsFound == old(oppsFound) + |run.emitted|
        && bestProfitPct == BestProfit(old(bestProfitPct), run.emitted)
        && lastReport == (if report then now else old(lastReport))
    {
      scans := scans + 1;
      var all := GatherOpportunities(feeds, order, MinProfitPct);
      AnnounceAll(all, Times(clock, |all|));
      if now - lastReport > ReportInterval {
        outbox := outbox + [StatsReport];
        lastReport := now;
      }
      Evict(now);
    }
  }
}
