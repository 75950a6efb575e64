/** The floor under the balance of a whole replay: it holds unless the run ends with a final mark, which
    may lie beyond the stop. */
module FinalMarks {
  import opened EngineEntries
  import opened EngineFloor
  import opened EngineLedger
  import opened FeedView
  import opened Market
  import opened Options
  import opened Reals
  import opened SecondReplay
  import opened Steps

  ghost predicate EndsWithMark(ledger: seq<Row>) {
    ledger != [] && ledger[|ledger| - 1].reason == FinalMarkToMarket
  }

  /** A whole replay whose last exit is no final mark keeps the floor. */
  lemma ReplayFloor(cfg: Config, feed: Feed, initial: real, share: real, ratio: real)
    requires FloorConfig(cfg, share, ratio) && CalmFeed(cfg, feed, ratio) && initial >= 0.0
    ensures var s := Replay(cfg, feed, initial);
      !EndsWithMark(s.ledger) ==> s.balance >= initial * Power(1.0 - TradeCost(share, ratio, cfg), |s.ledger| / 2)
  {
    hide RunBars, CalmFeed, FloorConfig, TradeCost, Pnl, ExitPrice, Initial, Power, PositionOk;
    var n := if |feed.signal| == 0 then 0 else |feed.signal| - 1;
    FloorOfCalmFeed(cfg, feed, n, initial, share, ratio);
    if feed.seconds == [] {
      NoSecondsNoTrades(cfg, feed, n, initial);
      InitiallyFlat(initial);
    }
  }

  lemma InitiallyFlat(initial: real)
    ensures Initial(initial).position.None?
  {}

  // ----- a mark below the floor -----

  const CRASH_ROW := SignalRow(0, Some(7.0), Some(5.0), 100.0, Some(50.0), Some(60.0), None, Some(80.0), None, None,
                               None, None, None, None)

  /** A second that breaks out, fills, and closes far below the stop of the position it opened. */
  const CRASH_FEED := Feed([Second(0, 100.0, 9.0, 9.0)], [CRASH_ROW, CRASH_ROW.(time := 60000)], map[])

  lemma CrashBars()
    ensures StartOf(CRASH_FEED, 0) == 0 && EndOf(CRASH_FEED, 0) == 1
  {
    assert CRASH_FEED.seconds[..0] == [];
  }

  lemma CrashSignal()
    ensures IntrabarSignal(CRASH_ROW, 100.0, 9.0, 9.0) == Signal(CRASH_ROW, 13.0, Some(5.0), 9.0)
  {}

  /** What the one step of the feed sees. */
  lemma CrashStep(step: Step)
    requires IsStep(CRASH_FEED, step)
    ensures step == Step(0, 0)
    ensures HereOf(BASELINE, CRASH_FEED, step).sig == Signal(CRASH_ROW, 13.0, Some(5.0), 9.0)
  {
    CrashBars();
    CrashSignal();
  }

  lemma CrashIsCalm()
    ensures CalmFeed(BASELINE, CRASH_FEED, 1.0)
  {
    hide HereOf, IsStep;
    forall step, side | IsStep(CRASH_FEED, step) ensures CalmAt(BASELINE, CRASH_FEED, step, side, 1.0) {
      CrashStep(step);
    }
  }

  lemma CrashEnters(s: State)
    requires s == StartBar(Initial(1000.0), 0)
    ensures var t := StepSecond(BASELINE, CRASH_FEED, 0, 0, 0, s);
      && t.balance == 999.8 && |t.ledger| == 1
      && t.position.Some? && t.position.value.side == Long && t.position.value.entryPrice == 81.34065
      && t.position.value.notional == 200.0
  {
    var here := HereAt(BASELINE, CRASH_FEED, 0, 0, 0, s);
    CrashSignal();
    assert here.sig == Signal(CRASH_ROW, 13.0, Some(5.0), 9.0);
    var s1 := Observe(BASELINE, CRASH_FEED, s, here);
    assert RegimeReady(here.sig, Long);
    var s2 := TryLock(BASELINE, s1, here, Long);
    assert BreakoutOf(CRASH_ROW, Long, 100.0, true) == Some(Breakout(60.0, ORIGINAL_T2));
    assert s2.zero == Window(Some(Long), ORIGINAL_T2, 1.0, "", 0, 0);
    assert TryExternal(CRASH_FEED, s2, here, Long) == s2;
    assert ReentryPrice(here.sig, Long, 0.1) == Some(81.3);
    assert OrderNotional(BASELINE, 1000.0, s2.zero, 0) == 200.0;
  }

  /** The shared parameters on a calm feed: one trade, closed by the final mark, leaves less than the
      floor of one trade. */
  lemma MarkBelowFloor()
    ensures FloorConfig(BASELINE, 0.2, 1.0) && CalmFeed(BASELINE, CRASH_FEED, 1.0)
    ensures var s := Replay(BASELINE, CRASH_FEED, 1000.0);
      && |s.ledger| == 2 && EndsWithMark(s.ledger)
      && s.balance < 1000.0 * Power(1.0 - TradeCost(0.2, 1.0, BASELINE), 1)
  {
    hide StepSecond, StartOf, EndOf, CalmFeed, FloorConfig, TradeCost;
    BaselineFloor();
    CrashIsCalm();
    CrashBars();
    var s0 := StartBar(Initial(1000.0), 0);
    CrashEnters(s0);
    var s1 := StepSecond(BASELINE, CRASH_FEED, 0, 0, 0, s0);
    assert RunSeconds(BASELINE, CRASH_FEED, 0, 0, 0, s0) == s0;
    assert RunSeconds(BASELINE, CRASH_FEED, 0, 0, 1, s0) == s1;
    assert RunBars(BASELINE, CRASH_FEED, 0, 1000.0) == Initial(1000.0);
    assert RunBars(BASELINE, CRASH_FEED, 1, 1000.0) == RunBar(BASELINE, CRASH_FEED, 0, Initial(1000.0)) == s1;
    assert Power(1.0 - 0.010505, 0) == 1.0;
    CrashLoss(s1.position.value);
  }

  lemma CrashLoss(p: Position)
    requires p.side == Long && p.entryPrice == 81.34065 && p.notional == 200.0
    ensures Pnl(p, ExitPrice(Long, 9.0, 0.0005)) < -100.0
  {
    var rate := (8.9955 - 81.34065) / 81.34065;
    assert rate < -0.5;
  }
}
