/** Exactly when the trailing update before the exit check is idle after the first second of a bar. */
module IdleUpdate {
  import opened FeedView
  import opened IntrabarAtr
  import opened Market
  import opened Options
  import opened SecondReplay
  import opened Steps

  /** Every second's close lies within its range. */
  ghost predicate SaneFeed(feed: Feed) {
    forall k :: 0 <= k < |feed.seconds| ==> Sane(feed.seconds[k])
  }

  /** A second of a bar that is not the bar's first. */
  predicate IsLater(feed: Feed, i: nat, pos: nat) {
    IsStep(feed, Step(i, pos)) && StartOf(feed, i) < pos
  }

  /** In the run over a feed, the update before the exit check leaves the open position alone. */
  ghost predicate Idle(cfg: Config, feed: Feed, balance: real, i: nat, pos: nat)
    requires IsLater(feed, i, pos)
  {
    var s := StateAt(cfg, feed, i, pos, balance);
    s.position.Some? ==> PreCheck(cfg, HereOf(cfg, feed, Step(i, pos)), s.position.value) == s.position.value
  }

  lemma SeesHere(cfg: Config, feed: Feed, i: nat, pos: nat, balance: real)
    requires IsStep(feed, Step(i, pos))
    ensures var s := StartBar(RunBars(cfg, feed, i, balance), i);
      && s.barHigh.None? && s.barLow.None?
      && HereIn(cfg, feed, i, StartOf(feed, i), pos, s) == HereOf(cfg, feed, Step(i, pos))
  {
    hide RunBars, RunSeconds, HereAt, HereOf, StartOf, EndOf;
    SeesTheFeed(cfg, feed, i, pos, balance);
  }

  /** With a positive closed ATR the update is idle in every later second of every run. */
  lemma IdleWithAtr(cfg: Config, feed: Feed, balance: real, i: nat, pos: nat)
    requires cfg.live && TrailConfig(cfg) && SaneFeed(feed) && IsLater(feed, i, pos)
    requires feed.signal[i].atr.value > 0.0
    ensures Idle(cfg, feed, balance, i, pos)
  {
    hide RunBars, RunSeconds, HereIn, HereOf, PreCheck, Sane, StartOf, EndOf;
    SeesHere(cfg, feed, i, pos, balance);
    PreCheckIsIdle(cfg, feed, i, StartOf(feed, i), pos, StartBar(RunBars(cfg, feed, i, balance), i));
  }

  // ----- when it is not idle -----

  /** The bar has been at rest: no second before `pos` had any range, nor left the previous close. */
  ghost predicate AtRest(feed: Feed, i: nat, start: nat, pos: nat)
    requires i < |feed.signal| && start < pos <= |feed.seconds|
  {
    var price := feed.seconds[start].low;
    && (forall k :: start <= k < pos ==> feed.seconds[k].low == price && feed.seconds[k].high == price)
    && (feed.signal[i].prevClose1.Some? ==> feed.signal[i].prevClose1.value == price)
  }

  lemma NoRangeNoMove(feed: Feed, i: nat, start: nat, pos: nat, high: real, low: real)
    requires i < |feed.signal| && start < pos <= |feed.seconds|
    requires IsHigh(feed, start, pos, high) && IsLow(feed, start, pos, low)
    requires forall k :: start <= k < pos ==> Sane(feed.seconds[k])
    requires TrueRange(high, low, feed.signal[i].prevClose1) <= 0.0
    ensures AtRest(feed, i, start, pos)
  {
    assert feed.seconds[start].low >= low && feed.seconds[start].high <= high;
    assert high == low;
  }

  lemma ZeroAtrIsRest(closedAtr: real, high: real, low: real, prevClose: Option<real>)
    requires closedAtr >= 0.0 && low <= high && AtrOf(closedAtr, high, low, prevClose) <= 0.0
    ensures closedAtr == 0.0 && TrueRange(high, low, prevClose) <= 0.0
  {
    hide TrueRange;
    WiderRange(high, low, high, low, prevClose);
  }

  /** Whatever happened before the bar: where the update moves a stop after the first second, the closed
      ATR is zero and the bar has been at rest. */
  lemma MovesOnlyFromRest(cfg: Config, feed: Feed, i: nat, start: nat, pos: nat, s: State)
    requires cfg.live && TrailConfig(cfg)
    requires i < |feed.signal| && start < pos < |feed.seconds| && feed.signal[i].atr.Some?
    requires feed.signal[i].atr.value >= 0.0 && s.barHigh.None? && s.barLow.None?
    requires forall k :: start <= k <= pos ==> Sane(feed.seconds[k])
    ensures var t := RunSeconds(cfg, feed, i, start, pos, s);
      t.position.Some? && PreCheck(cfg, HereIn(cfg, feed, i, start, pos, s), t.position.value) != t.position.value ==>
        feed.signal[i].atr.value == 0.0 && AtRest(feed, i, start, pos)
  {
    hide PreCheck, StepSecond, HereAt, Absorbed, IsHigh, IsLow, AtrOf, AtRest, Sane;
    var t, before := RunSeconds(cfg, feed, i, start, pos, s), RunSeconds(cfg, feed, i, start, pos - 1, s);
    var earlier, now := HereIn(cfg, feed, i, start, pos - 1, s).sig.atr, HereIn(cfg, feed, i, start, pos, s).sig.atr;
    AtrNeverFalls(cfg, feed, i, start, pos - 1, pos, s);
    StepAbsorbs(cfg, feed, i, start, pos - 1, before);
    if t.position.Some? && earlier > 0.0 {
      TrailLoosens(cfg, t.position.value, earlier, now);
      AbsorbedIsIdle(cfg, HereIn(cfg, feed, i, start, pos, s), t.position.value);
    } else if t.position.Some? {
      var high, low := ExtremesExist(feed, start, pos);
      LiveAtr(cfg, feed, i, start, pos - 1, s, high, low);
      ExtremesInOrder(feed, start, pos, high, low);
      ZeroAtrIsRest(feed.signal[i].atr.value, high, low, feed.signal[i].prevClose1);
      NoRangeNoMove(feed, i, start, pos, high, low);
    }
  }

  lemma ExtremesInOrder(feed: Feed, start: nat, pos: nat, high: real, low: real)
    requires start < pos <= |feed.seconds| && Sane(feed.seconds[start])
    requires IsHigh(feed, start, pos, high) && IsLow(feed, start, pos, low)
    ensures low <= high
  {
    Within(feed, start, pos, high, low, start);
  }

  // ----- a run in which it moves -----

  const BREAKOUT_ROW := SignalRow(0, Some(140.0), Some(50.0), 0.0, Some(50.0), Some(60.0), None, Some(80.0), None, None,
                                  None, None, None, None)

  const QUIET_ROW := SignalRow(1000, Some(0.0), None, 0.0, None, None, None, None, None, None, Some(120.0), None, None, None)

  /** An entry in the first bar; a second bar with a closed ATR of zero that rests and then rises. */
  const QUIET_FEED := Feed([Second(0, 100.0, 100.0, 100.0), Second(1000, 120.0, 120.0, 120.0), Second(2000, 134.0, 120.0, 130.0)],
                           [BREAKOUT_ROW, QUIET_ROW, QUIET_ROW.(time := 3000)], map[])

  lemma QuietBars()
    ensures StartOf(QUIET_FEED, 0) == 0 && EndOf(QUIET_FEED, 0) == 2
    ensures StartOf(QUIET_FEED, 1) == 1 && EndOf(QUIET_FEED, 1) == 3
  {
    var all := QUIET_FEED.seconds;
    assert all[..3][..2] == all[..2] && all[..2][..1] == all[..1] && all[..1][..0] == [] && all[..3] == all;
    CountThree(all, 0);
    CountThree(all, 1000);
    CountThree(all, 1001);
    CountThree(all, 3001);
  }

  /** The position of the run, as far as it matters here. */
  predicate HoldsAt(s: State, stop: real, water: real, isProtected: bool) {
    s.position.Some? &&
    var p := s.position.value;
    p.side == Long && p.shape == ORIGINAL_T2 && p.entryPrice == 93.0465 && p.stop == stop && p.water == water && p.isProtected == isProtected
  }

  lemma Enters(s: State)
    requires s == StartBar(Initial(1000.0), 0)
    ensures var t := StepSecond(BASELINE, QUIET_FEED, 0, 0, 0, s);
      HoldsAt(t, 86.5465, 93.0465, false) && t.barHigh == Some(100.0) && t.barLow == Some(100.0)
  {
    var here := HereAt(BASELINE, QUIET_FEED, 0, 0, 0, s);
    assert here.sig == Signal(BREAKOUT_ROW, 130.0, Some(50.0), 100.0);
    var s1 := Observe(BASELINE, QUIET_FEED, s, here);
    assert RegimeReady(here.sig, Long);
    var s2 := TryLock(BASELINE, s1, here, Long);
    assert BreakoutOf(BREAKOUT_ROW, Long, 100.0, true) == Some(Breakout(60.0, ORIGINAL_T2));
    assert s2.zero == Window(Some(Long), ORIGINAL_T2, 1.0, "", 0, 0);
    assert TryExternal(QUIET_FEED, s2, here, Long) == s2;
    assert ReentryPrice(here.sig, Long, 0.1) == Some(93.0);
  }

  /** A held second at 120 changes the water mark, and the protection if the ATR is zero. */
  lemma Rests(feed: Feed, i: nat, start: nat, pos: nat, s: State, atr: real, water: real)
    requires i < |feed.signal| && pos < |feed.seconds| && feed.signal[i].atr.Some?
    requires HoldsAt(s, 86.5465, water, false)
    requires HereAt(BASELINE, feed, i, start, pos, s).sig.atr == atr
    requires feed.seconds[pos].high == feed.seconds[pos].low == 120.0 && water <= 120.0
    requires atr == 0.0 || atr > 60.0
    ensures HoldsAt(StepSecond(BASELINE, feed, i, start, pos, s), 86.5465, 120.0, atr == 0.0)
  {
    hide Forced, SignalAt;
    var here, p := HereAt(BASELINE, feed, i, start, pos, s), s.position.value;
    if atr > 0.0 {
      NotFarEnough(water, atr);
      NotFarEnough(120.0, atr);
    }
    assert PreCheck(BASELINE, here, p) == p;
    assert ExitTrigger(BASELINE, here, p).None?;
  }

  lemma NotFarEnough(water: real, atr: real)
    requires water <= 120.0 && atr > 60.0
    ensures ProfitAtr(Long, 93.0465, water, atr) < 0.5
  {
    var ahead := water - 93.0465;
    if ahead / atr >= 0.5 {
      assert ahead / atr * atr == ahead;
    }
  }

  /** Bar 0: the entry, then a second that leaves the stop alone. */
  lemma FirstBar()
    ensures HoldsAt(RunBars(BASELINE, QUIET_FEED, 1, 1000.0), 86.5465, 120.0, false)
  {
    hide StepSecond, StartOf, EndOf, HoldsAt;
    QuietBars();
    var s0 := StartBar(Initial(1000.0), 0);
    var s1 := StepSecond(BASELINE, QUIET_FEED, 0, 0, 0, s0);
    var s2 := StepSecond(BASELINE, QUIET_FEED, 0, 0, 1, s1);
    Enters(s0);
    assert HereAt(BASELINE, QUIET_FEED, 0, 0, 1, s1).sig.atr == 1840.0 / 14.0;
    Rests(QUIET_FEED, 0, 0, 1, s1, 1840.0 / 14.0, 93.0465);
    TwoSecondRun(s0);
    assert RunBars(BASELINE, QUIET_FEED, 0, 1000.0) == Initial(1000.0);
    assert RunBars(BASELINE, QUIET_FEED, 1, 1000.0) == RunBar(BASELINE, QUIET_FEED, 0, Initial(1000.0));
  }

  lemma OneSecondRun(i: nat, start: nat, s: State)
    requires i < 2 && start < 2
    ensures RunSeconds(BASELINE, QUIET_FEED, i, start, start + 1, s) == StepSecond(BASELINE, QUIET_FEED, i, start, start, s)
  {
    hide StepSecond;
    assert RunSeconds(BASELINE, QUIET_FEED, i, start, start, s) == s;
  }

  lemma TwoSecondRun(s: State)
    ensures RunSeconds(BASELINE, QUIET_FEED, 0, 0, 2, s) ==
      StepSecond(BASELINE, QUIET_FEED, 0, 0, 1, StepSecond(BASELINE, QUIET_FEED, 0, 0, 0, s))
  {
    hide StepSecond;
    OneSecondRun(0, 0, s);
  }

  /** In the second second of bar 1 the update moves the stop from 86.5465 to 119.7. */
  lemma ZeroAtrMovesTheStop()
    ensures SaneFeed(QUIET_FEED) && IsLater(QUIET_FEED, 1, 2) && QUIET_FEED.signal[1].atr == Some(0.0)
    ensures !Idle(BASELINE, QUIET_FEED, 1000.0, 1, 2)
  {
    hide StepSecond, StartOf, EndOf, RunBars, RunSeconds, RunningHigh, RunningLow;
    QuietBars();
    FirstBar();
    var before := StartBar(RunBars(BASELINE, QUIET_FEED, 1, 1000.0), 1);
    assert HereAt(BASELINE, QUIET_FEED, 1, 1, 1, before).sig.atr == 0.0;
    Rests(QUIET_FEED, 1, 1, 1, before, 0.0, 120.0);
    OneSecondRun(1, 1, before);
    var s := StateAt(BASELINE, QUIET_FEED, 1, 2, 1000.0);
    assert HoldsAt(s, 86.5465, 120.0, true);
    StepExtremes(BASELINE, QUIET_FEED, 1, 1, 1, before);
    SeesTheFeed(BASELINE, QUIET_FEED, 1, 2, 1000.0);
    assert HereOf(BASELINE, QUIET_FEED, Step(1, 2)).sig.atr == 1.0;
    assert PreCheck(BASELINE, HereOf(BASELINE, QUIET_FEED, Step(1, 2)), s.position.value).stop == 119.7;
  }

  /** For the shared parameters and a closed ATR that is not negative: the update is idle in every later
      second of every bar with that ATR, in every run, if and only if the ATR is positive. */
  lemma IdleExactly(closedAtr: real)
    requires closedAtr >= 0.0
    ensures closedAtr > 0.0 <==> IdleAt(closedAtr)
  {
    hide Idle, SaneFeed, StartOf, EndOf;
    if closedAtr > 0.0 {
      forall feed, balance, i: nat, pos: nat
        | SaneFeed(feed) && IsLater(feed, i, pos) && feed.signal[i].atr.value == closedAtr
        ensures Idle(BASELINE, feed, balance, i, pos)
      {
        IdleWithAtr(BASELINE, feed, balance, i, pos);
      }
    } else {
      ZeroAtrMovesTheStop();
    }
  }

  ghost predicate IdleAt(closedAtr: real) {
    forall feed, balance, i: nat, pos: nat ::
      SaneFeed(feed) && IsLater(feed, i, pos) && feed.signal[i].atr.value == closedAtr ==>
        Idle(BASELINE, feed, balance, i, pos)
  }
}
