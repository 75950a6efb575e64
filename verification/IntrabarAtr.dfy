/** The ATR a second sees in live mode, and why the trailing update before the exit check can move a
    stop only in the first second of a bar. */
module IntrabarAtr {
  import opened EngineLedger
  import opened FeedView
  import opened Market
  import opened Options
  import opened Reals
  import opened SecondReplay

  // ----- what the ATR depends on -----

  /** A second whose close lies within its range. */
  predicate Sane(second: Second) { second.low <= second.close <= second.high }

  /** The true range of a running bar: of its extremes and the previous close, if there is one. */
  function TrueRange(high: real, low: real, prevClose: Option<real>): real {
    if prevClose.None? then high - low
    else Max(Max(high - low, Abs(high - prevClose.value)), Abs(low - prevClose.value))
  }

  function AtrOf(closedAtr: real, high: real, low: real, prevClose: Option<real>): real {
    (closedAtr * 13.0 + TrueRange(high, low, prevClose)) / 14.0
  }

  /** `high` is the highest high of the seconds from `start` up to, not including, `end`. */
  ghost predicate IsHigh(feed: Feed, start: nat, end: nat, high: real)
    requires end <= |feed.seconds|
  {
    && (forall k :: start <= k < end ==> feed.seconds[k].high <= high)
    && (exists k :: start <= k < end && feed.seconds[k].high == high)
  }

  ghost predicate IsLow(feed: Feed, start: nat, end: nat, low: real)
    requires end <= |feed.seconds|
  {
    && (forall k :: start <= k < end ==> low <= feed.seconds[k].low)
    && (exists k :: start <= k < end && feed.seconds[k].low == low)
  }

  lemma HighGrows(feed: Feed, start: nat, end: nat, high: Option<real>)
    requires start <= end < |feed.seconds|
    requires high.Some? <==> start < end
    requires high.Some? ==> IsHigh(feed, start, end, high.value)
    ensures IsHigh(feed, start, end + 1, Higher(high, feed.seconds[end].high))
  {
    var x := feed.seconds[end].high;
    if high.Some? && Higher(high, x) == high.value {
      var k :| start <= k < end && feed.seconds[k].high == high.value;
    }
  }

  lemma LowGrows(feed: Feed, start: nat, end: nat, low: Option<real>)
    requires start <= end < |feed.seconds|
    requires low.Some? <==> start < end
    requires low.Some? ==> IsLow(feed, start, end, low.value)
    ensures IsLow(feed, start, end + 1, Lower(low, feed.seconds[end].low))
  {
    var x := feed.seconds[end].low;
    if low.Some? && Lower(low, x) == low.value {
      var k :| start <= k < end && feed.seconds[k].low == low.value;
    }
  }

  /** The running extremes are attained bounds of the seconds so far. */
  lemma {:induction false} RunningIsExtreme(feed: Feed, start: nat, pos: nat)
    requires start < pos <= |feed.seconds|
    ensures RunningHigh(feed, start, pos).Some? && IsHigh(feed, start, pos, RunningHigh(feed, start, pos).value)
    ensures RunningLow(feed, start, pos).Some? && IsLow(feed, start, pos, RunningLow(feed, start, pos).value)
    decreases pos
  {
    hide IsHigh, IsLow, Higher, Lower;
    if start < pos - 1 {
      RunningIsExtreme(feed, start, pos - 1);
    }
    HighGrows(feed, start, pos - 1, RunningHigh(feed, start, pos - 1));
    LowGrows(feed, start, pos - 1, RunningLow(feed, start, pos - 1));
  }

  /** The state just before second `pos` of a bar, and what that second sees. */
  ghost function HereIn(cfg: Config, feed: Feed, i: nat, start: nat, pos: nat, s: State): Here
    requires i < |feed.signal| && start <= pos < |feed.seconds| && feed.signal[i].atr.Some?
  {
    HereAt(cfg, feed, i, start, pos, RunSeconds(cfg, feed, i, start, pos, s))
  }

  lemma AtrOfSignal(row: SignalRow, high: real, low: real, close: real)
    requires row.atr.Some? && low <= close <= high
    ensures IntrabarSignal(row, high, low, close).atr == AtrOf(row.atr.value, high, low, row.prevClose1)
  {}

  /** In live mode the ATR of a second is a function of the closed ATR, the bar's running high and low
      and the previous close, whatever the engine did before. */
  lemma LiveAtr(cfg: Config, feed: Feed, i: nat, start: nat, pos: nat, s: State, high: real, low: real)
    requires cfg.live && i < |feed.signal| && start <= pos < |feed.seconds| && feed.signal[i].atr.Some?
    requires s.barHigh.None? && s.barLow.None? && Sane(feed.seconds[pos])
    requires IsHigh(feed, start, pos + 1, high) && IsLow(feed, start, pos + 1, low)
    ensures HereIn(cfg, feed, i, start, pos, s).sig.atr
      == AtrOf(feed.signal[i].atr.value, high, low, feed.signal[i].prevClose1)
  {
    hide IsHigh, IsLow, Higher, Lower, RunSeconds, IntrabarSignal, AtrOf;
    var before, second := RunSeconds(cfg, feed, i, start, pos, s), feed.seconds[pos];
    RunExtremes(cfg, feed, i, start, pos, s);
    RunningIsExtreme(feed, start, pos + 1);
    OneExtreme(feed, start, pos + 1, high, Higher(before.barHigh, second.high), low, Lower(before.barLow, second.low));
    assert second.high <= high && low <= second.low by { Within(feed, start, pos + 1, high, low, pos); }
    AtrOfSignal(feed.signal[i], high, low, second.close);
  }

  lemma OneExtreme(feed: Feed, start: nat, end: nat, h1: real, h2: real, l1: real, l2: real)
    requires end <= |feed.seconds|
    requires IsHigh(feed, start, end, h1) && IsHigh(feed, start, end, h2)
    requires IsLow(feed, start, end, l1) && IsLow(feed, start, end, l2)
    ensures h1 == h2 && l1 == l2
  {}

  lemma Within(feed: Feed, start: nat, end: nat, high: real, low: real, k: nat)
    requires end <= |feed.seconds| && start <= k < end
    requires IsHigh(feed, start, end, high) && IsLow(feed, start, end, low)
    ensures feed.seconds[k].high <= high && low <= feed.seconds[k].low
  {}

  // ----- it never falls -----

  lemma WiderRange(high: real, low: real, high2: real, low2: real, prevClose: Option<real>)
    requires low2 <= low <= high <= high2
    ensures 0.0 <= TrueRange(high, low, prevClose) <= TrueRange(high2, low2, prevClose)
  {}

  lemma WiderAtr(closedAtr: real, high: real, low: real, high2: real, low2: real, prevClose: Option<real>)
    requires low2 <= low <= high <= high2
    ensures closedAtr * 13.0 / 14.0 <= AtrOf(closedAtr, high, low, prevClose) <= AtrOf(closedAtr, high2, low2, prevClose)
  {
    hide TrueRange;
    WiderRange(high, low, high2, low2, prevClose);
  }

  /** Within a bar the live ATR never falls from one second to a later one, and it stays above
      thirteen fourteenths of the closed ATR. */
  lemma AtrNeverFalls(cfg: Config, feed: Feed, i: nat, start: nat, pos: nat, later: nat, s: State)
    requires cfg.live && i < |feed.signal| && start <= pos <= later < |feed.seconds| && feed.signal[i].atr.Some?
    requires s.barHigh.None? && s.barLow.None?
    requires forall k :: start <= k <= later ==> Sane(feed.seconds[k])
    ensures feed.signal[i].atr.value * 13.0 / 14.0 <= HereIn(cfg, feed, i, start, pos, s).sig.atr
      <= HereIn(cfg, feed, i, start, later, s).sig.atr
  {
    hide IsHigh, IsLow, RunSeconds, HereIn, AtrOf;
    var h1, l1 := ExtremesExist(feed, start, pos + 1);
    var h2, l2 := ExtremesExist(feed, start, later + 1);
    LiveAtr(cfg, feed, i, start, pos, s, h1, l1);
    LiveAtr(cfg, feed, i, start, later, s, h2, l2);
    MoreSeconds(feed, start, pos + 1, later + 1, h1, l1, h2, l2);
    Within(feed, start, pos + 1, h1, l1, pos);
    WiderAtr(feed.signal[i].atr.value, h1, l1, h2, l2, feed.signal[i].prevClose1);
  }

  lemma ExtremesExist(feed: Feed, start: nat, end: nat) returns (high: real, low: real)
    requires start < end <= |feed.seconds|
    ensures IsHigh(feed, start, end, high) && IsLow(feed, start, end, low)
  {
    hide IsHigh, IsLow;
    RunningIsExtreme(feed, start, end);
    high, low := RunningHigh(feed, start, end).value, RunningLow(feed, start, end).value;
  }

  lemma MoreSeconds(feed: Feed, start: nat, end: nat, later: nat, h1: real, l1: real, h2: real, l2: real)
    requires end <= later <= |feed.seconds|
    requires IsHigh(feed, start, end, h1) && IsLow(feed, start, end, l1)
    requires IsHigh(feed, start, later, h2) && IsLow(feed, start, later, l2)
    ensures h1 <= h2 && l2 <= l1
  {}

  // ----- the update before the exit check -----

  /** The stop already is at least as good as the trail offers at an ATR. */
  ghost predicate Absorbed(cfg: Config, p: Position, atr: real) {
    ProfitAtr(p.side, p.entryPrice, p.water, atr) >= cfg.activation ==>
      NoWorse(p.side, p.stop, TrailStop(p.side, p.water, atr, cfg.trailingAtr))
  }

  /** Parameters under which the trail only loosens as the ATR grows. */
  predicate TrailConfig(cfg: Config) {
    cfg.overrides == NO_OVERRIDES && cfg.activation > 0.0 && cfg.trailingAtr >= 0.0
  }

  lemma TrailLoosens(cfg: Config, p: Position, atr: real, later: real)
    requires TrailConfig(cfg) && Absorbed(cfg, p, atr) && 0.0 < atr <= later
    ensures Absorbed(cfg, p, later)
  {
    hide ProfitAtr, TrailStop;
    if ProfitAtr(p.side, p.entryPrice, p.water, later) >= cfg.activation {
      ProfitShrinks(p.side, p.entryPrice, p.water, atr, later, cfg.activation);
      TrailStopLoosens(p.side, p.water, atr, later, cfg.trailingAtr);
    }
  }

  lemma ProfitShrinks(side: Side, entry: real, water: real, atr: real, later: real, activation: real)
    requires 0.0 < atr <= later && activation > 0.0 && ProfitAtr(side, entry, water, later) >= activation
    ensures ProfitAtr(side, entry, water, atr) >= activation
  {
    var ahead := if side == Long then water - entry else entry - water;
    PositiveProfit(ahead, later);
    DivAntitone(ahead, atr, later);
  }

  lemma TrailStopLoosens(side: Side, water: real, atr: real, later: real, trailingAtr: real)
    requires atr <= later && trailingAtr >= 0.0
    ensures NoWorse(side, TrailStop(side, water, atr, trailingAtr), TrailStop(side, water, later, trailingAtr))
  {
    MulMonotone(atr, later, trailingAtr);
  }

  lemma PositiveProfit(ahead: real, atr: real)
    requires atr > 0.0 && ahead / atr > 0.0
    ensures ahead >= 0.0
  {
    if ahead < 0.0 {
      DivMonotone(ahead, 0.0, atr);
    }
  }

  /** A position just opened has no profit yet. */
  lemma EntryAbsorbs(cfg: Config, p: Position, atr: real)
    requires TrailConfig(cfg) && p.water == p.entryPrice
    ensures Absorbed(cfg, p, atr)
  {
    if atr > 0.0 {
      ZeroQuotient(atr);
    }
  }

  lemma ZeroQuotient(atr: real)
    requires atr > 0.0
    ensures 0.0 / atr == 0.0
  {}

  lemma PostCheckAbsorbs(cfg: Config, here: Here, p: Position)
    requires TrailConfig(cfg)
    ensures Absorbed(cfg, PostCheck(cfg, here, p), here.sig.atr)
  {
    hide ProfitAtr, TrailStop;
  }

  lemma OpenAbsorbs(cfg: Config, s: State, here: Here, side: Side, raw: real, reason: Reason, w: Window, atr: real)
    requires TrailConfig(cfg)
    ensures var t := OpenPosition(cfg, s, here, side, raw, reason, w); t.position.Some? && Absorbed(cfg, t.position.value, atr)
  {
    hide Absorbed, AtrStop, OrderShare, EntryPrice;
    var t := OpenPosition(cfg, s, here, side, raw, reason, w);
    EntryAbsorbs(cfg, t.position.value, atr);
  }

  ghost predicate AllAbsorbed(cfg: Config, s: State, atr: real) {
    s.position.Some? ==> Absorbed(cfg, s.position.value, atr)
  }

  lemma FlatAbsorbs(cfg: Config, feed: Feed, s: State, here: Here, side: Side)
    requires TrailConfig(cfg) && s.position.None?
    ensures AllAbsorbed(cfg, FlatStep(cfg, feed, s, here, side), here.sig.atr)
  {
    hide TryLock, TryExternal, OpenPosition, FillTriggered, Absorbed;
    var s2 := TryExternal(feed, TryLock(cfg, s, here, side), here, side);
    LocksKeepBooks(cfg, feed, s, here, side);
    forall raw: real, reason, w: Window
      ensures AllAbsorbed(cfg, OpenPosition(cfg, s2, here, side, raw, reason, w), here.sig.atr)
    {
      OpenAbsorbs(cfg, s2, here, side, raw, reason, w, here.sig.atr);
    }
  }

  lemma HoldAbsorbs(cfg: Config, s: State, here: Here, p: Position)
    requires TrailConfig(cfg)
    ensures AllAbsorbed(cfg, HoldStep(cfg, s, here, p), here.sig.atr)
  {
    hide PreCheck, PostCheck, ExitTrigger, Absorbed, Pnl, ExitPrice, TrailAllowed;
    PostCheckAbsorbs(cfg, here, PreCheck(cfg, here, p));
  }

  lemma StepAbsorbs(cfg: Config, feed: Feed, i: nat, start: nat, pos: nat, s: State)
    requires TrailConfig(cfg)
    requires i < |feed.signal| && pos < |feed.seconds| && feed.signal[i].atr.Some?
    ensures AllAbsorbed(cfg, StepSecond(cfg, feed, i, start, pos, s), HereAt(cfg, feed, i, start, pos, s).sig.atr)
  {
    hide FlatStep, HoldStep, SideReady, Forced, Higher, Lower, Absorbed, SignalAt;
    var here := HereAt(cfg, feed, i, start, pos, s);
    var s1 := Observe(cfg, feed, s, here);
    if s1.position.Some? {
      HoldAbsorbs(cfg, s1, here, s1.position.value);
    } else {
      FlatAbsorbs(cfg, feed, s1, here, Long);
      FlatAbsorbs(cfg, feed, s1, here, Short);
    }
  }

  lemma AbsorbedIsIdle(cfg: Config, here: Here, p: Position)
    requires cfg.overrides == NO_OVERRIDES && Absorbed(cfg, p, here.sig.atr)
    ensures PreCheck(cfg, here, p) == p
  {
    hide ProfitAtr, TrailStop;
  }

  /** In live mode, with a positive activation, no exit overrides, a trail on the safe side and a
      positive closed ATR, the update before the exit check leaves every position alone in every second
      of a bar but the first, whatever happened before the bar. */
  lemma PreCheckIsIdle(cfg: Config, feed: Feed, i: nat, start: nat, pos: nat, s: State)
    requires cfg.live && TrailConfig(cfg)
    requires i < |feed.signal| && start < pos < |feed.seconds|
    requires feed.signal[i].atr.Some? && feed.signal[i].atr.value > 0.0
    requires s.barHigh.None? && s.barLow.None?
    requires forall k :: start <= k <= pos ==> Sane(feed.seconds[k])
    ensures var t := RunSeconds(cfg, feed, i, start, pos, s);
      t.position.Some? ==> PreCheck(cfg, HereIn(cfg, feed, i, start, pos, s), t.position.value) == t.position.value
  {
    hide PreCheck, StepSecond, HereAt, Absorbed, SignalAt;
    var t := RunSeconds(cfg, feed, i, start, pos, s);
    var before := RunSeconds(cfg, feed, i, start, pos - 1, s);
    AtrNeverFalls(cfg, feed, i, start, pos - 1, pos, s);
    StepAbsorbs(cfg, feed, i, start, pos - 1, before);
    if t.position.Some? {
      var p := t.position.value;
      TrailLoosens(cfg, p, HereIn(cfg, feed, i, start, pos - 1, s).sig.atr, HereIn(cfg, feed, i, start, pos, s).sig.atr);
      AbsorbedIsIdle(cfg, HereIn(cfg, feed, i, start, pos, s), p);
    }
  }
}
