/** The frame of a run of the second engine: how it begins, what a new bar changes, which seconds belong to
    a bar, what a second shows, and how the run ends. Between these, every second is decided by
    EngineExits and EngineOpenings. */
module EngineBars {
  import opened EngineLedger
  import opened EngineOpenings
  import opened EngineStops
  import opened FeedView
  import opened IntrabarAtr
  import opened Market
  import opened Options
  import opened Rulebook
  import opened SecondReplay
  import opened Steps

  // ----- which seconds belong to a bar -----

  ghost predicate InTimeOrder(seconds: seq<Second>) {
    forall j, k :: 0 <= j < k < |seconds| ==> seconds[j].time <= seconds[k].time
  }

  lemma {:induction false} CountSplits(seconds: seq<Second>, t: int, k: nat)
    requires InTimeOrder(seconds) && k < |seconds|
    ensures seconds[k].time < t <==> k < CountBefore(seconds, t)
    decreases |seconds|
  {
    var n := |seconds| - 1;
    if k < n {
      CountSplits(seconds[..n], t, k);
    } else if n > 0 {
      if seconds[n].time < t {
        CountAll(seconds[..n], t);
      }
    }
  }

  lemma {:induction false} CountAll(seconds: seq<Second>, t: int)
    requires forall k :: 0 <= k < |seconds| ==> seconds[k].time < t
    ensures CountBefore(seconds, t) == |seconds|
  {
    if seconds != [] {
      CountAll(seconds[..|seconds| - 1], t);
    }
  }

  /** Over seconds in time order, the steps of a bar are the seconds from its own time up to and including
      that of the next bar; a bar without an ATR has none, and neither has the last one. */
  lemma StepsAreTimed(feed: Feed, i: nat, k: nat)
    requires InTimeOrder(feed.seconds) && i < |feed.signal| && k < |feed.seconds|
    ensures IsStep(feed, Step(i, k)) <==>
      && i + 1 < |feed.signal| && feed.signal[i].atr.Some?
      && feed.signal[i].time <= feed.seconds[k].time <= feed.signal[i + 1].time
  {
    hide CountBefore;
    CountSplits(feed.seconds, feed.signal[i].time, k);
    if i + 1 < |feed.signal| {
      CountSplits(feed.seconds, feed.signal[i + 1].time + 1, k);
    }
  }

  // ----- what a second shows -----

  /** The largest of three values. */
  predicate IsLargest(x: real, a: real, b: real, c: real) {
    x >= a && x >= b && x >= c && (x == a || x == b || x == c)
  }

  /** The distance of two prices. */
  function Between(a: real, b: real): real { if a < b then b - a else a - b }

  /** The live signal of a running bar: its range, or its way from the previous close if that is longer,
      enters the ATR with one part in fourteen, and its close is the fifth of the average. */
  ghost predicate IsLive(sig: Signal, row: SignalRow, high: real, low: real, close: real)
    requires row.atr.Some?
  {
    var before := match row.prevClose1 case Some(c) => c case None => close;
    && sig.row == row && sig.close == close
    && IsLargest(14.0 * sig.atr - 13.0 * row.atr.value, high - low, Between(high, before), Between(low, before))
    && (match (row.prevClose1, row.prevClose2, row.prevClose3, row.prevClose4)
        case (Some(a), Some(b), Some(c), Some(d)) => sig.ma5.Some? && 5.0 * sig.ma5.value == a + b + c + d + close
        case _ => sig.ma5 == row.ma5)
  }

  lemma LiveSignal(row: SignalRow, high: real, low: real, close: real)
    requires row.atr.Some?
    ensures IsLive(IntrabarSignal(row, high, low, close), row, high, low, close)
  {
    var before := if row.prevClose1.Some? then row.prevClose1.value else close;
    var range := Max(Max(high - low, Abs(high - before)), Abs(low - before));
    assert IsLargest(range, high - low, Between(high, before), Between(low, before));
    assert 14.0 * IntrabarSignal(row, high, low, close).atr == 13.0 * row.atr.value + range;
  }

  /** Every step shows its second, the close before it within the bar, and a signal: the closed one, or in
      live mode that of the bar so far. */
  lemma ShowsExactly(cfg: Config, feed: Feed, step: Step) returns (high: real, low: real)
    requires IsStep(feed, step)
    ensures var here, row, start := HereOf(cfg, feed, step), feed.signal[step.bar], StartOf(feed, step.bar);
      && here.bar == step.bar && here.pos == step.second && here.second == feed.seconds[step.second]
      && here.prevClose == (if step.second == start then None else Some(feed.seconds[step.second - 1].close))
      && IsHigh(feed, start, step.second + 1, high) && IsLow(feed, start, step.second + 1, low)
      && (if cfg.live then IsLive(here.sig, row, high, low, here.second.close)
          else here.sig == Signal(row, row.atr.value, row.ma5, row.close))
  {
    hide StartOf, EndOf, IntrabarSignal, IsHigh, IsLow, IsLive, Higher, Lower;
    var row, start := feed.signal[step.bar], StartOf(feed, step.bar);
    RunningIsExtreme(feed, start, step.second + 1);
    high, low := RunningHigh(feed, start, step.second + 1).value, RunningLow(feed, start, step.second + 1).value;
    LiveSignal(row, high, low, feed.seconds[step.second].close);
  }

  // ----- from bar to bar -----

  /** A window is forgotten when it is more than a bar old. */
  ghost predicate Kept(w: Window, bar: int, after: Window) {
    if bar <= w.bar + 1 then after == w else after.side.None? && after.bar == w.bar
  }

  /** A run begins flat, with nothing recorded. */
  lemma RunBegins(cfg: Config, feed: Feed, initial: real)
    ensures var s := RunBars(cfg, feed, 0, initial);
      && s.balance == initial && s.position.None? && s.ledger == [] && s.locks == [] && s.consumed == {}
      && s.exit.side.None? && s.zero.side.None?
  {}

  /** A new bar counts its trades and breakouts afresh, forgets old windows, and keeps everything else. */
  lemma BarBegins(cfg: Config, feed: Feed, i: nat, initial: real)
    requires Visited(feed, i)
    ensures var s, t := RunBars(cfg, feed, i, initial), StateAt(cfg, feed, i, StartOf(feed, i), initial);
      && t.balance == s.balance && t.position == s.position && t.ledger == s.ledger && t.held == s.held
      && t.locks == s.locks && t.consumed == s.consumed && t.lastT3Lock == s.lastT3Lock && t.exitReason == s.exitReason
      && Kept(s.exit, i, t.exit) && Kept(s.zero, i, t.zero)
      && t.tradesInBar == 0 && !t.lockedThisBar && t.forced == {}
  {
    hide RunBars, StartOf, EndOf;
  }

  /** A bar that is visited is run to its last second; any other one changes nothing. */
  lemma BarEnds(cfg: Config, feed: Feed, i: nat, initial: real)
    requires i + 1 < |feed.signal|
    ensures RunBars(cfg, feed, i + 1, initial) ==
      if Visited(feed, i) then StateAt(cfg, feed, i, EndOf(feed, i), initial) else RunBars(cfg, feed, i, initial)
  {
    hide StartOf, EndOf, RunSeconds, StartBar;
  }

  /** In a second, exactly the sides that events concern become ready whatever their regime, and outside the
      live mode they stay so. */
  lemma ForcedExactly(cfg: Config, feed: Feed, i: nat, pos: nat, initial: real, side: Side)
    requires IsStep(feed, Step(i, pos))
    ensures var s, t := StateAt(cfg, feed, i, pos, initial), StateAt(cfg, feed, i, pos + 1, initial);
      side in t.forced <==> Concerned(feed, s, feed.signal[i].time, side) || (!cfg.live && side in s.forced)
  {
    hide StateAt, StartOf, EndOf, StepSecond, Concerned, Interested, HereOf, SideReady;
    NextState(cfg, feed, i, pos, initial);
    var s := StateAt(cfg, feed, i, pos, initial);
    StepForces(cfg, feed, i, StartOf(feed, i), pos, s);
    ConcernedIsInterested(feed, s, feed.signal[i].time, side);
  }

  lemma StepForces(cfg: Config, feed: Feed, i: nat, start: nat, pos: nat, s: State)
    requires i < |feed.signal| && pos < |feed.seconds| && feed.signal[i].atr.Some?
    ensures StepSecond(cfg, feed, i, start, pos, s).forced ==
      Forced(feed, s, feed.signal[i].time) + if cfg.live then {} else s.forced
  {
    hide Forced, FlatStep, HoldStep, SideReady, Higher, Lower;
    var here := HereAt(cfg, feed, i, start, pos, s);
    var s1 := Observe(cfg, feed, s, here);
    StepsKeepForced(cfg, feed, s1, here, Long);
    StepsKeepForced(cfg, feed, s1, here, Short);
    RowShown(cfg, feed, i, start, pos, s);
  }

  lemma RowShown(cfg: Config, feed: Feed, i: nat, start: nat, pos: nat, s: State)
    requires i < |feed.signal| && pos < |feed.seconds| && feed.signal[i].atr.Some?
    ensures HereAt(cfg, feed, i, start, pos, s).sig.row == feed.signal[i]
  {
    hide Higher, Lower;
  }

  lemma StepsKeepForced(cfg: Config, feed: Feed, s: State, here: Here, side: Side)
    ensures FlatStep(cfg, feed, s, here, side).forced == s.forced
    ensures s.position.Some? ==> HoldStep(cfg, s, here, s.position.value).forced == s.forced
  {
    hide BreakoutOf, LockAllowed, EventReady, FillTriggered, ReentryPrice, AtrStop, OrderNotional, PreCheck, PostCheck,
         ExitTrigger, Pnl, ExitPrice;
  }

  // ----- the end -----

  /** A replay ends with its last bar; a position still open is left at the last close of the feed. */
  lemma RunEnds(cfg: Config, feed: Feed, initial: real)
    ensures var s := RunBars(cfg, feed, if |feed.signal| == 0 then 0 else |feed.signal| - 1, initial);
      var t := Replay(cfg, feed, initial);
      if s.position.None? then t == s
      else
        && feed.seconds != [] && s.ledger != []
        && var entry, last := s.ledger[|s.ledger| - 1], feed.seconds[|feed.seconds| - 1];
           var price := Left(entry.side, last.close, cfg.slippage);
           && t.position.None?
           && t.balance == s.balance + Made(entry.side, entry.price, entry.notional, price) - entry.notional * 0.001
           && t.ledger == s.ledger + [Row(last.time, Exit, price, FinalMarkToMarket, entry.notional, t.balance, entry.shape,
                                          entry.side, |feed.signal|, |feed.seconds|, 0.0, 0.0)]
  {
    hide RunBars, Initial, PnlOf, Made, ExitPrice, Left, StepsBefore;
    var n := if |feed.signal| == 0 then 0 else |feed.signal| - 1;
    var s := RunBars(cfg, feed, n, initial);
    if feed.seconds == [] {
      NoSecondsNoTrades(cfg, feed, n, initial);
      StartsFlat(initial);
    }
    if s.position.Some? {
      StopsOfBars(cfg, feed, n, initial);
      var p, last := s.position.value, feed.seconds[|feed.seconds| - 1];
      SlippedPrices(p.side, last.close, cfg.slippage);
      MadeIsPnl(p.side, p.entryPrice, p.notional, Left(p.side, last.close, cfg.slippage));
    }
  }

  lemma StartsFlat(initial: real)
    ensures Initial(initial).position.None?
  {}

  lemma StopsOfBars(cfg: Config, feed: Feed, n: nat, initial: real)
    requires n == 0 || n < |feed.signal|
    ensures StopsOk(cfg, RunBars(cfg, feed, n, initial))
  {
    hide RunKept, RunBars, StopsOk, HeldOk, StepsBefore;
    StopsKept(cfg, feed, initial);
    KeptBars(cfg, feed, (s, i) => EngineStops.BeforeBar(cfg, feed, s, i), (s, i, pos) => EngineStops.InsideBar(cfg, feed, s, i, pos),
             initial, n);
  }
}
