/** What every minute of a run of the one-minute engine does, with and without a position: decided by the
    feed, the minutes since the entry, the windows and the parameters. */
module EnhancedDecisions {
  import opened Breakers
  import opened EnhancedReplay
  import opened EnhancedStops
  import opened Market
  import opened Options
  import opened Rulebook
  import S = SecondReplay
  import opened Steps
  import opened StopHistory

  // ----- with a position -----

  /** The tighter of two levels. */
  function Tighter(side: Side, a: real, b: real): real {
    match side case Long => if a < b then b else a case Short => if a < b then a else b
  }

  /** The level that guards a protected position, and under which name. With tiers it tightens once the
      water mark is two or three ATRs ahead of the entry: to half an ATR beyond the entry, to one and a
      half behind the water mark. */
  function GuardFor(cfg: Config, t: StopHistory.Trade, water: real, row: SignalRow, atr: real): (Option<real>, Reason) {
    var guard, ahead := Guard(t.side, row), Ahead(t, water);
    if cfg.tiered && atr > 0.0 && ahead >= 3.0 * atr then
      (match guard
       case None => (None, PTTier3)
       case Some(level) =>
         (Some(Tighter(t.side, level, match t.side case Long => water - 1.5 * atr case Short => water + 1.5 * atr)), PTTier3))
    else if cfg.tiered && atr > 0.0 && ahead >= 2.0 * atr then
      (match guard
       case None => (None, PTTier2)
       case Some(level) =>
         (Some(Tighter(t.side, level, match t.side case Long => t.entryPrice + 0.5 * atr case Short => t.entryPrice - 0.5 * atr)),
          PTTier2))
    else (guard, PT)
  }

  /** What a minute does to a position: the stop first, then the guard of a protected one. */
  function Outcome(cfg: Config, t: StopHistory.Trade, stop: real, water: real, isProtected: bool, here: S.Here): Option<(real, Reason)> {
    var guard := GuardFor(cfg, t, water, here.sig.row, here.sig.atr);
    if Touches(t.side, here.second, stop) then Some((stop, SL))
    else if isProtected && guard.0.Some? && Touches(t.side, here.second, guard.0.value) then Some((guard.0.value, guard.1))
    else None
  }

  /** What an exit leaves of the balance: nothing is booked on a notional of zero or less. */
  function LeftOver(balance: real, entry: Row, price: real): real
    requires entry.Trade?
  {
    if entry.notional > 0.0
    then balance + Made(entry.side, entry.price, entry.notional, price) - entry.notional * 0.001
    else balance
  }

  /** The rows an exit adds: itself, and a trip of the breaker when the balance is too far below the peak,
      which the balance may just have raised. */
  ghost predicate ExitRows(cfg: Config, s: State, t: State, exit: Row) {
    && t.peak == Max(s.peak, t.balance)
    && (if TooDeep(cfg, t.peak, t.balance) then
          && |t.ledger| == |s.ledger| + 2 && t.ledger[..|s.ledger| + 1] == s.ledger + [exit]
          && t.breakerUntil == exit.bar + cfg.cooldownBars
          && var trip := t.ledger[|s.ledger| + 1];
             && trip.Breaker? && trip.time == exit.time && trip.bar == exit.bar && trip.balance == t.balance
             && t.peak * (1.0 - trip.drawdown) == t.balance
        else t.ledger == s.ledger + [exit] && t.breakerUntil == s.breakerUntil)
  }

  ghost predicate Leaves(cfg: Config, s: State, t: State, entry: Row, raw: real, reason: Reason, here: S.Here)
    requires entry.Trade?
  {
    var price := Left(entry.side, raw, cfg.slippage);
    && t.position.None? && t.balance == LeftOver(s.balance, entry, price)
    && ExitRows(cfg, s, t, EnhancedReplay.Trade(here.second.time, S.Exit, price, reason, entry.notional, t.balance, entry.side,
                                                here.bar, here.pos, 0.0))
    && t.exitSide == Some(entry.side) && t.exitBar == here.bar && t.exitReason == reason
    && t.zeroSide == s.zeroSide && t.zeroBar == s.zeroBar && t.tradesInBar == s.tradesInBar && t.locks == s.locks
  }

  ghost predicate Stays(s: State, t: State, seen: Observation) {
    t.position.Some? && t.held == s.held + [seen] && t == s.(position := t.position, held := t.held)
  }

  lemma TighterIsBetter(side: Side, a: real, b: real)
    ensures Better(side, a, b) == Tighter(side, a, b)
  {}

  lemma GuardIsLevel(cfg: Config, here: S.Here, p: Position)
    ensures ProtectedLevel(cfg, here, p) == GuardFor(cfg, TradeOf(p), p.water, here.sig.row, here.sig.atr)
  {
    hide ProfitAtr, Ahead, Better, Tighter;
    ProfitIsAhead(TradeOf(p), p.water, here.sig.atr, 3.0);
    ProfitIsAhead(TradeOf(p), p.water, here.sig.atr, 2.0);
    forall a, b ensures Better(p.side, a, b) == Tighter(p.side, a, b) {
      TighterIsBetter(p.side, a, b);
    }
  }

  lemma TriggerIsOutcome(cfg: Config, here: S.Here, p: Position)
    ensures ExitTrigger(cfg, here, p) == Outcome(cfg, TradeOf(p), p.stop, p.water, p.isProtected, here)
  {
    hide ProtectedLevel, GuardFor;
    GuardIsLevel(cfg, here, p);
  }

  lemma CloseLeaves(cfg: Config, s: State, here: S.Here, p: Position, entry: Row, raw: real, reason: Reason)
    requires FromEntry(cfg, p, entry)
    ensures var closed := CloseAt(cfg, s, p, raw, reason, here.second.time, here.bar, here.pos)
        .(exitSide := Some(p.side), exitBar := here.bar, exitReason := reason);
      Leaves(cfg, s, Settle(cfg, closed, here.second.time, here.bar), entry, raw, reason, here)
  {
    hide PnlOf, Made, ExitPrice, Left, Trips, TooDeep, Drawdown;
    SlippedPrices(p.side, raw, cfg.slippage);
    MadeIsPnl(p.side, p.entryPrice, p.notional, Left(p.side, raw, cfg.slippage));
    var closed := CloseAt(cfg, s, p, raw, reason, here.second.time, here.bar, here.pos)
      .(exitSide := Some(p.side), exitBar := here.bar, exitReason := reason);
    var peak := Max(s.peak, closed.balance);
    TripIsTooDeep(cfg, peak, closed.balance);
    if TooDeep(cfg, peak, closed.balance) {
      TripNeedsLimit(cfg, peak, closed.balance);
    }
  }

  lemma EntryCarries(cfg: Config, p: Position, stop: real, entry: Row)
    requires FromEntry(cfg, p, entry)
    ensures FromEntry(cfg, p.(stop := stop), entry)
  {}

  lemma HoldDecides(cfg: Config, s: State, here: S.Here, p: Position, entry: Row)
    requires s.position == Some(p) && FromEntry(cfg, p, entry)
    ensures var t, outcome := HoldStep(cfg, s, here, p),
        Outcome(cfg, TradeOf(p), PreCheck(cfg, here, p).stop, p.water, p.isProtected, here);
      if outcome.Some? then Leaves(cfg, s, t, entry, outcome.value.0, outcome.value.1, here)
      else Stays(s, t, SeenAt(cfg, here))
  {
    hide PreCheck, PostCheck, ExitTrigger, CloseAt, Settle, FromEntry, Leaves, Outcome, SeenAt;
    var p1 := PreCheck(cfg, here, p);
    PreCheckEvaluates(cfg, here, p);
    EntryCarries(cfg, p, p1.stop, entry);
    TriggerIsOutcome(cfg, here, p1);
    var trigger := ExitTrigger(cfg, here, p1);
    if trigger.Some? {
      CloseLeaves(cfg, s, here, p1, entry, trigger.value.0, trigger.value.1);
    }
  }

  /** In every minute of a run that finds a position open: its stop stands at the best of the ATR stop of
      its entry and all candidates up to the evaluation that opens the minute, its water mark at the
      extreme since the entry, and the minute does to it exactly what stop and guard say. It survives if
      and only if neither takes it out; if one does, the books are those of that exit. */
  lemma ExitsExactly(cfg: Config, feed: Feed, i: nat, pos: nat, initial: real) returns (stop: real, water: real)
    requires IsStep(feed, Step(i, pos)) && StateAt(cfg, feed, i, pos, initial).position.Some?
    ensures var s, t, here := StateAt(cfg, feed, i, pos, initial), StateAt(cfg, feed, i, pos + 1, initial),
        HereOf(feed, Step(i, pos));
      s.ledger != [] && FromEntry(cfg, s.position.value, s.ledger[|s.ledger| - 1]) &&
      var entry, trade := s.ledger[|s.ledger| - 1], TradeOf(s.position.value);
      var isProtected := entry.reason == PTReentry || ArmedBy(cfg, trade, s.held);
      var outcome := Outcome(cfg, trade, stop, water, isProtected, here);
      && HasSeen(cfg, feed, entry, s.held, StepsUpTo(feed, i, pos))
      && IsWater(trade, s.held, |s.held|, water)
      && IsBest(trade, RuleOf(cfg), s.held + [SeenAt(cfg, here)], 2 * |s.held| + 1, stop)
      && (if outcome.Some? then Leaves(cfg, s, t, entry, outcome.value.0, outcome.value.1, here)
          else Stays(s, t, SeenAt(cfg, here)))
  {
    hide RunMinutes, RunBars, StartBar, IsBest, IsWater, HasSeen, S.StartOf, S.EndOf, StepsUpTo, ArmedBy, WaterAfter, HereAt,
         RuleOf, SeenAt, Evaluated, PreCheck, HoldStep, Leaves, Stays, Outcome;
    StopsInside(cfg, feed, i, pos, initial);
    var s, here := StateAt(cfg, feed, i, pos, initial), HereOf(feed, Step(i, pos));
    var p := s.position.value;
    var entry := s.ledger[|s.ledger| - 1];
    stop, water := PreCheck(cfg, here, p).stop, p.water;
    PreCheckEvaluates(cfg, here, p);
    FoldIsWater(TradeOf(p), s.held, |s.held|);
    FirstEvaluation(TradeOf(p), RuleOf(cfg), s.held, SeenAt(cfg, here), p.stop);
    NextState(cfg, feed, i, pos, initial);
    StepHolds(cfg, feed, Step(i, pos), s);
    HoldDecides(cfg, s, here, p, entry);
  }

  lemma StepHolds(cfg: Config, feed: Feed, step: Step, s: State)
    requires IsStep(feed, step) && s.position.Some?
    ensures StepOf(cfg, feed, step, s) == HoldStep(cfg, s, HereOf(feed, step), s.position.value)
  {
    hide HoldStep, FlatStep, HereAt, S.StartOf, S.EndOf, Paused;
  }

  lemma NextState(cfg: Config, feed: Feed, i: nat, pos: nat, initial: real)
    requires IsStep(feed, Step(i, pos))
    ensures StateAt(cfg, feed, i, pos + 1, initial) == StepOf(cfg, feed, Step(i, pos), StateAt(cfg, feed, i, pos, initial))
  {
    hide StepMinute, S.StartOf, S.EndOf, RunBars, StartBar;
  }

  // ----- without a position -----

  /** The breaker's cooldown covers the bar. */
  predicate Resting(cfg: Config, s: State, bar: int) { cfg.maxDrawdown.Some? && s.breakerUntil > bar }

  function SideAt(sig: Signal): Option<Side> {
    if Allows(sig, Long) then Some(Long) else if Allows(sig, Short) then Some(Short) else None
  }

  /** A second reaches the level two bars back, which stands out beyond the last one. */
  predicate BreaksOut(side: Side, here: S.Here) {
    match side
    case Long => Under(here.sig.row.prevHigh1, here.sig.row.prevHigh2) && Attains(Long, here.second, here.sig.row.prevHigh2.value)
    case Short => Under(here.sig.row.prevLow2, here.sig.row.prevLow1) && Attains(Short, here.second, here.sig.row.prevLow2.value)
  }

  /** The price at which a minute fills, if it does: on a pullback to the re-entry price, on two closes
      beyond it, or when it attains it. */
  function FillsAt(cfg: Config, here: S.Here, side: Side, price: real): Option<real> {
    if cfg.pullback then if Touches(side, here.second, price) then Some(price) else None
    else if cfg.confirm then
      match here.prevClose
      case None => None
      case Some(before) =>
        if match side case Long => before > price && here.second.close > price
                      case Short => before < price && here.second.close < price
        then Some(here.second.close) else None
    else if Attains(side, here.second, price) then Some(price) else None
  }

  predicate IsOpen(windowSide: Option<Side>, windowBar: int, side: Side, bar: int) {
    windowSide == Some(side) && bar <= windowBar + 1
  }

  /** The share of the first order after a breakout is the first one; another order goes by its place in
      the bar, and the last share stays. */
  function ShareOf(schedule: seq<real>, afterExit: bool, n: nat): real {
    if schedule == [] then 0.0
    else schedule[if !afterExit then 0 else if n < |schedule| then n else |schedule| - 1]
  }

  function Taken(cfg: Config, balance: real, afterExit: bool, n: nat): real { balance * ShareOf(cfg.schedule, afterExit, n) }

  function Distance(cfg: Config, side: Side, atr: real): real {
    match side case Long => cfg.longReentryAtr * atr case Short => cfg.shortReentryAtr * atr
  }

  ghost predicate Enters(cfg: Config, s: State, here: S.Here, side: Side, raw: real, reason: Reason, afterExit: bool, t: State) {
    var price, notional := Entered(side, raw, cfg.slippage), Taken(cfg, s.balance, afterExit, s.tradesInBar);
    && t.balance == s.balance - notional * 0.001
    && t.ledger == s.ledger + [EnhancedReplay.Trade(here.second.time, match side case Long => S.Buy case Short => S.Sell, price, reason,
                                                    notional, t.balance, side, here.bar, here.pos, here.sig.atr)]
    && t.tradesInBar == s.tradesInBar + 1 && t.held == []
    && t.position.Some? && FromEntry(cfg, t.position.value, t.ledger[|s.ledger|])
    && t.position.value.stop == t.position.value.initialStop && t.position.value.water == price
    && t.position.value.isProtected == (reason == PTReentry)
  }

  ghost predicate NoEntry(s: State, t: State) {
    t.balance == s.balance && t.ledger == s.ledger && t.tradesInBar == s.tradesInBar && t.position.None? && t.held == s.held
  }

  /** All that a minute without a position does. A cooldown or a regime that allows no side leaves
      everything as it is. Otherwise a breakout in a bar without trades opens or renews the window of the
      side, and an open window whose price fills is closed and entered, unless the bar has had its
      trades. */
  ghost predicate Decides(cfg: Config, s: State, here: S.Here, t: State) {
    if Resting(cfg, s, here.bar) || SideAt(here.sig).None? then t == s
    else
      var side := SideAt(here.sig).value;
      var breaks := s.tradesInBar == 0 && BreaksOut(side, here);
      var afterExit := IsOpen(s.exitSide, s.exitBar, side, here.bar);
      var afterLock := breaks || IsOpen(s.zeroSide, s.zeroBar, side, here.bar);
      var price := BackIn(side, here.sig.row, Distance(cfg, side, here.sig.atr));
      var fill := if price.Some? then FillsAt(cfg, here, side, price.value) else None;
      var fills := (afterExit || afterLock) && fill.Some?;
      var reason := if !afterExit then ZeroInitialReentry else if s.exitReason == SL then SLReentry else PTReentry;
      && t.locks == s.locks + (if breaks then [Lock(side, here.bar, here.pos)] else [])
      && t.zeroBar == (if breaks then here.bar else s.zeroBar)
      && t.zeroSide == (if fills && afterLock then None else if breaks then Some(side) else s.zeroSide)
      && t.exitSide == (if fills && afterExit then None else s.exitSide)
      && t.exitBar == s.exitBar && t.exitReason == s.exitReason && t.peak == s.peak && t.breakerUntil == s.breakerUntil
      && (if fills && s.tradesInBar < cfg.maxTradesPerBar then Enters(cfg, s, here, side, fill.value, reason, afterExit, t)
          else NoEntry(s, t))
  }

  lemma FillIsPrice(cfg: Config, here: S.Here, side: Side, price: real)
    ensures FillPrice(cfg, here, side, Some(price)) == FillsAt(cfg, here, side, price)
  {}

  lemma BrokeIsBreaksOut(here: S.Here, side: Side)
    ensures Broke(here, side) <==> BreaksOut(side, here)
  {}

  lemma ShareIsOrder(cfg: Config, balance: real, afterExit: bool, n: nat)
    ensures OrderNotional(cfg, balance, afterExit, n) == Taken(cfg, balance, afterExit, n)
  {}

  lemma OpenEnters(cfg: Config, s: State, here: S.Here, side: Side, raw: real, reason: Reason, afterExit: bool)
    requires s.position.None?
    ensures Enters(cfg, s, here, side, raw, reason, afterExit, OpenPosition(cfg, s, here, side, raw, reason, afterExit))
  {
    hide EntryPrice, Entered, OrderNotional, Taken;
    SlippedPrices(side, raw, cfg.slippage);
    ShareIsOrder(cfg, s.balance, afterExit, s.tradesInBar);
  }

  lemma EntersAnyway(cfg: Config, s: State, s1: State, here: S.Here, side: Side, raw: real, reason: Reason, afterExit: bool,
                     t: State, u: State)
    requires Enters(cfg, s1, here, side, raw, reason, afterExit, t) && u == t.(exitSide := u.exitSide, zeroSide := u.zeroSide)
    requires s1 == s.(zeroSide := s1.zeroSide, zeroBar := s1.zeroBar, locks := s1.locks)
    ensures Enters(cfg, s, here, side, raw, reason, afterExit, u)
  {
    hide Entered, Taken, FromEntry;
  }

  lemma DistanceIs(cfg: Config, side: Side, atr: real)
    ensures (if side == Long then cfg.longReentryAtr else cfg.shortReentryAtr) * atr == Distance(cfg, side, atr)
  {}

  lemma OpenKeepsWindows(cfg: Config, s: State, here: S.Here, side: Side, raw: real, reason: Reason, afterExit: bool)
    ensures var t := OpenPosition(cfg, s, here, side, raw, reason, afterExit);
      t == s.(balance := t.balance, position := t.position, ledger := t.ledger, tradesInBar := t.tradesInBar, held := t.held)
  {
    hide OrderNotional, EntryPrice, AtrStop;
  }

  lemma FlatDecides(cfg: Config, s: State, here: S.Here, side: Side)
    requires s.position.None? && !Resting(cfg, s, here.bar) && SideAt(here.sig) == Some(side)
    ensures Decides(cfg, s, here, FlatStep(cfg, s, here, side))
  {
    hide OpenPosition, FillPrice, ReentryPrice, BackIn, FillsAt, Enters, Distance, Broke, BreaksOut, Resting, SideAt;
    var s1, t := TryLock(s, here, side), FlatStep(cfg, s, here, side);
    var reentryAtr := if side == Long then cfg.longReentryAtr else cfg.shortReentryAtr;
    var price := ReentryPrice(here.sig, side, reentryAtr);
    BrokeIsBreaksOut(here, side);
    DistanceIs(cfg, side, here.sig.atr);
    BackInIsPrice(here.sig, side, reentryAtr, Distance(cfg, side, here.sig.atr));
    var afterExit := WindowOpen(s1.exitSide, s1.exitBar, side, here.bar);
    NoFillWithoutPrice(cfg, here, side, price);
    if price.Some? {
      FillIsPrice(cfg, here, side, price.value);
      assert price == Some(price.value);
    }
    var fill := FillPrice(cfg, here, side, price);
    if fill.Some? {
      var reason := if !afterExit then ZeroInitialReentry else if s1.exitReason == SL then SLReentry else PTReentry;
      var entered := OpenPosition(cfg, s1, here, side, fill.value, reason, afterExit);
      OpenEnters(cfg, s1, here, side, fill.value, reason, afterExit);
      OpenKeepsWindows(cfg, s1, here, side, fill.value, reason, afterExit);
      if t == entered.(exitSide := t.exitSide, zeroSide := t.zeroSide) {
        EntersAnyway(cfg, s, s1, here, side, fill.value, reason, afterExit, entered, t);
      }
    }
  }

  lemma NoFillWithoutPrice(cfg: Config, here: S.Here, side: Side, price: Option<real>)
    ensures price.None? ==> FillPrice(cfg, here, side, price).None?
  {}

  /** In every minute of a run that finds no position open: which breakout it records, whether it opens a
      position and what that leaves. */
  lemma OpensExactly(cfg: Config, feed: Feed, i: nat, pos: nat, initial: real)
    requires IsStep(feed, Step(i, pos)) && StateAt(cfg, feed, i, pos, initial).position.None?
    ensures Decides(cfg, StateAt(cfg, feed, i, pos, initial), HereOf(feed, Step(i, pos)), StateAt(cfg, feed, i, pos + 1, initial))
  {
    hide StateAt, S.StartOf, S.EndOf, FlatStep, Decides, Allows, RegimeReady;
    NextState(cfg, feed, i, pos, initial);
    var s, here := StateAt(cfg, feed, i, pos, initial), HereOf(feed, Step(i, pos));
    AllowsIsReady(here.sig, Long);
    AllowsIsReady(here.sig, Short);
    if !Paused(cfg, s, i) && RegimeReady(here.sig, Long) {
      FlatDecides(cfg, s, here, Long);
    } else if !Paused(cfg, s, i) && RegimeReady(here.sig, Short) {
      FlatDecides(cfg, s, here, Short);
    } else {
      NothingDecided(cfg, s, here);
    }
  }

  lemma NothingDecided(cfg: Config, s: State, here: S.Here)
    requires Resting(cfg, s, here.bar) || SideAt(here.sig).None?
    ensures Decides(cfg, s, here, s)
  {
    hide Resting, SideAt;
  }

  // ----- the frame -----

  /** A minute shows itself, the close before it within the bar, and the closed signal. */
  lemma ShowsExactly(feed: Feed, step: Step)
    requires IsStep(feed, step)
    ensures var here, row := HereOf(feed, step), feed.signal[step.bar];
      && here.bar == step.bar && here.pos == step.second && here.second == feed.seconds[step.second]
      && here.prevClose == (if step.second == S.StartOf(feed, step.bar) then None else Some(feed.seconds[step.second - 1].close))
      && here.sig == Signal(row, row.atr.value, row.ma5, row.close)
  {
    hide S.StartOf, S.EndOf;
  }

  /** A run begins flat, with its peak at the initial balance. */
  lemma RunBegins(cfg: Config, feed: Feed, initial: real)
    ensures var s := RunBars(cfg, feed, 0, initial);
      && s.balance == s.peak == initial && s.position.None? && s.ledger == [] && s.locks == []
      && s.exitSide.None? && s.zeroSide.None? && s.breakerUntil < 0
  {}

  /** A new bar counts its trades afresh, forgets windows more than a bar old, and keeps everything else. */
  lemma BarBegins(cfg: Config, feed: Feed, i: nat, initial: real)
    requires Visited(feed, i)
    ensures var s, t := RunBars(cfg, feed, i, initial), StateAt(cfg, feed, i, S.StartOf(feed, i), initial);
      && t.exitSide == (if i <= s.exitBar + 1 then s.exitSide else None)
      && t.zeroSide == (if i <= s.zeroBar + 1 then s.zeroSide else None)
      && t.tradesInBar == 0 && t == s.(exitSide := t.exitSide, zeroSide := t.zeroSide, tradesInBar := 0)
  {
    hide RunBars, S.StartOf, S.EndOf;
  }

  /** A bar that is visited is run to its last minute; any other one changes nothing. */
  lemma BarEnds(cfg: Config, feed: Feed, i: nat, initial: real)
    requires i + 1 < |feed.signal|
    ensures RunBars(cfg, feed, i + 1, initial) ==
      if Visited(feed, i) then StateAt(cfg, feed, i, S.EndOf(feed, i), initial) else RunBars(cfg, feed, i, initial)
  {
    hide S.StartOf, S.EndOf, RunMinutes, StartBar;
  }

  /** A replay ends with its last bar; a position still open is left at the last close of the feed, and the
      breaker does not look at that. */
  lemma RunEnds(cfg: Config, feed: Feed, initial: real)
    ensures var s := RunBars(cfg, feed, if |feed.signal| == 0 then 0 else |feed.signal| - 1, initial);
      var t := Replay(cfg, feed, initial);
      if s.position.None? || feed.seconds == [] then t == s
      else
        s.ledger != [] && s.ledger[|s.ledger| - 1].Trade? &&
        var entry, last := s.ledger[|s.ledger| - 1], feed.seconds[|feed.seconds| - 1];
        var price := Left(entry.side, last.close, cfg.slippage);
        && t.position.None? && t.balance == LeftOver(s.balance, entry, price)
        && t.peak == s.peak && t.breakerUntil == s.breakerUntil
        && t.ledger == s.ledger + [EnhancedReplay.Trade(last.time, S.Exit, price, FinalMarkToMarket, entry.notional, t.balance,
                                                        entry.side, |feed.signal|, |feed.seconds|, 0.0)]
  {
    hide RunBars, Initial, PnlOf, Made, ExitPrice, Left;
    var n := if |feed.signal| == 0 then 0 else |feed.signal| - 1;
    var s := RunBars(cfg, feed, n, initial);
    if s.position.Some? && feed.seconds != [] {
      StopsOfBars(cfg, feed, n, initial);
      var p, last := s.position.value, feed.seconds[|feed.seconds| - 1];
      SlippedPrices(p.side, last.close, cfg.slippage);
      MadeIsPnl(p.side, p.entryPrice, p.notional, Left(p.side, last.close, cfg.slippage));
    }
  }

  lemma StopsOfBars(cfg: Config, feed: Feed, n: nat, initial: real)
    requires n == 0 || n < |feed.signal|
    ensures var s := RunBars(cfg, feed, n, initial);
      s.position.Some? ==> s.ledger != [] && FromEntry(cfg, s.position.value, s.ledger[|s.ledger| - 1])
  {
    hide RunKept, RunBars, InClosedForm, HasSeen, StepsBefore;
    StopsKept(cfg, feed, initial);
    KeptBars(cfg, feed, (s, i) => BeforeBar(cfg, feed, s, i), (s, i, pos) => InsideBar(cfg, feed, s, i, pos), initial, n);
  }

  lemma StopsInside(cfg: Config, feed: Feed, i: nat, pos: nat, initial: real)
    requires Visited(feed, i) && S.StartOf(feed, i) <= pos <= S.EndOf(feed, i)
    ensures StopsOk(cfg, feed, StateAt(cfg, feed, i, pos, initial), StepsUpTo(feed, i, pos))
  {
    hide RunKept, StateAt, S.StartOf, S.EndOf, StopsOk, StepsUpTo;
    StopsKept(cfg, feed, initial);
    RunKeeps(cfg, feed, (s, i) => BeforeBar(cfg, feed, s, i), (s, i, pos) => InsideBar(cfg, feed, s, i, pos), initial, i, pos);
  }
}
