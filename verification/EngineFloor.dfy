/** A floor under the balance of a whole replay: each trade that ends at its stop or protected level
    loses at most a fixed share of the balance. */
module EngineFloor {
  import opened EngineLedger
  import opened FloorArithmetic
  import opened Market
  import opened Options
  import opened Reals
  import opened SecondReplay

  // ----- the assumptions -----

  /** The largest share of the balance that one trade can cost. */
  function TradeCost(share: real, ratio: real, cfg: Config): real {
    share * (2.0 * COMMISSION + LossRate(cfg.stopLossAtr, ratio, cfg.slippage))
  }

  /** Order shares lie between zero and `share`, for every shape and any number of trades in the bar. */
  ghost predicate SharesWithin(cfg: Config, share: real) {
    && share >= 0.0
    && (forall k :: 0 <= k < |cfg.schedule| ==> 0.0 <= cfg.schedule[k] <= share)
    && (forall k :: 0 <= k < |cfg.t3Schedule| ==> 0.0 <= cfg.t3Schedule[k] <= share)
    && (forall side, shape, i, pos :: 0.0 <= cfg.sizing(side, shape, i, pos).multiplier <= 1.0)
  }

  ghost predicate FloorConfig(cfg: Config, share: real, ratio: real) {
    && cfg.overrides == NO_OVERRIDES
    && 0.0 <= cfg.slippage <= 1.0 && cfg.stopLossAtr >= 0.0 && ratio >= 0.0
    && SharesWithin(cfg, share)
    && TradeCost(share, ratio, cfg) <= 1.0
  }

  /** Entries are made at positive prices with an ATR of at most `ratio` of the price. */
  ghost predicate CalmEntries(ledger: seq<Row>, ratio: real) {
    forall j :: 0 <= j < |ledger| && ledger[j].kind != Exit ==>
      ledger[j].price > 0.0 && ledger[j].atr <= ratio * ledger[j].price
  }

  // ----- the invariant -----

  /** The multipliers waiting in windows and positions are those of the sizing filter. */
  ghost predicate MultipliersOk(s: State) {
    && 0.0 <= s.exit.multiplier <= 1.0 && 0.0 <= s.zero.multiplier <= 1.0
    && (s.position.Some? ==> 0.0 <= s.position.value.sizeMultiplier <= 1.0)
  }

  /** While a position is open: it was opened on at most `share` of a balance above the floor, its
      stop has not retreated, and the balance has paid one commission since. */
  ghost predicate PositionOk(cfg: Config, s: State, p: Position, floor: real, share: real) {
    var before := s.balance + p.notional * COMMISSION;
    && before >= floor
    && 0.0 <= p.notional <= share * before
    && p.initialStop == AtrStop(p.side, p.entryPrice, p.entryAtr, cfg.stopLossAtr)
    && NoWorse(p.side, p.stop, p.initialStop)
    && |s.ledger| > 0
    && s.ledger[|s.ledger| - 1].kind != Exit
    && s.ledger[|s.ledger| - 1].price == p.entryPrice && s.ledger[|s.ledger| - 1].atr == p.entryAtr
  }

  ghost predicate NoShortNotional(ledger: seq<Row>) {
    forall j :: 0 <= j < |ledger| && ledger[j].kind != Exit ==> ledger[j].notional >= 0.0
  }

  /** The floor after the trades closed so far. */
  function Floor(cfg: Config, initial: real, closed: nat, share: real, ratio: real): real {
    FloorAfter(initial, TradeCost(share, ratio, cfg), closed)
  }

  ghost predicate FloorHolds(cfg: Config, initial: real, share: real, ratio: real, s: State) {
    var floor := Floor(cfg, initial, |s.ledger| / 2, share, ratio);
    && floor >= 0.0
    && (s.position.Some? <==> |s.ledger| % 2 == 1)
    && MultipliersOk(s)
    && NoShortNotional(s.ledger)
    && (if s.position.None? then s.balance >= floor else PositionOk(cfg, s, s.position.value, floor, share))
  }

  ghost predicate FloorOk(cfg: Config, initial: real, share: real, ratio: real, s: State) {
    CalmEntries(s.ledger, ratio) ==> FloorHolds(cfg, initial, share, ratio, s)
  }

  // ----- opening -----

  lemma ShareWithin(cfg: Config, share: real, shape: string, trades: nat)
    requires SharesWithin(cfg, share)
    ensures 0.0 <= OrderShare(cfg, shape, trades) <= share
  {}

  /** An order takes at most `share` of a balance that is not negative. */
  lemma NotionalWithin(cfg: Config, share: real, balance: real, w: Window, trades: nat)
    requires SharesWithin(cfg, share) && 0.0 <= w.multiplier <= 1.0 && balance >= 0.0
    ensures 0.0 <= OrderNotional(cfg, balance, w, trades) <= share * balance
  {
    hide OrderShare, SharesWithin;
    var order := OrderShare(cfg, w.shape, trades);
    ShareWithin(cfg, share, w.shape, trades);
    ProductWithin(order, w.multiplier, share);
    MulMonotone(0.0, order * w.multiplier, balance);
    MulMonotone(order * w.multiplier, share, balance);
    assert OrderNotional(cfg, balance, w, trades) == order * w.multiplier * balance;
  }

  lemma CalmPrefix(ledger: seq<Row>, row: Row, ratio: real)
    requires CalmEntries(ledger + [row], ratio)
    ensures CalmEntries(ledger, ratio)
  {
    forall j | 0 <= j < |ledger| && ledger[j].kind != Exit
      ensures ledger[j].price > 0.0 && ledger[j].atr <= ratio * ledger[j].price
    {
      assert (ledger + [row])[j] == ledger[j];
    }
  }

  lemma OpenKeepsFloor(cfg: Config, s: State, here: Here, side: Side, raw: real, reason: Reason, w: Window,
                       initial: real, share: real, ratio: real)
    requires FloorConfig(cfg, share, ratio) && FloorOk(cfg, initial, share, ratio, s) && s.position.None?
    requires 0.0 <= w.multiplier <= 1.0
    ensures FloorOk(cfg, initial, share, ratio, OpenPosition(cfg, s, here, side, raw, reason, w))
  {
    hide Floor, CalmEntries, OrderNotional, EntryPrice, TradeCost, SharesWithin, AtrStop;
    var s1 := OpenPosition(cfg, s, here, side, raw, reason, w);
    if CalmEntries(s1.ledger, ratio) {
      CalmPrefix(s.ledger, s1.ledger[|s.ledger|], ratio);
      NotionalWithin(cfg, share, s.balance, w, s.tradesInBar);
      var p := s1.position.value;
      assert s1.balance + p.notional * COMMISSION == s.balance;
      assert |s1.ledger| / 2 == |s.ledger| / 2;
      assert PositionOk(cfg, s1, p, Floor(cfg, initial, |s.ledger| / 2, share, ratio), share);
    }
  }

  // ----- closing -----

  /** The balance after closing at or better than the stop. */
  lemma ClosedBalance(cfg: Config, s: State, p: Position, raw: real, floor: real, share: real, ratio: real)
    requires FloorConfig(cfg, share, ratio) && CalmEntries(s.ledger, ratio) && floor >= 0.0
    requires PositionOk(cfg, s, p, floor, share) && NoWorse(p.side, raw, p.stop)
    ensures s.balance + Pnl(p, ExitPrice(p.side, raw, cfg.slippage)) - p.notional * COMMISSION
      >= floor * (1.0 - TradeCost(share, ratio, cfg)) >= 0.0
  {
    hide CalmEntries, LossRate, SharesWithin, PnlOf, ExitPrice, AtrStop;
    var before, rate := s.balance + p.notional * COMMISSION, LossRate(cfg.stopLossAtr, ratio, cfg.slippage);
    LastEntryIsCalm(s.ledger, ratio);
    SharePositive(cfg, share);
    NoWorseTransitive(p.side, raw, p.stop, p.initialStop);
    TradeLoss(p.side, p.entryPrice, p.entryAtr, p.notional, raw, cfg.stopLossAtr, ratio, cfg.slippage);
    LossRateNonNegative(cfg.stopLossAtr, ratio, cfg.slippage);
    CloseAboveFloor(before, floor, p.notional, Pnl(p, ExitPrice(p.side, raw, cfg.slippage)), share, rate);
    NextFloor(floor, TradeCost(share, ratio, cfg));
  }

  /** Closing at or better than the stop keeps the floor, one trade lower. */
  lemma CloseKeepsFloor(cfg: Config, s: State, p: Position, raw: real, reason: Reason, time: int, bar: int, pos: int,
                        initial: real, share: real, ratio: real)
    requires FloorConfig(cfg, share, ratio)
    requires CalmEntries(s.ledger, ratio) ==>
      var floor := Floor(cfg, initial, |s.ledger| / 2, share, ratio);
      floor >= 0.0 && |s.ledger| % 2 == 1 && MultipliersOk(s) && NoShortNotional(s.ledger) && PositionOk(cfg, s, p, floor, share)
    requires NoWorse(p.side, raw, p.stop)
    ensures FloorOk(cfg, initial, share, ratio, CloseAt(cfg, s, p, raw, reason, time, bar, pos))
  {
    hide FloorAfter, CalmEntries, FloorConfig, TradeCost, Pnl, ExitPrice, PositionOk;
    var s1 := CloseAt(cfg, s, p, raw, reason, time, bar, pos);
    if CalmEntries(s1.ledger, ratio) {
      CalmPrefix(s.ledger, s1.ledger[|s.ledger|], ratio);
      ClosedBalance(cfg, s, p, raw, Floor(cfg, initial, |s.ledger| / 2, share, ratio), share, ratio);
      FloorStep(initial, TradeCost(share, ratio, cfg), |s.ledger| / 2);
      assert |s1.ledger| / 2 == |s.ledger| / 2 + 1;
      assert NoShortNotional(s1.ledger);
    }
  }

  lemma SharePositive(cfg: Config, share: real)
    requires SharesWithin(cfg, share)
    ensures share >= 0.0
  {}

  lemma LastEntryIsCalm(ledger: seq<Row>, ratio: real)
    requires CalmEntries(ledger, ratio) && ledger != [] && ledger[|ledger| - 1].kind != Exit
    ensures ledger[|ledger| - 1].price > 0.0 && ledger[|ledger| - 1].atr <= ratio * ledger[|ledger| - 1].price
  {}

  // ----- the steps -----

  /** The floor looks at the books and at the multipliers of the windows. */
  ghost predicate SameForFloor(s: State, t: State) {
    SameBooks(s, t) && (MultipliersOk(s) ==> MultipliersOk(t))
  }

  lemma FloorCarries(cfg: Config, initial: real, share: real, ratio: real, s: State, t: State)
    requires SameForFloor(s, t) && FloorOk(cfg, initial, share, ratio, s)
    ensures FloorOk(cfg, initial, share, ratio, t)
  {
    hide CalmEntries, Floor, MultipliersOk, AtrStop;
  }

  lemma LocksKeepMultipliers(cfg: Config, feed: Feed, s: State, here: Here, side: Side, share: real)
    requires SharesWithin(cfg, share)
    ensures SameForFloor(s, TryExternal(feed, TryLock(cfg, s, here, side), here, side))
  {
    hide BreakoutOf, EventReady, LockAllowed;
  }

  lemma MultipliersOfOpenFloor(cfg: Config, initial: real, share: real, ratio: real, s: State)
    requires FloorOk(cfg, initial, share, ratio, s) && CalmEntries(s.ledger, ratio)
    ensures MultipliersOk(s)
  {
    hide CalmEntries, Floor, MultipliersOk;
  }

  /** Without calm entries there is nothing to show, and opening keeps it that way. */
  lemma FillKeepsFloor(cfg: Config, s: State, here: Here, side: Side, initial: real, share: real, ratio: real)
    requires FloorConfig(cfg, share, ratio) && FloorOk(cfg, initial, share, ratio, s) && s.position.None?
    ensures FloorOk(cfg, initial, share, ratio, TryFill(cfg, s, here, side))
  {
    hide FloorConfig, FloorOk, FillTriggered, CalmEntries, SharesWithin;
    var t := TryFill(cfg, s, here, side);
    if CalmEntries(s.ledger, ratio) {
      MultipliersOfOpenFloor(cfg, initial, share, ratio, s);
      if t.position.Some? {
        var afterExit := WindowOpen(s.exit, side, here.bar);
        var w := if afterExit then s.exit else s.zero;
        FillHasPrice(cfg, here, side, ReentryPrice(here.sig, side, ReentryAtr(cfg, side)), w.second);
        var raw := ReentryPrice(here.sig, side, ReentryAtr(cfg, side)).value;
        var reason := if !afterExit then ZeroInitialReentry else if s.exitReason == SL then SLReentry else PTReentry;
        var entered := OpenPosition(cfg, s, here, side, raw, reason, w);
        OpenKeepsFloor(cfg, s, here, side, raw, reason, w, initial, share, ratio);
        FloorCarries(cfg, initial, share, ratio, entered, t);
      } else {
        FloorCarries(cfg, initial, share, ratio, s, t);
      }
    } else {
      UncalmStays(cfg, s, here, side, ratio);
      UncalmIsFine(cfg, initial, share, ratio, t);
    }
  }

  lemma UncalmStays(cfg: Config, s: State, here: Here, side: Side, ratio: real)
    requires !CalmEntries(s.ledger, ratio)
    ensures !CalmEntries(TryFill(cfg, s, here, side).ledger, ratio)
  {
    hide FillTriggered, CalmEntries, OrderShare, AtrStop;
    var t := TryFill(cfg, s, here, side);
    if t.ledger != s.ledger && CalmEntries(t.ledger, ratio) {
      CalmPrefix(s.ledger, t.ledger[|s.ledger|], ratio);
    }
  }

  lemma UncalmIsFine(cfg: Config, initial: real, share: real, ratio: real, s: State)
    requires !CalmEntries(s.ledger, ratio)
    ensures FloorOk(cfg, initial, share, ratio, s)
  {}

  lemma FlatKeepsFloor(cfg: Config, feed: Feed, s: State, here: Here, side: Side, initial: real, share: real, ratio: real)
    requires FloorConfig(cfg, share, ratio) && FloorOk(cfg, initial, share, ratio, s) && s.position.None?
    ensures FloorOk(cfg, initial, share, ratio, FlatStep(cfg, feed, s, here, side))
  {
    hide TryExternal, TryLock, TryFill, FloorOk, SharesWithin;
    var s1 := TryExternal(feed, TryLock(cfg, s, here, side), here, side);
    LocksKeepBooks(cfg, feed, s, here, side);
    LocksKeepMultipliers(cfg, feed, s, here, side, share);
    FloorCarries(cfg, initial, share, ratio, s, s1);
    FillKeepsFloor(cfg, s1, here, side, initial, share, ratio);
  }

  /** The trailing update never moves a stop back. */
  lemma TrailNeverRetreats(cfg: Config, p: Position, water: real, atr: real, allowed: bool)
    ensures NoWorse(p.side, TrailedAt(cfg, p, water, atr, allowed), p.stop)
  {}

  /** Without overrides every exit a second triggers is at or better than the stop. */
  lemma TriggerAtStopOrBetter(cfg: Config, here: Here, p: Position)
    requires cfg.overrides == NO_OVERRIDES
    ensures var trigger := ExitTrigger(cfg, here, p);
      trigger.Some? ==> trigger.value.1 in {SL, PT} && NoWorse(p.side, trigger.value.0, p.stop)
  {}

  /** Moving the stop forward keeps an open position sound. */
  lemma PositionCarries(cfg: Config, s: State, p: Position, q: Position, floor: real, share: real)
    requires PositionOk(cfg, s, p, floor, share) && NoWorse(p.side, q.stop, p.stop)
    requires p.(stop := 0.0, water := 0.0, isProtected := false) == q.(stop := 0.0, water := 0.0, isProtected := false)
    ensures PositionOk(cfg, s, q, floor, share)
  {
    NoWorseTransitive(p.side, q.stop, p.stop, p.initialStop);
  }

  lemma PreCheckMoves(cfg: Config, here: Here, p: Position)
    ensures var q := PreCheck(cfg, here, p);
      NoWorse(p.side, q.stop, p.stop) && q == p.(stop := q.stop)
  {
    TrailNeverRetreats(cfg, p, p.water, here.sig.atr, TrailAllowed(cfg, here, p));
  }

  lemma PostCheckMoves(cfg: Config, here: Here, p: Position)
    ensures var q := PostCheck(cfg, here, p);
      && NoWorse(p.side, q.stop, p.stop)
      && q == p.(stop := q.stop, water := q.water, isProtected := q.isProtected)
  {
    var water := Better(p.side, p.water, Favourable(p.side, here.second.high, here.second.low));
    TrailNeverRetreats(cfg, p, water, here.sig.atr, TrailAllowed(cfg, here, p));
  }

  lemma HoldKeepsFloor(cfg: Config, s: State, here: Here, p: Position, initial: real, share: real, ratio: real)
    requires FloorConfig(cfg, share, ratio) && FloorOk(cfg, initial, share, ratio, s) && s.position == Some(p)
    ensures FloorOk(cfg, initial, share, ratio, HoldStep(cfg, s, here, p))
  {
    hide CalmEntries, Floor, SharesWithin, TradeCost, AtrStop, ExitTrigger, PreCheck, PostCheck, CloseAt, NoWorse, PositionOk;
    var p1 := PreCheck(cfg, here, p);
    var trigger := ExitTrigger(cfg, here, p1);
    var floor := Floor(cfg, initial, |s.ledger| / 2, share, ratio);
    PreCheckMoves(cfg, here, p);
    if CalmEntries(s.ledger, ratio) {
      PositionCarries(cfg, s, p, p1, floor, share);
    }
    if trigger.Some? {
      TriggerAtStopOrBetter(cfg, here, p1);
      CloseKeepsFloor(cfg, s, p1, trigger.value.0, trigger.value.1, here.second.time, here.bar, here.pos,
                      initial, share, ratio);
      var closed := CloseAt(cfg, s, p1, trigger.value.0, trigger.value.1, here.second.time, here.bar, here.pos);
      CloseAddsOneRow(cfg, s, p1, trigger.value.0, trigger.value.1, here.second.time, here.bar, here.pos);
      ExitWindowCarries(cfg, s, here, p, initial, share, ratio, closed);
    } else {
      var p2 := PostCheck(cfg, here, p1);
      PostCheckMoves(cfg, here, p1);
      if CalmEntries(s.ledger, ratio) {
        PositionCarries(cfg, s, p1, p2, floor, share);
        PositionElsewhere(cfg, s, HoldStep(cfg, s, here, p), p2, floor, share);
      }
    }
  }

  lemma PositionElsewhere(cfg: Config, s: State, t: State, p: Position, floor: real, share: real)
    requires PositionOk(cfg, s, p, floor, share) && s.balance == t.balance && s.ledger == t.ledger
    ensures PositionOk(cfg, t, p, floor, share)
  {
    hide AtrStop;
  }

  lemma CloseAddsOneRow(cfg: Config, s: State, p: Position, raw: real, reason: Reason, time: int, bar: int, pos: int)
    ensures var closed := CloseAt(cfg, s, p, raw, reason, time, bar, pos);
      && closed.position.None? && closed.exit == s.exit && closed.zero == s.zero
      && |closed.ledger| == |s.ledger| + 1 && closed.ledger[..|s.ledger|] == s.ledger
  {
    hide ExitPrice, Pnl;
  }

  /** The window an exit opens carries the position's multiplier. */
  lemma ExitWindowCarries(cfg: Config, s: State, here: Here, p: Position, initial: real, share: real, ratio: real, closed: State)
    requires FloorOk(cfg, initial, share, ratio, s) && s.position == Some(p)
    requires FloorOk(cfg, initial, share, ratio, closed) && closed.exit == s.exit && closed.zero == s.zero
    requires closed.position.None? && |closed.ledger| == |s.ledger| + 1 && closed.ledger[..|s.ledger|] == s.ledger
    ensures forall w: Window, reason: Reason :: w.multiplier == p.sizeMultiplier ==>
      FloorOk(cfg, initial, share, ratio, closed.(exit := w, exitReason := reason))
  {
    hide CalmEntries, Floor, AtrStop;
    if CalmEntries(closed.ledger, ratio) {
      assert closed.ledger == s.ledger + [closed.ledger[|s.ledger|]];
      CalmPrefix(s.ledger, closed.ledger[|s.ledger|], ratio);
    }
  }

  lemma StepKeepsFloor(cfg: Config, feed: Feed, i: nat, start: nat, pos: nat, s: State, initial: real, share: real, ratio: real)
    requires i < |feed.signal| && pos < |feed.seconds| && feed.signal[i].atr.Some?
    requires FloorConfig(cfg, share, ratio) && FloorOk(cfg, initial, share, ratio, s)
    ensures FloorOk(cfg, initial, share, ratio, StepSecond(cfg, feed, i, start, pos, s))
  {
    hide FloorOk, FloorConfig, FlatStep, HoldStep, SideReady, SignalAt, Forced, Higher, Lower;
    var here := HereAt(cfg, feed, i, start, pos, s);
    var s1 := Observe(cfg, feed, s, here);
    FloorCarries(cfg, initial, share, ratio, s, s1);
    if s1.position.Some? {
      HoldKeepsFloor(cfg, s1, here, s1.position.value, initial, share, ratio);
    } else {
      FlatKeepsFloor(cfg, feed, s1, here, Long, initial, share, ratio);
      FlatKeepsFloor(cfg, feed, s1, here, Short, initial, share, ratio);
    }
  }

  lemma FloorKept(cfg: Config, feed: Feed, initial: real, share: real, ratio: real)
    requires FloorConfig(cfg, share, ratio) && initial >= 0.0
    ensures Kept(cfg, feed, (s, i) => FloorOk(cfg, initial, share, ratio, s), initial)
  {
    hide FloorOk, FloorConfig, StepSecond;
    InitialFloor(cfg, initial, share, ratio);
    forall s, i: nat | FloorOk(cfg, initial, share, ratio, s) ensures FloorOk(cfg, initial, share, ratio, StartBar(s, i)) {
      FloorCarries(cfg, initial, share, ratio, s, StartBar(s, i));
    }
    forall s, i: nat, start: nat, pos: nat
      | i < |feed.signal| && start <= pos < |feed.seconds| && feed.signal[i].atr.Some?
        && FloorOk(cfg, initial, share, ratio, s)
      ensures FloorOk(cfg, initial, share, ratio, StepSecond(cfg, feed, i, start, pos, s))
    {
      StepKeepsFloor(cfg, feed, i, start, pos, s, initial, share, ratio);
    }
  }

  lemma InitialFloor(cfg: Config, initial: real, share: real, ratio: real)
    requires initial >= 0.0
    ensures FloorOk(cfg, initial, share, ratio, Initial(initial))
  {
    hide TradeCost;
    FloorStep(initial, TradeCost(share, ratio, cfg), 0);
  }

  /** For every feed and every number of bars: with ATR stops and no exit overrides, order shares of
      at most `share`, and entries whose ATR is at most `ratio` of their price, the balance after `n`
      closed trades is at least the initial balance times the n-th power of one minus the cost of a
      trade; while a position is open, its paid commission is all that may be missing. */
  lemma GeometricFloor(cfg: Config, feed: Feed, bars: nat, initial: real, share: real, ratio: real)
    requires FloorConfig(cfg, share, ratio) && initial >= 0.0
    requires bars == 0 || bars < |feed.signal|
    requires CalmEntries(RunBars(cfg, feed, bars, initial).ledger, ratio)
    ensures var s := RunBars(cfg, feed, bars, initial);
      var floor := initial * Power(1.0 - TradeCost(share, ratio, cfg), |s.ledger| / 2);
      && floor >= 0.0
      && (s.position.None? ==> s.balance >= floor)
      && (s.position.Some? ==> s.balance + s.position.value.notional * COMMISSION >= floor)
  {
    hide RunBars, Kept, FloorConfig, CalmEntries, TradeCost;
    FloorKept(cfg, feed, initial, share, ratio);
    BarsKeep(cfg, feed, (s, i) => FloorOk(cfg, initial, share, ratio, s), initial, bars);
  }

  /** The baseline parameters meet the assumptions for shares up to a fifth of the balance and any
      ATR up to the entry price; a trade then costs at most 1.0505 percent of the balance. */
  lemma BaselineFloor()
    ensures FloorConfig(BASELINE, 0.2, 1.0)
    ensures TradeCost(0.2, 1.0, BASELINE) == 0.010505
  {}
}
