/** The floor under the balance of the one-minute engine: every exit but a final mark is at or better than
    the ATR stop of its entry, tiers and breaker included. */
module EnhancedFloor {
  import opened EnhancedBooks
  import opened EnhancedReplay
  import opened EnhancedStops
  import opened FloorArithmetic
  import opened Market
  import opened Options
  import opened Reals
  import S = SecondReplay
  import opened Steps

  // ----- the assumptions -----

  /** The largest share of the balance that one trade can cost. */
  function TradeCost(cfg: Config, share: real, ratio: real): real {
    share * (2.0 * COMMISSION + LossRate(cfg.stopLossAtr, ratio, cfg.slippage))
  }

  /** The order shares of the schedule lie between zero and `share`. */
  ghost predicate SharesWithin(cfg: Config, share: real) {
    share >= 0.0 && forall k :: 0 <= k < |cfg.schedule| ==> 0.0 <= cfg.schedule[k] <= share
  }

  ghost predicate FloorConfig(cfg: Config, share: real, ratio: real) {
    && 0.0 <= cfg.slippage <= 1.0 && cfg.stopLossAtr >= 0.0 && ratio >= 0.0
    && SharesWithin(cfg, share)
    && TradeCost(cfg, share, ratio) <= 1.0
  }

  /** The raw price of a fill at a step, if there is one. */
  function FillAt(cfg: Config, feed: Feed, step: Step, side: Side): Option<real>
    requires IsStep(feed, step)
  {
    var here := HereOf(feed, step);
    FillPrice(cfg, here, side, ReentryPrice(here.sig, side, if side == Long then cfg.longReentryAtr else cfg.shortReentryAtr))
  }

  /** Wherever a fill is possible, its price is positive and the ATR at most `ratio` of it. */
  ghost predicate CalmFeed(cfg: Config, feed: Feed, ratio: real) {
    forall step, side :: IsStep(feed, step) && FillAt(cfg, feed, step, side).Some? ==> CalmAt(cfg, feed, step, side, ratio)
  }

  ghost predicate CalmAt(cfg: Config, feed: Feed, step: Step, side: Side, ratio: real)
    requires IsStep(feed, step) && FillAt(cfg, feed, step, side).Some?
  {
    var price := EntryPrice(side, FillAt(cfg, feed, step, side).value, cfg.slippage);
    price > 0.0 && HereOf(feed, step).sig.atr <= ratio * price
  }

  // ----- what rows are priced at -----

  /** An entry is at the fill of its step, with that step's ATR. */
  ghost predicate Priced(cfg: Config, feed: Feed, row: Row) {
    row.Trade? && 0 <= row.bar && 0 <= row.minute &&
    var step := Step(row.bar, row.minute);
    IsStep(feed, step) && FillAt(cfg, feed, step, row.side).Some? &&
    row.price == EntryPrice(row.side, FillAt(cfg, feed, step, row.side).value, cfg.slippage) &&
    row.atr == HereOf(feed, step).sig.atr
  }

  /** What the ATR stop of an entry is left at. */
  function StopPrice(cfg: Config, entry: Row): real
    requires entry.Trade?
  {
    ExitPrice(entry.side, AtrStop(entry.side, entry.price, entry.atr, cfg.stopLossAtr), cfg.slippage)
  }

  /** An exit at or better than the stop of the entry before it. */
  ghost predicate AtStop(cfg: Config, entry: Row, close: Row) {
    entry.Trade? && close.Trade? && close.reason != FinalMarkToMarket &&
    NoWorse(entry.side, close.price, StopPrice(cfg, entry))
  }

  ghost predicate RowOk(cfg: Config, feed: Feed, trades: seq<Row>, j: nat)
    requires j < |trades|
  {
    if IsEntry(trades[j]) then Priced(cfg, feed, trades[j]) else j > 0 && AtStop(cfg, trades[j - 1], trades[j])
  }

  ghost predicate RowsOk(cfg: Config, feed: Feed, trades: seq<Row>) {
    forall j :: 0 <= j < |trades| ==> RowOk(cfg, feed, trades, j)
  }

  /** The stop of a position has not retreated from that of its entry, the last trade. */
  ghost predicate StopHeld(cfg: Config, p: Position, trades: seq<Row>) {
    && trades != [] && IsEntry(trades[|trades| - 1])
    && FromEntry(cfg, p, trades[|trades| - 1])
    && NoWorse(p.side, p.stop, p.initialStop)
  }

  ghost predicate PricesOk(cfg: Config, feed: Feed, s: State) {
    var trades := Trades(s.ledger);
    RowsOk(cfg, feed, trades) && (s.position.Some? ==> StopHeld(cfg, s.position.value, trades))
  }

  // ----- the steps -----

  lemma RowsSnoc(cfg: Config, feed: Feed, trades: seq<Row>, row: Row)
    requires RowsOk(cfg, feed, trades) && RowOk(cfg, feed, trades + [row], |trades|)
    ensures RowsOk(cfg, feed, trades + [row])
  {
    hide Priced, StopPrice;
    forall j | 0 <= j < |trades| + 1 ensures RowOk(cfg, feed, trades + [row], j) {
      if j < |trades| {
        assert RowOk(cfg, feed, trades, j);
      }
    }
  }

  lemma OpenIsPriced(cfg: Config, feed: Feed, s: State, step: Step, side: Side, reason: Reason, afterExit: bool)
    requires IsStep(feed, step) && FillAt(cfg, feed, step, side).Some? && RowsOk(cfg, feed, Trades(s.ledger))
    ensures PricesOk(cfg, feed,
      OpenPosition(cfg, s, HereOf(feed, step), side, FillAt(cfg, feed, step, side).value, reason, afterExit))
  {
    hide EntryPrice, OrderNotional, FillAt, Trades, IsStep, RowsOk, StopPrice;
    var t := OpenPosition(cfg, s, HereOf(feed, step), side, FillAt(cfg, feed, step, side).value, reason, afterExit);
    var row := t.ledger[|s.ledger|];
    TradesSnoc(s.ledger, row);
    RowsSnoc(cfg, feed, Trades(s.ledger), row);
  }

  lemma FlatIsPriced(cfg: Config, feed: Feed, s: State, step: Step, side: Side)
    requires IsStep(feed, step) && PricesOk(cfg, feed, s) && s.position.None?
    ensures PricesOk(cfg, feed, FlatStep(cfg, s, HereOf(feed, step), side))
  {
    hide OpenPosition, FillPrice, ReentryPrice, HereOf, RowsOk, StopHeld, Trades, IsStep, Broke;
    var here := HereOf(feed, step);
    var s1 := TryLock(s, here, side);
    var fill := FillAt(cfg, feed, step, side);
    if fill.Some? {
      forall reason, afterExit ensures PricesOk(cfg, feed, OpenPosition(cfg, s1, here, side, fill.value, reason, afterExit)) {
        OpenIsPriced(cfg, feed, s1, step, side, reason, afterExit);
      }
    }
  }

  /** Tiers only tighten the protected level, and the stop is looked at first. */
  lemma TriggerAtStopOrBetter(cfg: Config, here: S.Here, p: Position)
    ensures var trigger := ExitTrigger(cfg, here, p); trigger.Some? ==> NoWorse(p.side, trigger.value.0, p.stop)
  {
    hide ProtectedLevel;
  }

  lemma TrailNeverRetreats(cfg: Config, p: Position, water: real, atr: real)
    ensures NoWorse(p.side, TrailedAt(cfg, p, water, atr), p.stop)
  {
    hide ProfitAtr, TrailStop;
  }

  lemma StopCarries(cfg: Config, p: Position, q: Position, trades: seq<Row>)
    requires StopHeld(cfg, p, trades) && NoWorse(p.side, q.stop, p.stop)
    requires p.(stop := 0.0, water := 0.0, isProtected := false) == q.(stop := 0.0, water := 0.0, isProtected := false)
    ensures StopHeld(cfg, q, trades)
  {
    NoWorseTransitive(p.side, q.stop, p.stop, p.initialStop);
  }

  lemma StopOfEntry(cfg: Config, p: Position, entry: Row)
    requires FromEntry(cfg, p, entry)
    ensures entry.Trade? && p.side == entry.side && StopPrice(cfg, entry) == ExitPrice(p.side, p.initialStop, cfg.slippage)
  {}

  lemma CloseIsPriced(cfg: Config, feed: Feed, s: State, p: Position, raw: real, reason: Reason, time: int, bar: int, pos: int)
    requires 0.0 <= cfg.slippage <= 1.0 && RowsOk(cfg, feed, Trades(s.ledger))
    requires reason != FinalMarkToMarket && StopHeld(cfg, p, Trades(s.ledger)) && NoWorse(p.side, raw, p.stop)
    ensures RowsOk(cfg, feed, Trades(CloseAt(cfg, s, p, raw, reason, time, bar, pos).ledger))
  {
    hide ExitPrice, BalanceAfter, Trades, RowsOk, Priced, StopPrice, FromEntry;
    StopOfEntry(cfg, p, Trades(s.ledger)[|Trades(s.ledger)| - 1]);
    var row := CloseAt(cfg, s, p, raw, reason, time, bar, pos).ledger[|s.ledger|];
    TradesSnoc(s.ledger, row);
    NoWorseTransitive(p.side, raw, p.stop, p.initialStop);
    ExitMonotone(p.side, raw, p.initialStop, cfg.slippage);
    RowsSnoc(cfg, feed, Trades(s.ledger), row);
  }

  lemma HoldIsPriced(cfg: Config, feed: Feed, s: State, here: S.Here, p: Position)
    requires 0.0 <= cfg.slippage <= 1.0 && PricesOk(cfg, feed, s) && s.position == Some(p)
    ensures PricesOk(cfg, feed, HoldStep(cfg, s, here, p))
  {
    hide RowsOk, StopHeld, Trades, ExitTrigger, PreCheck, PostCheck, CloseAt, Settle, SeenAt;
    var p1, trades := PreCheck(cfg, here, p), Trades(s.ledger);
    var trigger := ExitTrigger(cfg, here, p1);
    ChecksMove(cfg, here, p);
    StopCarries(cfg, p, p1, trades);
    if trigger.Some? {
      TriggerAtStopOrBetter(cfg, here, p1);
      TriggerReason(cfg, here, p1);
      CloseIsPriced(cfg, feed, s, p1, trigger.value.0, trigger.value.1, here.second.time, here.bar, here.pos);
      var closed := CloseAt(cfg, s, p1, trigger.value.0, trigger.value.1, here.second.time, here.bar, here.pos)
        .(exitSide := Some(p.side), exitBar := here.bar, exitReason := trigger.value.1);
      SettleShape(cfg, closed, here.second.time, here.bar);
      ClosedIsFlat(cfg, s, p1, trigger.value.0, trigger.value.1, here.second.time, here.bar, here.pos);
    } else {
      ChecksMove(cfg, here, p1);
      StopCarries(cfg, p1, PostCheck(cfg, here, p1), trades);
    }
  }

  lemma ClosedIsFlat(cfg: Config, s: State, p: Position, raw: real, reason: Reason, time: int, bar: int, pos: int)
    ensures CloseAt(cfg, s, p, raw, reason, time, bar, pos).position.None?
  {}

  /** Neither check of a minute moves the stop back. */
  lemma ChecksMove(cfg: Config, here: S.Here, p: Position)
    ensures var q := PreCheck(cfg, here, p); q == p.(stop := q.stop) && NoWorse(p.side, q.stop, p.stop)
    ensures var q := PostCheck(cfg, here, p);
      q == p.(stop := q.stop, water := q.water, isProtected := q.isProtected) && NoWorse(p.side, q.stop, p.stop)
  {
    hide TrailedAt, Arms, NoWorse;
    TrailNeverRetreats(cfg, p, p.water, here.sig.atr);
    TrailNeverRetreats(cfg, p, Better(p.side, p.water, Favourable(p.side, here.second.high, here.second.low)), here.sig.atr);
  }

  lemma StepIsPriced(cfg: Config, feed: Feed, s: State, step: Step)
    requires 0.0 <= cfg.slippage <= 1.0 && IsStep(feed, step) && PricesOk(cfg, feed, s)
    ensures PricesOk(cfg, feed, StepOf(cfg, feed, step, s))
  {
    hide PricesOk, FlatStep, HoldStep, RegimeReady, HereAt, IsStep, Paused;
    if s.position.Some? {
      HoldIsPriced(cfg, feed, s, HereOf(feed, step), s.position.value);
    } else {
      FlatIsPriced(cfg, feed, s, step, Long);
      FlatIsPriced(cfg, feed, s, step, Short);
    }
  }

  lemma PricesKept(cfg: Config, feed: Feed, initial: real)
    requires 0.0 <= cfg.slippage <= 1.0
    ensures RunKept(cfg, feed, (s, i) => PricesOk(cfg, feed, s), (s, i, pos) => PricesOk(cfg, feed, s), initial)
  {
    hide RowsOk, StopHeld, StepOf, S.StartOf, S.EndOf, Trades;
    NothingPriced(cfg, feed, initial);
    forall s, i: nat, pos: nat | IsStep(feed, Step(i, pos)) && PricesOk(cfg, feed, s)
      ensures PricesOk(cfg, feed, StepOf(cfg, feed, Step(i, pos), s))
    {
      StepIsPriced(cfg, feed, s, Step(i, pos));
    }
  }

  lemma NothingPriced(cfg: Config, feed: Feed, initial: real)
    ensures PricesOk(cfg, feed, Initial(initial))
  {}

  /** After every number of bars, every entry is at a fill that the feed allows, and every exit at or
      better than the stop of its entry. */
  lemma PricesOfBars(cfg: Config, feed: Feed, n: nat, initial: real)
    requires 0.0 <= cfg.slippage <= 1.0 && (n == 0 || n < |feed.signal|)
    ensures PricesOk(cfg, feed, RunBars(cfg, feed, n, initial))
  {
    hide RunKept, PricesOk, RunBars;
    PricesKept(cfg, feed, initial);
    KeptBars(cfg, feed, (s, i) => PricesOk(cfg, feed, s), (s, i, pos) => PricesOk(cfg, feed, s), initial, n);
  }

  // ----- the floor of alternating trades -----

  lemma NotionalWithin(cfg: Config, share: real, balance: real, afterExit: bool, trades: nat)
    requires SharesWithin(cfg, share) && balance >= 0.0
    ensures 0.0 <= OrderNotional(cfg, balance, afterExit, trades) <= share * balance
  {
    var order := OrderShare(cfg, afterExit, trades);
    assert 0.0 <= order <= share;
    MulMonotone(0.0, order, balance);
    MulMonotone(order, share, balance);
    assert balance * order == order * balance;
  }

  lemma CalmRow(cfg: Config, feed: Feed, trades: seq<Row>, j: nat, ratio: real)
    requires CalmFeed(cfg, feed, ratio) && RowsOk(cfg, feed, trades) && j < |trades| && IsEntry(trades[j])
    ensures trades[j].price > 0.0 && trades[j].atr <= ratio * trades[j].price
  {
    hide FillAt, EntryPrice, IsStep, HereOf;
    var row := trades[j];
    assert RowOk(cfg, feed, trades, j) && Priced(cfg, feed, row);
    assert CalmAt(cfg, feed, Step(row.bar, row.minute), row.side, ratio);
  }

  /** What closing makes of a balance, commission of a notional of zero included. */
  lemma AfterCloseIs(entry: Row, price: real)
    requires entry.Trade? && entry.notional >= 0.0
    ensures AfterClose(entry, price) ==
      entry.balance + PnlOf(entry.side, entry.price, entry.notional, price) - entry.notional * COMMISSION
  {}

  /** What is assumed of trades: they alternate, are sized and priced by their steps. */
  ghost predicate Sound(cfg: Config, feed: Feed, initial: real, trades: seq<Row>) {
    && Alternates(initial, trades) && RowsOk(cfg, feed, trades)
    && forall j :: 0 <= j < |trades| && IsEntry(trades[j]) ==> Sized(cfg, initial, trades, j)
  }

  /** One trade at its stop or better, in terms of the floor before it. */
  lemma TradeKeepsFloor(cfg: Config, feed: Feed, initial: real, trades: seq<Row>, j: nat, floor: real, share: real, ratio: real)
    requires FloorConfig(cfg, share, ratio) && CalmFeed(cfg, feed, ratio) && Sound(cfg, feed, initial, trades)
    requires j % 2 == 0 && j + 1 < |trades|
    requires 0.0 <= floor <= BalanceBefore(initial, trades, j)
    ensures BalanceBefore(initial, trades, j + 2) >= floor * (1.0 - TradeCost(cfg, share, ratio)) >= 0.0
  {
    hide CalmFeed, RowsOk, Priced, SharesWithin, AfterClose, OrderNotional, EntriesIn, PnlOf, LossRate, AtrStop, ExitPrice;
    var entry, close, before := trades[j], trades[j + 1], BalanceBefore(initial, trades, j);
    var rate := LossRate(cfg.stopLossAtr, ratio, cfg.slippage);
    TradeAt(cfg, feed, initial, trades, j);
    var stop := AtrStop(entry.side, entry.price, entry.atr, cfg.stopLossAtr);
    CalmRow(cfg, feed, trades, j, ratio);
    SharePositive(cfg, share);
    NotionalWithin(cfg, share, before, entry.reason != ZeroInitialReentry, EntriesIn(trades[..j], entry.bar));
    StopIsNoWorse(entry.side, stop);
    TradeLoss(entry.side, entry.price, entry.atr, entry.notional, stop, cfg.stopLossAtr, ratio, cfg.slippage);
    PnlMonotone(entry.side, entry.price, entry.notional, close.price, ExitPrice(entry.side, stop, cfg.slippage));
    AfterCloseIs(entry, close.price);
    LossRateNonNegative(cfg.stopLossAtr, ratio, cfg.slippage);
    CloseAboveFloor(before, floor, entry.notional, PnlOf(entry.side, entry.price, entry.notional, close.price), share, rate);
    NextFloor(floor, TradeCost(cfg, share, ratio));
  }

  lemma StopIsNoWorse(side: Side, stop: real)
    ensures NoWorse(side, stop, stop)
  {}

  lemma SharePositive(cfg: Config, share: real)
    requires SharesWithin(cfg, share)
    ensures share >= 0.0
  {}

  /** The facts about one entry and its close. */
  lemma TradeAt(cfg: Config, feed: Feed, initial: real, trades: seq<Row>, j: nat)
    requires Sound(cfg, feed, initial, trades) && j % 2 == 0 && j + 1 < |trades|
    ensures var entry, close, before := trades[j], trades[j + 1], BalanceBefore(initial, trades, j);
      && IsEntry(entry) && IsClose(close)
      && entry.balance == before - entry.notional * COMMISSION
      && entry.notional == OrderNotional(cfg, before, entry.reason != ZeroInitialReentry, EntriesIn(trades[..j], entry.bar))
      && close.balance == AfterClose(entry, close.price)
      && NoWorse(entry.side, close.price, StopPrice(cfg, entry))
  {
    hide Priced, AfterClose, OrderNotional, EntriesIn, StopPrice;
    assert EntryRow(initial, trades, j) && CloseRow(trades, j + 1);
    assert Sized(cfg, initial, trades, j) && RowOk(cfg, feed, trades, j + 1);
  }

  lemma {:induction false} FloorOfTrades(cfg: Config, feed: Feed, initial: real, trades: seq<Row>, n: nat, share: real, ratio: real)
    requires FloorConfig(cfg, share, ratio) && CalmFeed(cfg, feed, ratio) && Sound(cfg, feed, initial, trades) && initial >= 0.0
    requires 2 * n <= |trades|
    ensures BalanceBefore(initial, trades, 2 * n) >= FloorAfter(initial, TradeCost(cfg, share, ratio), n) >= 0.0
  {
    hide FloorConfig, CalmFeed, Sound, TradeCost;
    if n == 0 {
      FloorStep(initial, TradeCost(cfg, share, ratio), 0);
    } else {
      FloorOfTrades(cfg, feed, initial, trades, n - 1, share, ratio);
      TradeKeepsFloor(cfg, feed, initial, trades, 2 * n - 2, FloorAfter(initial, TradeCost(cfg, share, ratio), n - 1), share, ratio);
      FloorStep(initial, TradeCost(cfg, share, ratio), n - 1);
    }
  }

  // ----- the run -----

  lemma SoundRun(cfg: Config, feed: Feed, bars: nat, initial: real)
    requires 0.0 <= cfg.slippage <= 1.0 && (bars == 0 || bars < |feed.signal|)
    ensures var s := RunBars(cfg, feed, bars, initial);
      Sound(cfg, feed, initial, Trades(s.ledger)) && Balanced(initial, s, Trades(s.ledger))
  {
    hide RunBars, Alternates, RowsOk, AllGenuine, ExitWindowOk, ZeroWindowOk, BarsRise, RowsUpTo, Trades, EntriesIn, Origin, StopHeld,
         OrderNotional;
    BooksOfBars(cfg, feed, bars, initial);
    PricesOfBars(cfg, feed, bars, initial);
  }

  /** For every feed and every number of bars: with order shares of at most `share` and a feed whose
      fills have ATRs of at most `ratio` of their price, the balance after `n` closed trades is at least
      the initial one times the n-th power of one minus the cost of a trade; while a position is open,
      its paid commission is all that may be missing. */
  lemma GeometricFloor(cfg: Config, feed: Feed, bars: nat, initial: real, share: real, ratio: real)
    requires FloorConfig(cfg, share, ratio) && CalmFeed(cfg, feed, ratio) && initial >= 0.0
    requires bars == 0 || bars < |feed.signal|
    ensures var s := RunBars(cfg, feed, bars, initial);
      var floor := initial * Power(1.0 - TradeCost(cfg, share, ratio), |Trades(s.ledger)| / 2);
      && floor >= 0.0
      && (s.position.None? ==> s.balance >= floor)
      && (s.position.Some? ==> s.balance + s.position.value.notional * COMMISSION >= floor)
  {
    hide RunBars, CalmFeed, RowsOk, SharesWithin, TradeCost, Trades, Sized, CloseRow;
    var s := RunBars(cfg, feed, bars, initial);
    var trades := Trades(s.ledger);
    SoundRun(cfg, feed, bars, initial);
    FloorOfTrades(cfg, feed, initial, trades, |trades| / 2, share, ratio);
    if s.position.Some? {
      assert EntryRow(initial, trades, |trades| - 1);
    }
  }

  /** A whole replay keeps the floor unless its last exit is a final mark. */
  lemma ReplayFloor(cfg: Config, feed: Feed, initial: real, share: real, ratio: real)
    requires FloorConfig(cfg, share, ratio) && CalmFeed(cfg, feed, ratio) && initial >= 0.0
    ensures var s := Replay(cfg, feed, initial);
      var trades := Trades(s.ledger);
      trades == [] || trades[|trades| - 1].reason != FinalMarkToMarket ==>
        s.balance >= initial * Power(1.0 - TradeCost(cfg, share, ratio), |trades| / 2)
  {
    hide RunBars, CalmFeed, FloorConfig, TradeCost, Trades, BalanceAfter, ExitPrice, Initial, Power;
    var n := if |feed.signal| == 0 then 0 else |feed.signal| - 1;
    var s, t := RunBars(cfg, feed, n, initial), Replay(cfg, feed, initial);
    GeometricFloor(cfg, feed, n, initial, share, ratio);
    if s.position.Some? && feed.seconds != [] {
      TradesSnoc(s.ledger, t.ledger[|s.ledger|]);
    } else if s.position.Some? {
      NothingTraded(cfg, feed, n, initial);
      InitiallyFlat(initial);
    }
  }
}
