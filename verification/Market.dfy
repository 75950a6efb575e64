/** Prices, signals and positions: what the two replay engines share. Prices are exact reals, and a
    missing value (NaN) is `None`, which fails every comparison. */
module Market {
  import opened Options

  const COMMISSION := 0.001

  datatype Side = Long | Short

  function Opposite(side: Side): Side { if side == Long then Short else Long }

  datatype Reason = ZeroInitialReentry | SLReentry | PTReentry | SL | PT | PTTier2 | PTTier3 | T3TimeCap | FinalMarkToMarket

  // ----- signal rows -----

  /** A closed signal bar with the levels of the bars before it. */
  datatype SignalRow = SignalRow(
    time: int,
    atr: Option<real>,
    ma5: Option<real>,
    close: real,
    prevHigh1: Option<real>, prevHigh2: Option<real>, prevHigh3: Option<real>,
    prevLow1: Option<real>, prevLow2: Option<real>, prevLow3: Option<real>,
    prevClose1: Option<real>, prevClose2: Option<real>, prevClose3: Option<real>, prevClose4: Option<real>)

  /** The signal as a second sees it: the row's levels with the current ATR, average and close. */
  datatype Signal = Signal(row: SignalRow, atr: real, ma5: Option<real>, close: real)

  function Max(a: real, b: real): real { if a >= b then a else b }

  function Min(a: real, b: real): real { if a <= b then a else b }

  function Abs(a: real): real { if a >= 0.0 then a else -a }

  predicate Above(a: Option<real>, b: Option<real>) { a.Some? && b.Some? && a.value > b.value }

  predicate AtLeast(a: Option<real>, b: Option<real>) { a.Some? && b.Some? && a.value >= b.value }

  predicate Positive(a: Option<real>) { a.Some? && a.value > 0.0 }

  /** `_intrabar_signal` on a row whose closed ATR is known: the running bar's true range enters the
      ATR, and the average takes the current close when four closes are known. */
  function IntrabarSignal(row: SignalRow, high: real, low: real, close: real): Signal
    requires row.atr.Some?
  {
    var prev := if row.prevClose1.Some? then row.prevClose1.value else close;
    var trueRange := Max(Max(high - low, Abs(high - prev)), Abs(low - prev));
    var ma5 :=
      if row.prevClose1.Some? && row.prevClose2.Some? && row.prevClose3.Some? && row.prevClose4.Some?
      then Some((row.prevClose1.value + row.prevClose2.value + row.prevClose3.value + row.prevClose4.value + close) / 5.0)
      else row.ma5;
    Signal(row, (row.atr.value * 13.0 + trueRange) / 14.0, ma5, close)
  }

  /** `_resolve_regime_ready` for the daily frame. */
  predicate RegimeReady(sig: Signal, side: Side) {
    var row := sig.row;
    sig.ma5.Some? && sig.ma5.value > 0.0 && sig.atr > 0.0 &&
    var band := 0.06 * sig.atr;
    if side == Long then
      sig.close > sig.ma5.value ||
      (sig.close >= sig.ma5.value - band && Above(row.prevHigh2, row.prevHigh1) && AtLeast(row.prevLow1, row.prevLow2))
    else
      sig.close < sig.ma5.value ||
      (sig.close <= sig.ma5.value + band && Above(row.prevLow1, row.prevLow2) && AtLeast(row.prevHigh2, row.prevHigh1))
  }

  datatype Breakout = Breakout(level: real, shape: string)

  const ORIGINAL_T2 := "original_t2"
  const T3_SWING := "t3_swing"

  /** `_long_breakout` on the second's high and `_short_breakout` on its low. */
  function BreakoutOf(row: SignalRow, side: Side, price: real, withT3: bool): Option<Breakout> {
    if side == Long then
      var p1, p2, p3 := row.prevHigh1, row.prevHigh2, row.prevHigh3;
      if Positive(p1) && Positive(p2) && p2.value > p1.value && price >= p2.value then
        Some(Breakout(p2.value, ORIGINAL_T2))
      else if withT3 && Positive(p1) && Positive(p2) && Positive(p3) && p3.value > p2.value && p3.value > p1.value
        && p1.value > p2.value && price >= p3.value then Some(Breakout(p3.value, T3_SWING))
      else None
    else
      var p1, p2, p3 := row.prevLow1, row.prevLow2, row.prevLow3;
      if Positive(p1) && Positive(p2) && p2.value < p1.value && price <= p2.value then
        Some(Breakout(p2.value, ORIGINAL_T2))
      else if withT3 && Positive(p1) && Positive(p2) && Positive(p3) && p3.value < p2.value && p3.value < p1.value
        && p1.value < p2.value && price <= p3.value then Some(Breakout(p3.value, T3_SWING))
      else None
  }

  /** `_resolve_reentry_price` with wick anchors. */
  function ReentryPrice(sig: Signal, side: Side, reentryAtr: real): Option<real> {
    var anchor := if side == Long then sig.row.prevLow1 else sig.row.prevHigh1;
    if anchor.None? then None
    else Some(if side == Long then anchor.value + reentryAtr * sig.atr else anchor.value - reentryAtr * sig.atr)
  }

  // ----- one position -----

  /** An open position. `initialStop` and `entryAtr` are history: how it was opened. */
  datatype Position = Position(
    side: Side,
    entryPrice: real,
    stop: real,
    isProtected: bool,
    notional: real,
    water: real,
    shape: string,
    entryTime: int,
    sizeMultiplier: real,
    eventKey: string,
    initialStop: real,
    entryAtr: real)

  /** What an open position saw of one step, and whether its stop may trail there. */
  datatype Observation = Observation(atr: real, high: real, low: real, trailAllowed: bool)

  /** A fill or an exit pays slippage against the trader. */
  function EntryPrice(side: Side, raw: real, slippage: real): real {
    if side == Long then raw * (1.0 + slippage) else raw * (1.0 - slippage)
  }

  function ExitPrice(side: Side, raw: real, slippage: real): real {
    if side == Long then raw * (1.0 - slippage) else raw * (1.0 + slippage)
  }

  function AtrStop(side: Side, entryPrice: real, atr: real, stopLossAtr: real): real {
    if side == Long then entryPrice - stopLossAtr * atr else entryPrice + stopLossAtr * atr
  }

  /** The better of two stops or water marks: the higher one for a long, the lower one for a short. */
  function Better(side: Side, a: real, b: real): real {
    if side == Long then Max(a, b) else Min(a, b)
  }

  /** At least as good, for the side that holds the position. */
  predicate NoWorse(side: Side, a: real, b: real) { if side == Long then a >= b else a <= b }

  lemma NoWorseTransitive(side: Side, a: real, b: real, c: real)
    requires NoWorse(side, a, b) && NoWorse(side, b, c)
    ensures NoWorse(side, a, c)
  {}

  function Favourable(side: Side, high: real, low: real): real { if side == Long then high else low }

  function Adverse(side: Side, high: real, low: real): real { if side == Long then low else high }

  /** How far the water mark is ahead of the entry, in ATR. */
  function ProfitAtr(side: Side, entryPrice: real, water: real, atr: real): real {
    if atr > 0.0 then (if side == Long then water - entryPrice else entryPrice - water) / atr else 0.0
  }

  function TrailStop(side: Side, water: real, atr: real, trailingAtr: real): real {
    if side == Long then water - trailingAtr * atr else water + trailingAtr * atr
  }

  /** One evaluation of the trailing stop at a water mark. */
  function Trailed(p: Position, water: real, atr: real, trailingAtr: real, activation: real, allowed: bool): real {
    if allowed && ProfitAtr(p.side, p.entryPrice, water, atr) >= activation
    then Better(p.side, p.stop, TrailStop(p.side, water, atr, trailingAtr)) else p.stop
  }

  /** The profit of a trade, before commission. An entry at price zero, where the program would
      divide by zero, counts as no profit. */
  function PnlOf(side: Side, entryPrice: real, notional: real, exitPrice: real): real {
    if notional > 0.0 && entryPrice != 0.0 then
      (if side == Long then exitPrice - entryPrice else entryPrice - exitPrice) / entryPrice * notional
    else 0.0
  }

  function Pnl(p: Position, exitPrice: real): real {
    PnlOf(p.side, p.entryPrice, p.notional, exitPrice)
  }
}
