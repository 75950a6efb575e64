/** The trading rules as they are written down, side by side for longs and shorts: what both engines are
    measured against. */
module Rulebook {
  import opened Market
  import opened Options
  import opened SecondReplay

  // ----- prices -----

  /** Slippage is paid on the way in: a long buys higher, a short sells lower. */
  function Entered(side: Side, raw: real, slippage: real): real {
    match side case Long => raw + raw * slippage case Short => raw - raw * slippage
  }

  /** And on the way out: a long sells lower, a short buys higher. */
  function Left(side: Side, raw: real, slippage: real): real {
    match side case Long => raw - raw * slippage case Short => raw + raw * slippage
  }

  lemma SlippedPrices(side: Side, raw: real, slippage: real)
    ensures EntryPrice(side, raw, slippage) == Entered(side, raw, slippage)
    ensures ExitPrice(side, raw, slippage) == Left(side, raw, slippage)
  {}

  /** What a trade makes, before commission: its part of the price that was gained, on its notional. */
  function Made(side: Side, entry: real, notional: real, price: real): real {
    if notional > 0.0 && entry != 0.0 then
      match side
      case Long => (price - entry) / entry * notional
      case Short => (entry - price) / entry * notional
    else 0.0
  }

  lemma MadeIsPnl(side: Side, entry: real, notional: real, price: real)
    ensures PnlOf(side, entry, notional, price) == Made(side, entry, notional, price)
  {}

  /** The stop of a fresh position: a distance against it. */
  function FirstStop(side: Side, entry: real, distance: real): real {
    match side case Long => entry - distance case Short => entry + distance
  }

  // ----- levels -----

  /** A second reaches a level against a side: with its low for a long, with its high for a short. */
  predicate Touches(side: Side, second: Second, level: real) {
    match side case Long => second.low <= level case Short => second.high >= level
  }

  /** A second reaches a level in favour of a side. */
  predicate Attains(side: Side, second: Second, level: real) {
    match side case Long => second.high >= level case Short => second.low <= level
  }

  /** The level that protects a profit, and from which the re-entry price is measured: the previous low
      for a long, the previous high for a short. */
  function Guard(side: Side, row: SignalRow): Option<real> {
    match side case Long => row.prevLow1 case Short => row.prevHigh1
  }

  /** The re-entry price: a distance from the guard, up for a long, down for a short. */
  function BackIn(side: Side, row: SignalRow, distance: real): Option<real> {
    match Guard(side, row)
    case None => None
    case Some(level) => Some(match side case Long => level + distance case Short => level - distance)
  }

  lemma BackInIsPrice(sig: Signal, side: Side, reentryAtr: real, distance: real)
    requires distance == reentryAtr * sig.atr
    ensures ReentryPrice(sig, side, reentryAtr) == BackIn(side, sig.row, distance)
  {
    match side {
      case Long =>
        if sig.row.prevLow1.Some? {
          assert ReentryPrice(sig, side, reentryAtr).value == sig.row.prevLow1.value + distance;
        }
      case Short =>
        if sig.row.prevHigh1.Some? {
          assert ReentryPrice(sig, side, reentryAtr).value == sig.row.prevHigh1.value - distance;
        }
    }
  }

  // ----- the regime -----

  /** Both levels are known, and the first is below the second. */
  predicate Under(a: Option<real>, b: Option<real>) {
    match (a, b) case (Some(x), Some(y)) => x < y case _ => false
  }

  predicate NotOver(a: Option<real>, b: Option<real>) {
    match (a, b) case (Some(x), Some(y)) => x <= y case _ => false
  }

  /** The two previous bars lean up: the high falls back while the low holds, or the other way down. */
  predicate Leans(side: Side, row: SignalRow) {
    match side
    case Long => Under(row.prevHigh1, row.prevHigh2) && NotOver(row.prevLow2, row.prevLow1)
    case Short => Under(row.prevLow2, row.prevLow1) && NotOver(row.prevHigh1, row.prevHigh2)
  }

  /** A side may trade when the close is beyond the average, or short of it by no more than six hundredths
      of the ATR while the bars lean that way; never without a positive average and a positive ATR. */
  predicate Allows(sig: Signal, side: Side) {
    match sig.ma5
    case None => false
    case Some(average) =>
      average > 0.0 && sig.atr > 0.0 &&
      var beyond := match side case Long => sig.close - average case Short => average - sig.close;
      beyond > 0.0 || (beyond >= -0.06 * sig.atr && Leans(side, sig.row))
  }

  lemma AllowsIsReady(sig: Signal, side: Side)
    ensures RegimeReady(sig, side) <==> Allows(sig, side)
  {}
}
