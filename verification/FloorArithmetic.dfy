/** What one trade can cost: the arithmetic under the balance floors of both engines. */
module FloorArithmetic {
  import opened Market
  import opened Reals

  // ----- one trade -----

  /** The largest loss of a trade, per unit of notional and before commission: slippage, and the way
      from the entry to the stop, worsened by slippage. */
  function LossRate(stopLossAtr: real, ratio: real, slippage: real): real {
    slippage + stopLossAtr * ratio * (1.0 + slippage)
  }

  /** Leaving at or better than the stop bounds the price from below for a long, from above for a
      short, relative to the entry. */
  lemma ExitPriceBound(side: Side, entry: real, atr: real, raw: real, stopLossAtr: real, ratio: real, slippage: real)
    requires entry > 0.0 && 0.0 <= slippage <= 1.0 && stopLossAtr >= 0.0 && ratio >= 0.0
    requires atr <= ratio * entry
    requires NoWorse(side, raw, AtrStop(side, entry, atr, stopLossAtr))
    ensures var price, loss := ExitPrice(side, raw, slippage), LossRate(stopLossAtr, ratio, slippage);
      (if side == Long then price - entry else entry - price) >= -loss * entry
  {
    hide LossRate;
    var ar := stopLossAtr * ratio;
    MulMonotone(0.0, stopLossAtr, ratio);
    StopDistance(entry, atr, stopLossAtr, ratio);
    LossRateUnfolds(stopLossAtr, ratio, slippage);
    if side == Long {
      LongExit(entry, raw, ar, slippage);
    } else {
      ShortExit(entry, raw, ar, slippage);
    }
  }

  lemma LossRateUnfolds(stopLossAtr: real, ratio: real, slippage: real)
    ensures LossRate(stopLossAtr, ratio, slippage) == slippage + stopLossAtr * ratio * (1.0 + slippage)
  {}

  lemma StopDistance(entry: real, atr: real, stopLossAtr: real, ratio: real)
    requires stopLossAtr >= 0.0 && atr <= ratio * entry
    ensures stopLossAtr * atr <= stopLossAtr * ratio * entry
  {
    MulMonotone(atr, ratio * entry, stopLossAtr);
    MulAssociates(stopLossAtr, ratio, entry);
  }

  lemma MulAssociates(a: real, b: real, c: real)
    ensures (b * c) * a == a * b * c
  {}

  lemma LongExit(entry: real, raw: real, ar: real, k: real)
    requires entry > 0.0 && ar >= 0.0 && 0.0 <= k <= 1.0 && raw >= entry - ar * entry
    ensures raw * (1.0 - k) - entry >= -(k + ar * (1.0 + k)) * entry
  {
    var low, m, bound := entry - ar * entry, 1.0 - k, -(k + ar * (1.0 + k)) * entry;
    LongBound(entry, ar, k, low, m, bound);
    ScaledGap(low, raw, m, entry, bound);
  }

  lemma ScaledGap(low: real, raw: real, m: real, entry: real, bound: real)
    requires low <= raw && m >= 0.0 && low * m - entry >= bound
    ensures raw * m - entry >= bound
  {
    MulMonotone(low, raw, m);
  }

  lemma ShortExit(entry: real, raw: real, ar: real, k: real)
    requires k >= 0.0 && raw <= entry + ar * entry
    ensures entry - raw * (1.0 + k) >= -(k + ar * (1.0 + k)) * entry
  {
    MulMonotone(raw, entry + ar * entry, 1.0 + k);
    ShortBound(entry, ar, k);
  }

  lemma LongBound(entry: real, ar: real, k: real, low: real, m: real, bound: real)
    requires entry > 0.0 && ar >= 0.0 && k >= 0.0
    requires low == entry - ar * entry && m == 1.0 - k && bound == -(k + ar * (1.0 + k)) * entry
    ensures low * m - entry >= bound
  {
    var x := ar * entry;
    assert low * m == low - k * low;
    assert k * low == k * entry - k * x;
    assert bound == -(k * entry) - x - k * x by {
      assert (k + ar * (1.0 + k)) * entry == k * entry + ar * (1.0 + k) * entry;
      assert ar * (1.0 + k) * entry == x + k * x;
    }
    assert k * x >= 0.0;
  }

  lemma ShortBound(entry: real, ar: real, k: real)
    ensures entry - (entry + ar * entry) * (1.0 + k) == -(k + ar * (1.0 + k)) * entry
  {
    var x := ar * entry;
    assert (entry + x) * (1.0 + k) == entry + k * entry + x + k * x;
    assert -(k + ar * (1.0 + k)) * entry == -(k * entry) - x - k * x;
  }

  /** A trade closed at or better than its stop loses at most its loss rate. */
  lemma TradeLoss(side: Side, entry: real, atr: real, notional: real, raw: real,
                  stopLossAtr: real, ratio: real, slippage: real)
    requires entry > 0.0 && 0.0 <= slippage <= 1.0 && stopLossAtr >= 0.0 && ratio >= 0.0
    requires atr <= ratio * entry && notional >= 0.0
    requires NoWorse(side, raw, AtrStop(side, entry, atr, stopLossAtr))
    ensures PnlOf(side, entry, notional, ExitPrice(side, raw, slippage)) >=
      -LossRate(stopLossAtr, ratio, slippage) * notional
  {
    hide LossRate;
    var price, loss := ExitPrice(side, raw, slippage), LossRate(stopLossAtr, ratio, slippage);
    var gain := if side == Long then price - entry else entry - price;
    ExitPriceBound(side, entry, atr, raw, stopLossAtr, ratio, slippage);
    DivMonotone(-loss * entry, gain, entry);
    DivUndoesMul(-loss, entry);
    MulMonotone(-loss, gain / entry, notional);
  }

  // ----- better prices -----

  /** A better raw price leaves at a better price. */
  lemma ExitMonotone(side: Side, raw: real, stop: real, slippage: real)
    requires NoWorse(side, raw, stop) && 0.0 <= slippage <= 1.0
    ensures NoWorse(side, ExitPrice(side, raw, slippage), ExitPrice(side, stop, slippage))
  {
    var factor := if side == Long then 1.0 - slippage else 1.0 + slippage;
    assert ExitPrice(side, raw, slippage) == raw * factor && ExitPrice(side, stop, slippage) == stop * factor;
    Scaled(side, raw, stop, factor);
  }

  lemma Scaled(side: Side, a: real, b: real, factor: real)
    requires NoWorse(side, a, b) && factor >= 0.0
    ensures NoWorse(side, a * factor, b * factor)
  {
    if side == Long {
      MulMonotone(b, a, factor);
    } else {
      MulMonotone(a, b, factor);
    }
  }

  /** A better exit price makes more of a trade. */
  lemma PnlMonotone(side: Side, entry: real, notional: real, a: real, b: real)
    requires entry > 0.0 && NoWorse(side, a, b)
    ensures PnlOf(side, entry, notional, a) >= PnlOf(side, entry, notional, b)
  {
    if notional > 0.0 {
      var gain, less := if side == Long then a - entry else entry - a, if side == Long then b - entry else entry - b;
      DivMonotone(less, gain, entry);
      MulMonotone(less / entry, gain / entry, notional);
    }
  }

  // ----- the balance after one more trade -----

  lemma ProductWithin(a: real, m: real, share: real)
    requires 0.0 <= a <= share && 0.0 <= m <= 1.0
    ensures 0.0 <= a * m <= share
  {
    MulMonotone(0.0, a, m);
    MulMonotone(m, 1.0, a);
    assert m * a == a * m && 1.0 * a == a;
  }

  /** One more trade: the balance after it is at least the balance before it less its cost. */
  lemma CloseAboveFloor(before: real, floor: real, notional: real, pnl: real, share: real, rate: real)
    requires before >= floor >= 0.0 && 0.0 <= notional <= share * before && share >= 0.0 && rate >= 0.0
    requires pnl >= -rate * notional
    requires share * (2.0 * COMMISSION + rate) <= 1.0
    ensures before - notional * COMMISSION + pnl - notional * COMMISSION >=
      floor * (1.0 - share * (2.0 * COMMISSION + rate))
  {
    var q := 2.0 * COMMISSION + rate;
    MulMonotone(notional, share * before, q);
    assert notional * q <= share * before * q;
    assert share * before * q == before * (share * q);
    MulMonotone(floor, before, 1.0 - share * q);
    assert before * (1.0 - share * q) == before - before * (share * q);
  }

  lemma LossRateNonNegative(stopLossAtr: real, ratio: real, slippage: real)
    requires stopLossAtr >= 0.0 && ratio >= 0.0 && slippage >= 0.0
    ensures LossRate(stopLossAtr, ratio, slippage) >= 0.0
  {
    MulMonotone(0.0, stopLossAtr, ratio);
    MulMonotone(0.0, stopLossAtr * ratio, 1.0 + slippage);
  }

  lemma NextFloor(floor: real, cost: real)
    requires floor >= 0.0 && cost <= 1.0
    ensures floor * (1.0 - cost) >= 0.0
  {
    MulMonotone(0.0, floor, 1.0 - cost);
  }

  /** The floor after some closed trades. */
  function FloorAfter(initial: real, cost: real, closed: nat): real {
    initial * Power(1.0 - cost, closed)
  }

  lemma FloorStep(initial: real, cost: real, n: nat)
    ensures FloorAfter(initial, cost, 0) == initial
    ensures FloorAfter(initial, cost, n + 1) == FloorAfter(initial, cost, n) * (1.0 - cost)
  {
    var base := 1.0 - cost;
    assert Power(base, 0) == 1.0;
    assert initial * (Power(base, n) * base) == initial * Power(base, n) * base;
  }
}
