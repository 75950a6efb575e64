/** Pairing the rows of a ledger, and what the pairs say of the balance. */
module Attribution {
  import opened EngineLedger
  import opened Market
  import opened Options
  import opened SecondReplay

  datatype Pair = Pair(shape: string, entryKind: RowKind, entryReason: Reason, exitReason: Reason, pnlValue: real)

  /** The profit a pair is credited with: by price alone, none for an entry without a positive price. */
  function PairPnl(entry: Row, exitPrice: real): real {
    if entry.price > 0.0 then
      (if entry.kind == Buy then exitPrice - entry.price else entry.price - exitPrice) / entry.price * entry.notional
    else 0.0
  }

  /** Scanning rows: the pairs so far and the entry still waiting for its exit. */
  datatype Scan = Scan(pairs: seq<Pair>, open: Option<Row>)

  function ScanRow(scan: Scan, row: Row): Scan {
    if row.kind != Exit then scan.(open := Some(row))
    else if scan.open.None? then scan
    else
      var entry := scan.open.value;
      Scan(scan.pairs + [Pair(entry.shape, entry.kind, entry.reason, row.reason, PairPnl(entry, row.price))], None)
  }

  function ScanRows(ledger: seq<Row>): Scan {
    if ledger == [] then Scan([], None)
    else ScanRow(ScanRows(ledger[..|ledger| - 1]), ledger[|ledger| - 1])
  }

  /** The pairing loop of `summarize_breakout_attribution`, for any ledger. */
  method PairRows(ledger: seq<Row>) returns (pairs: seq<Pair>)
    ensures pairs == ScanRows(ledger).pairs
  {
    hide PairPnl;
    pairs := [];
    var openEntry: Option<Row> := None;
    for i := 0 to |ledger|
      invariant Scan(pairs, openEntry) == ScanRows(ledger[..i])
    {
      assert ledger[..i + 1][..i] == ledger[..i];
      var row := ledger[i];
      if row.kind == Buy || row.kind == Sell {
        openEntry := Some(row);
        continue;
      }
      if row.kind != Exit || openEntry.None? {
        continue;
      }
      var entry := openEntry.value;
      pairs := pairs + [Pair(entry.shape, entry.kind, entry.reason, row.reason, PairPnl(entry, row.price))];
      openEntry := None;
    }
    assert ledger[..|ledger|] == ledger;
  }

  function PnlTotal(pairs: seq<Pair>): real {
    if pairs == [] then 0.0 else PnlTotal(pairs[..|pairs| - 1]) + pairs[|pairs| - 1].pnlValue
  }

  /** The notionals of the entries among the rows. */
  function NotionalTotal(ledger: seq<Row>): real {
    if ledger == [] then 0.0
    else
      var last := ledger[|ledger| - 1];
      NotionalTotal(ledger[..|ledger| - 1]) + if last.kind == Exit then 0.0 else last.notional
  }

  /** The engine books no profit on a notional that is not positive, nor the attribution on a price
      that is not: what the pairs credit beyond what the balance got. */
  function OverCredited(entry: Row, exitPrice: real): real {
    PairPnl(entry, exitPrice) - PnlOf(entry.side, entry.price, entry.notional, exitPrice)
  }

  function OverCreditedTotal(ledger: seq<Row>): real {
    if |ledger| <= 1 then 0.0
    else
      var last, entry := ledger[|ledger| - 1], ledger[|ledger| - 2];
      OverCreditedTotal(ledger[..|ledger| - 1]) + if last.kind == Exit then OverCredited(entry, last.price) else 0.0
  }

  /** The guards of the two formulas agree: the attribution asks for a positive price, the engine for a
      positive notional; they cannot differ when nothing was gained or staked, or at a price of zero. */
  predicate Recovers(entry: Row, exitPrice: real) {
    exitPrice == entry.price || entry.notional == 0.0 || entry.price == 0.0
    || ((entry.price > 0.0) == (entry.notional > 0.0))
  }

  lemma ProductIsZero(gain: real, price: real, notional: real)
    requires price != 0.0
    ensures gain / price * notional == 0.0 <==> gain == 0.0 || notional == 0.0
  {
    var rate := gain / price;
    assert rate * price == gain;
    if rate != 0.0 && notional != 0.0 {
      assert gain != 0.0;
    }
  }

  /** A pair is credited with what the balance got if and only if the guards agree. */
  lemma CreditExact(entry: Row, exitPrice: real)
    requires entry.kind == KindOf(entry.side)
    ensures OverCredited(entry, exitPrice) == 0.0 <==> Recovers(entry, exitPrice)
  {
    if entry.price != 0.0 {
      ProductIsZero(if entry.side == Long then exitPrice - entry.price else entry.price - exitPrice, entry.price, entry.notional);
    }
  }

  /** The rows are paired, and the pairs and commissions explain the change of the balance. */
  ghost predicate Explained(initial: real, ledger: seq<Row>) {
    var scan := ScanRows(ledger);
    && (|ledger| % 2 == 0 ==> scan.open.None? && 2 * |scan.pairs| == |ledger|)
    && (|ledger| % 2 == 1 ==> scan.open == Some(ledger[|ledger| - 1]) && 2 * |scan.pairs| + 1 == |ledger|)
    && BalanceBefore(initial, ledger, |ledger|) - initial ==
         PnlTotal(scan.pairs) - OverCreditedTotal(ledger)
         - 2.0 * COMMISSION * NotionalTotal(ledger)
         + (if |ledger| % 2 == 1 then COMMISSION * ledger[|ledger| - 1].notional else 0.0)
  }

  lemma EntryExplained(initial: real, ledger: seq<Row>)
    requires |ledger| % 2 == 1 && Explained(initial, ledger[..|ledger| - 1])
    requires EntryRow(initial, ledger, |ledger| - 1)
    ensures Explained(initial, ledger)
  {
    hide PairPnl, PnlOf;
  }

  lemma ExitExplained(initial: real, ledger: seq<Row>)
    requires |ledger| % 2 == 0 && ledger != [] && Explained(initial, ledger[..|ledger| - 1])
    requires ExitRow(initial, ledger, |ledger| - 1) && ledger[|ledger| - 2].kind != Exit
    ensures Explained(initial, ledger)
  {
    hide PairPnl, PnlOf, PnlTotal;
    var last, entry := ledger[|ledger| - 1], ledger[|ledger| - 2];
    PnlSnoc(ScanRows(ledger[..|ledger| - 1]).pairs,
            Pair(entry.shape, entry.kind, entry.reason, last.reason, PairPnl(entry, last.price)));
  }

  /** Adding up a well-formed ledger row by row. */
  lemma {:induction false} RowsExplainBalance(initial: real, ledger: seq<Row>)
    requires Alternates(initial, ledger)
    ensures Explained(initial, ledger)
  {
    if ledger == [] {
    } else {
      hide Explained;
      var init, j := ledger[..|ledger| - 1], |ledger| - 1;
      InitAlternates(initial, ledger);
      RowsExplainBalance(initial, init);
      if j % 2 == 0 {
        assert EntryRow(initial, ledger, j);
        EntryExplained(initial, ledger);
      } else {
        assert ExitRow(initial, ledger, j);
        assert EntryRow(initial, ledger, j - 1);
        ExitExplained(initial, ledger);
      }
    }
  }

  lemma PnlSnoc(pairs: seq<Pair>, pair: Pair)
    ensures PnlTotal(pairs + [pair]) == PnlTotal(pairs) + pair.pnlValue
  {
    assert (pairs + [pair])[..|pairs|] == pairs;
  }

  lemma InitAlternates(initial: real, ledger: seq<Row>)
    requires Alternates(initial, ledger) && ledger != []
    ensures Alternates(initial, ledger[..|ledger| - 1])
  {
    hide PnlOf;
    var init := ledger[..|ledger| - 1];
    forall j | 0 <= j < |init|
      ensures if j % 2 == 0 then EntryRow(initial, init, j) else ExitRow(initial, init, j)
    {
      assert if j % 2 == 0 then EntryRow(initial, ledger, j) else ExitRow(initial, ledger, j);
    }
  }

  /** For every replay: the profit of all pairs, less two commissions on every notional, is the change
      of the balance, up to what was credited on trades without a positive price or notional. */
  lemma PairsRecoverProfit(cfg: Config, feed: Feed, initial: real)
    ensures var s := Replay(cfg, feed, initial);
      var scan := ScanRows(s.ledger);
      && scan.open.None? && 2 * |scan.pairs| == |s.ledger|
      && PnlTotal(scan.pairs) - 2.0 * COMMISSION * NotionalTotal(s.ledger) ==
           s.balance - initial + OverCreditedTotal(s.ledger)
  {
    hide Replay, Alternates, ScanRows, PnlTotal, NotionalTotal, OverCreditedTotal;
    ReplayLedger(cfg, feed, initial);
    RowsExplainBalance(initial, Replay(cfg, feed, initial).ledger);
  }

  // ----- when the profit is recovered -----

  /** What the balance gained on the trade of rows `2 * k` and `2 * k + 1`, commissions added back. */
  function Booked(initial: real, ledger: seq<Row>, k: nat): real
    requires 2 * k + 1 < |ledger|
  {
    ledger[2 * k + 1].balance - BalanceBefore(initial, ledger, 2 * k) + 2.0 * COMMISSION * ledger[2 * k].notional
  }

  predicate RecoversAt(ledger: seq<Row>, k: nat)
    requires 2 * k + 1 < |ledger|
  {
    Recovers(ledger[2 * k], ledger[2 * k + 1].price)
  }

  /** The `k`-th pair is credited with what its trade booked exactly when its guards agree. */
  ghost predicate PairExact(initial: real, ledger: seq<Row>, k: nat)
    requires 2 * k + 1 < |ledger|
  {
    var pairs := ScanRows(ledger).pairs;
    k < |pairs| && (pairs[k].pnlValue == Booked(initial, ledger, k) <==> RecoversAt(ledger, k))
  }

  ghost predicate PairedSoFar(ledger: seq<Row>) {
    var scan := ScanRows(ledger);
    && |scan.pairs| == |ledger| / 2
    && (|ledger| % 2 == 1 ==> scan.open == Some(ledger[|ledger| - 1]))
    && forall k :: 0 <= k < |scan.pairs| ==> scan.pairs[k].pnlValue == PairPnl(ledger[2 * k], ledger[2 * k + 1].price)
  }

  lemma {:induction false} PairsInOrder(initial: real, ledger: seq<Row>)
    requires Alternates(initial, ledger)
    ensures PairedSoFar(ledger)
  {
    hide PairPnl, PnlOf;
    if ledger != [] {
      var init, j := ledger[..|ledger| - 1], |ledger| - 1;
      InitAlternates(initial, ledger);
      PairsInOrder(initial, init);
      assert if j % 2 == 0 then EntryRow(initial, ledger, j) else ExitRow(initial, ledger, j);
    }
  }

  lemma EachPairExact(initial: real, ledger: seq<Row>, k: nat)
    requires Alternates(initial, ledger) && 2 * k + 1 < |ledger|
    ensures PairExact(initial, ledger, k)
  {
    hide PairPnl, PnlOf, Recovers, ScanRows;
    PairsInOrder(initial, ledger);
    assert 2 * k % 2 == 0 && EntryRow(initial, ledger, 2 * k);
    assert (2 * k + 1) % 2 == 1 && ExitRow(initial, ledger, 2 * k + 1);
    CreditExact(ledger[2 * k], ledger[2 * k + 1].price);
  }

  lemma {:induction false} RecoveringRows(initial: real, ledger: seq<Row>)
    requires Alternates(initial, ledger)
    requires forall k :: 0 <= k < |ledger| / 2 ==> RecoversAt(ledger, k)
    ensures OverCreditedTotal(ledger) == 0.0
  {
    hide OverCredited, PnlOf, Recovers;
    if |ledger| > 1 {
      var j := |ledger| - 1;
      var init := ledger[..j];
      InitAlternates(initial, ledger);
      forall k | 0 <= k < |init| / 2 ensures RecoversAt(init, k) {
        assert RecoversAt(ledger, k);
      }
      RecoveringRows(initial, init);
      assert if j % 2 == 0 then EntryRow(initial, ledger, j) else ExitRow(initial, ledger, j);
      if j % 2 == 1 {
        assert EntryRow(initial, ledger, j - 1);
        assert RecoversAt(ledger, j / 2);
        CreditExact(ledger[j - 1], ledger[j].price);
      }
    }
  }

  /** In every replay each pair is credited with what its trade booked if and only if its guards agree;
      if they all do, the profit is recovered. */
  lemma RecoveryExact(cfg: Config, feed: Feed, initial: real)
    ensures var s := Replay(cfg, feed, initial);
      forall k :: 0 <= k < |s.ledger| / 2 ==> PairExact(initial, s.ledger, k)
    ensures var s := Replay(cfg, feed, initial);
      (forall k :: 0 <= k < |s.ledger| / 2 ==> RecoversAt(s.ledger, k)) ==>
        PnlTotal(ScanRows(s.ledger).pairs) - 2.0 * COMMISSION * NotionalTotal(s.ledger) == s.balance - initial
  {
    hide Replay, Alternates, ScanRows, PnlTotal, NotionalTotal, OverCreditedTotal, PairExact, RecoversAt;
    PairsRecoverProfit(cfg, feed, initial);
    ReplayLedger(cfg, feed, initial);
    var ledger := Replay(cfg, feed, initial).ledger;
    forall k | 0 <= k < |ledger| / 2 ensures PairExact(initial, ledger, k) {
      EachPairExact(initial, ledger, k);
    }
    if forall k :: 0 <= k < |ledger| / 2 ==> RecoversAt(ledger, k) {
      RecoveringRows(initial, ledger);
    }
  }
}
