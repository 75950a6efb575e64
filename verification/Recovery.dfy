/** When pairing the ledger recovers the profit, from what is known before the run; and a run where it
    does not. */
module Recovery {
  import opened Attribution
  import opened EngineEntries
  import opened EngineFloor
  import opened EngineLedger
  import opened Market
  import opened Options
  import opened SecondReplay

  lemma FinalMarkAddsAnExit(cfg: Config, feed: Feed, s: State)
    ensures var t := FinalMark(cfg, feed, s);
      t.ledger == s.ledger || (|t.ledger| == |s.ledger| + 1 && t.ledger[..|s.ledger|] == s.ledger && t.ledger[|s.ledger|].kind == Exit)
  {
    hide ExitPrice, Pnl;
  }

  lemma GuardsAgree(ledger: seq<Row>, ratio: real, initial: real)
    requires Alternates(initial, ledger) && CalmEntries(ledger, ratio) && NoShortNotional(ledger)
    ensures forall k :: 0 <= k < |ledger| / 2 ==> RecoversAt(ledger, k)
  {
    hide PnlOf;
    forall k | 0 <= k < |ledger| / 2 ensures RecoversAt(ledger, k) {
      assert 2 * k % 2 == 0 && EntryRow(initial, ledger, 2 * k);
    }
  }

  lemma CalmWithExit(ledger: seq<Row>, more: seq<Row>, ratio: real)
    requires CalmEntries(ledger, ratio) && NoShortNotional(ledger)
    requires more == ledger ||
      (|more| == |ledger| + 1 && more[..|ledger|] == ledger && more[|ledger|].kind == Exit)
    ensures CalmEntries(more, ratio) && NoShortNotional(more)
  {
    forall j | 0 <= j < |more| && more[j].kind != Exit
      ensures more[j].price > 0.0 && more[j].atr <= ratio * more[j].price && more[j].notional >= 0.0
    {
      assert more[j] == ledger[j];
    }
  }

  /** Pairing recovers the profit of every run with parameters under which a trade cannot cost more than
      the balance, a balance that does not start negative, and a feed whose fills have positive prices
      and moderate ATRs. */
  lemma CalmFeedRecovers(cfg: Config, feed: Feed, initial: real, share: real, ratio: real)
    requires FloorConfig(cfg, share, ratio) && initial >= 0.0 && CalmFeed(cfg, feed, ratio)
    ensures var s := Replay(cfg, feed, initial);
      PnlTotal(ScanRows(s.ledger).pairs) - 2.0 * COMMISSION * NotionalTotal(s.ledger) == s.balance - initial
  {
    hide RunBars, FinalMark, Alternates, FloorConfig, CalmFeed, AllPriced, CalmEntries, NoShortNotional, ScanRows, PnlTotal,
         NotionalTotal, RecoversAt, PairExact, Floor, PositionOk;
    var n := if |feed.signal| == 0 then 0 else |feed.signal| - 1;
    var s := RunBars(cfg, feed, n, initial);
    FloorOfCalmFeed(cfg, feed, n, initial, share, ratio);
    EntriesArePriced(cfg, feed, n, initial);
    CalmFeedCalmEntries(cfg, feed, ratio, s.ledger);
    FinalMarkAddsAnExit(cfg, feed, s);
    var ledger := Replay(cfg, feed, initial).ledger;
    CalmWithExit(s.ledger, ledger, ratio);
    ReplayLedger(cfg, feed, initial);
    GuardsAgree(ledger, ratio, initial);
    RecoveryExact(cfg, feed, initial);
  }

  // ----- a run that is not recovered -----

  /** The sizing filter may scale by a negative factor. */
  const NEGATIVE := BASELINE.(live := false, sizing := (_, _, _, _) => Sizing(-1.0, true))

  const ROW := SignalRow(0, Some(1.0), Some(50.0), 100.0, Some(50.0), Some(60.0), None, Some(80.0), None, None,
                         None, None, None, None)

  const FEED := Feed([Second(0, 100.0, 100.0, 100.0)], [ROW, ROW.(time := 60000)], map[])

  /** One bar of one second: a breakout, an entry on a negative notional at 80.14005, and the final mark
      at 99.95. The balance books commissions only, the pair is credited with a loss. */
  lemma NegativeSizeIsMisread()
    ensures var s := Replay(NEGATIVE, FEED, 1000.0);
      && |s.ledger| == 2 && !RecoversAt(s.ledger, 0)
      && PnlTotal(ScanRows(s.ledger).pairs) - 2.0 * COMMISSION * NotionalTotal(s.ledger) != s.balance - 1000.0
  {
    var s0 := Initial(1000.0);
    assert StartOf(FEED, 0) == 0 && EndOf(FEED, 0) == 1 by { OneSecond(); }
    var s1 := StartBar(s0, 0);
    assert RunSeconds(NEGATIVE, FEED, 0, 0, 0, s1) == s1;
    assert RunSeconds(NEGATIVE, FEED, 0, 0, 1, s1) == StepSecond(NEGATIVE, FEED, 0, 0, 0, s1);
    var s2 := StepSecond(NEGATIVE, FEED, 0, 0, 0, s1);
    assert RunBars(NEGATIVE, FEED, 0, 1000.0) == s0;
    assert RunBars(NEGATIVE, FEED, 1, 1000.0) == RunBar(NEGATIVE, FEED, 0, s0) == s2;
    EntersNegative(s1);
    var s := Replay(NEGATIVE, FEED, 1000.0);
    assert s == FinalMark(NEGATIVE, FEED, s2);
    MisreadLedger(s);
  }

  lemma OneSecond()
    ensures StartOf(FEED, 0) == 0 && EndOf(FEED, 0) == 1
  {
    assert FEED.seconds[..0] == [];
  }

  /** The one second of the feed. */
  lemma EntersNegative(s: State)
    requires s == StartBar(Initial(1000.0), 0)
    ensures var t := StepSecond(NEGATIVE, FEED, 0, 0, 0, s);
      && t.position.Some? && t.position.value.side == Long && t.position.value.notional == -200.0
      && t.position.value.entryPrice == 80.14005
      && t.ledger == [t.ledger[0]] && t.ledger[0].kind == Buy && t.ledger[0].side == Long
      && t.ledger[0].price == 80.14005 && t.ledger[0].notional == -200.0 && t.ledger[0].balance == 1000.2
  {
    hide CalmFeed;
    var here := HereAt(NEGATIVE, FEED, 0, 0, 0, s);
    assert here.sig == Signal(ROW, 1.0, Some(50.0), 100.0);
    var s1 := Observe(NEGATIVE, FEED, s, here);
    assert RegimeReady(here.sig, Long);
    var s2 := TryLock(NEGATIVE, s1, here, Long);
    assert BreakoutOf(ROW, Long, 100.0, true) == Some(Breakout(60.0, ORIGINAL_T2));
    assert s2.zero == Window(Some(Long), ORIGINAL_T2, -1.0, "", 0, 0);
    var s3 := TryExternal(FEED, s2, here, Long);
    assert s3 == s2;
    assert ReentryPrice(here.sig, Long, 0.1) == Some(80.1);
    assert OrderNotional(NEGATIVE, 1000.0, s2.zero, 0) == -200.0;
  }

  lemma CreditedLoss(entry: Row)
    requires entry.kind == Buy && entry.price == 80.14005 && entry.notional == -200.0
    ensures PairPnl(entry, 99.95) < 0.0
  {
    var rate := (99.95 - 80.14005) / 80.14005;
    assert rate > 0.0;
    assert rate * -200.0 < 0.0;
  }

  lemma NotionalOfTwo(entry: Row, exit: Row)
    requires entry.kind != Exit && exit.kind == Exit
    ensures NotionalTotal([entry, exit]) == entry.notional
  {
    var one, two := [entry], [entry, exit];
    assert NotionalTotal(one[..0]) == 0.0;
    assert NotionalTotal(one) == NotionalTotal(one[..0]) + entry.notional;
    assert two[..1] == one;
    assert NotionalTotal(two) == NotionalTotal(two[..1]) + 0.0;
  }

  lemma PairOfTwo(entry: Row, exit: Row)
    requires entry.kind != Exit && exit.kind == Exit
    ensures PnlTotal(ScanRows([entry, exit]).pairs) == PairPnl(entry, exit.price)
  {
    hide PairPnl;
    assert [entry, exit][..1] == [entry] && [entry][..0] == [];
    assert ScanRows([entry]) == Scan([], Some(entry));
    var pair := Pair(entry.shape, entry.kind, entry.reason, exit.reason, PairPnl(entry, exit.price));
    assert ScanRows([entry, exit]).pairs == [pair];
    assert [pair][..0] == [];
  }

  lemma MisreadLedger(s: State)
    requires |s.ledger| == 2
    requires var entry, exit := s.ledger[0], s.ledger[1];
      && entry.kind == Buy && entry.side == Long && entry.price == 80.14005 && entry.notional == -200.0
      && exit.kind == Exit && exit.price == 99.95
    requires s.balance == 1000.4
    ensures !RecoversAt(s.ledger, 0)
    ensures PnlTotal(ScanRows(s.ledger).pairs) - 2.0 * COMMISSION * NotionalTotal(s.ledger) != s.balance - 1000.0
  {
    hide PairPnl, PnlTotal, ScanRows, NotionalTotal;
    var entry, exit := s.ledger[0], s.ledger[1];
    assert s.ledger == [entry, exit];
    CreditedLoss(entry);
    NotionalOfTwo(entry, exit);
    PairOfTwo(entry, exit);
  }
}
