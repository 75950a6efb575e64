/** What the entries of a run are priced at: the re-entry price of their second, which the feed alone
    determines. */
module EngineEntries {
  import opened EngineFloor
  import opened EngineLedger
  import opened FeedView
  import opened Market
  import opened Options
  import opened SecondReplay
  import opened Steps

  // ----- one entry -----

  /** The re-entry price of a side at a step, and whether a fill there would be triggered by it. */
  function PriceAt(cfg: Config, feed: Feed, step: Step, side: Side): Option<real>
    requires IsStep(feed, step)
  {
    ReentryPrice(HereOf(cfg, feed, step).sig, side, ReentryAtr(cfg, side))
  }

  predicate FillsAt(cfg: Config, feed: Feed, step: Step, side: Side)
    requires IsStep(feed, step)
  {
    FillTriggered(cfg, HereOf(cfg, feed, step), side, PriceAt(cfg, feed, step, side), -1)
  }

  /** An entry row is that of a step whose second triggers the fill: its price is the step's re-entry
      price with slippage, its ATR and time are the step's. */
  ghost predicate Priced(cfg: Config, feed: Feed, row: Row) {
    0 <= row.bar && 0 <= row.second &&
    var step := Step(row.bar, row.second);
    IsStep(feed, step) && FillsAt(cfg, feed, step, row.side) &&
    var here, price := HereOf(cfg, feed, step), PriceAt(cfg, feed, step, row.side);
    && price.Some? && row.price == EntryPrice(row.side, price.value, cfg.slippage)
    && row.atr == here.sig.atr && row.time == here.second.time && row.kind == KindOf(row.side)
  }

  ghost predicate AllPriced(cfg: Config, feed: Feed, ledger: seq<Row>) {
    forall j :: 0 <= j < |ledger| && ledger[j].kind != Exit ==> Priced(cfg, feed, ledger[j])
  }

  ghost predicate PricesOk(cfg: Config, feed: Feed, s: State) { AllPriced(cfg, feed, s.ledger) }

  // ----- the steps -----

  lemma TriggeredAnyway(cfg: Config, here: Here, side: Side, price: Option<real>, triggerSecond: int)
    requires FillTriggered(cfg, here, side, price, triggerSecond)
    ensures FillTriggered(cfg, here, side, price, -1) && price.Some?
  {}

  lemma OpenIsPriced(cfg: Config, feed: Feed, s: State, step: Step, side: Side, reason: Reason, w: Window)
    requires IsStep(feed, step) && FillsAt(cfg, feed, step, side) && PriceAt(cfg, feed, step, side).Some?
    requires AllPriced(cfg, feed, s.ledger)
    ensures AllPriced(cfg, feed,
      OpenPosition(cfg, s, HereOf(cfg, feed, step), side, PriceAt(cfg, feed, step, side).value, reason, w).ledger)
  {
    hide AtrStop, OrderNotional, EntryPrice, FillsAt, PriceAt, SignalAt, IsStep;
  }

  lemma FillIsPriced(cfg: Config, feed: Feed, s: State, step: Step, side: Side)
    requires IsStep(feed, step) && AllPriced(cfg, feed, s.ledger)
    ensures AllPriced(cfg, feed, TryFill(cfg, s, HereOf(cfg, feed, step), side).ledger)
  {
    hide OpenPosition, FillTriggered, ReentryPrice, HereOf, IsStep, AllPriced;
    var here, price := HereOf(cfg, feed, step), PriceAt(cfg, feed, step, side);
    var afterExit := WindowOpen(s.exit, side, step.bar);
    var w := if afterExit then s.exit else s.zero;
    BarOfHere(cfg, feed, step);
    if FillTriggered(cfg, here, side, price, w.second) {
      TriggeredAnyway(cfg, here, side, price, w.second);
      forall reason, v: Window
        ensures AllPriced(cfg, feed, OpenPosition(cfg, s, here, side, price.value, reason, v).ledger)
      {
        OpenIsPriced(cfg, feed, s, step, side, reason, v);
      }
    }
  }

  lemma BarOfHere(cfg: Config, feed: Feed, step: Step)
    requires IsStep(feed, step)
    ensures HereOf(cfg, feed, step).bar == step.bar && HereOf(cfg, feed, step).pos == step.second
  {
    hide SignalAt;
  }

  lemma FlatIsPriced(cfg: Config, feed: Feed, s: State, step: Step, side: Side)
    requires IsStep(feed, step) && AllPriced(cfg, feed, s.ledger)
    ensures AllPriced(cfg, feed, FlatStep(cfg, feed, s, HereOf(cfg, feed, step), side).ledger)
  {
    hide TryLock, TryExternal, TryFill, HereOf, IsStep, AllPriced;
    var here := HereOf(cfg, feed, step);
    LocksKeepBooks(cfg, feed, s, here, side);
    FillIsPriced(cfg, feed, TryExternal(feed, TryLock(cfg, s, here, side), here, side), step, side);
  }

  lemma HoldIsPriced(cfg: Config, feed: Feed, s: State, here: Here, p: Position)
    requires AllPriced(cfg, feed, s.ledger)
    ensures AllPriced(cfg, feed, HoldStep(cfg, s, here, p).ledger)
  {
    hide PreCheck, PostCheck, ExitTrigger, ExitPrice, Pnl, TrailAllowed, Priced;
  }

  lemma StepIsPriced(cfg: Config, feed: Feed, i: nat, pos: nat, s: State)
    requires IsStep(feed, Step(i, pos)) && AllPriced(cfg, feed, s.ledger) && SeesFeed(cfg, feed, i, pos, s)
    ensures AllPriced(cfg, feed, StepSecond(cfg, feed, i, StartOf(feed, i), pos, s).ledger)
  {
    hide FlatStep, HoldStep, SideReady, Forced, Higher, Lower, HereOf, HereAt, AllPriced, StartOf, EndOf;
    var here := HereOf(cfg, feed, Step(i, pos));
    var s1 := Observe(cfg, feed, s, here);
    if s1.position.Some? {
      HoldIsPriced(cfg, feed, s1, here, s1.position.value);
    } else {
      FlatIsPriced(cfg, feed, s1, Step(i, pos), Long);
      FlatIsPriced(cfg, feed, s1, Step(i, pos), Short);
    }
  }

  lemma PricesKept(cfg: Config, feed: Feed, initial: real)
    ensures RunKept(cfg, feed, (s, i) => PricesOk(cfg, feed, s), (s, i, pos) => PricesOk(cfg, feed, s), initial)
  {
    hide AllPriced, StepSecond, StartOf, EndOf, HereAt, HereOf;
    NothingPriced(cfg, feed);
    forall s, i: nat, pos: nat
      | IsStep(feed, Step(i, pos)) && PricesOk(cfg, feed, s) && SeesFeed(cfg, feed, i, pos, s)
      ensures PricesOk(cfg, feed, StepSecond(cfg, feed, i, StartOf(feed, i), pos, s))
    {
      StepIsPriced(cfg, feed, i, pos, s);
    }
  }

  lemma NothingPriced(cfg: Config, feed: Feed)
    ensures AllPriced(cfg, feed, [])
  {}

  /** After every number of bars, every entry is at the re-entry price of a second that triggers it,
      with the ATR of that second; both are functions of feed and parameters alone. */
  lemma EntriesArePriced(cfg: Config, feed: Feed, n: nat, initial: real)
    requires n == 0 || n < |feed.signal|
    ensures AllPriced(cfg, feed, RunBars(cfg, feed, n, initial).ledger)
  {
    hide RunKept, AllPriced, RunBars;
    PricesKept(cfg, feed, initial);
    KeptBars(cfg, feed, (s, i) => PricesOk(cfg, feed, s), (s, i, pos) => PricesOk(cfg, feed, s), initial, n);
  }

  // ----- a calm feed -----

  /** Wherever a fill could be triggered, its price is positive and the ATR at most `ratio` of it: what
      can be told of feed and parameters before a run. */
  ghost predicate CalmFeed(cfg: Config, feed: Feed, ratio: real) {
    forall step, side :: IsStep(feed, step) && FillsAt(cfg, feed, step, side) ==> CalmAt(cfg, feed, step, side, ratio)
  }

  ghost predicate CalmAt(cfg: Config, feed: Feed, step: Step, side: Side, ratio: real)
    requires IsStep(feed, step)
  {
    PriceAt(cfg, feed, step, side).Some? ==>
      var price := EntryPrice(side, PriceAt(cfg, feed, step, side).value, cfg.slippage);
      price > 0.0 && HereOf(cfg, feed, step).sig.atr <= ratio * price
  }

  lemma CalmFeedCalmEntries(cfg: Config, feed: Feed, ratio: real, ledger: seq<Row>)
    requires CalmFeed(cfg, feed, ratio) && AllPriced(cfg, feed, ledger)
    ensures CalmEntries(ledger, ratio)
  {
    hide FillsAt, PriceAt, EntryPrice, IsStep, HereOf;
    forall j | 0 <= j < |ledger| && ledger[j].kind != Exit
      ensures ledger[j].price > 0.0 && ledger[j].atr <= ratio * ledger[j].price
    {
      var row := ledger[j];
      assert Priced(cfg, feed, row);
      assert CalmAt(cfg, feed, Step(row.bar, row.second), row.side, ratio);
    }
  }

  /** The floor under the balance, from what is known before the run. */
  lemma FloorOfCalmFeed(cfg: Config, feed: Feed, bars: nat, initial: real, share: real, ratio: real)
    requires FloorConfig(cfg, share, ratio) && initial >= 0.0 && CalmFeed(cfg, feed, ratio)
    requires bars == 0 || bars < |feed.signal|
    ensures FloorHolds(cfg, initial, share, ratio, RunBars(cfg, feed, bars, initial))
  {
    hide RunBars, FloorConfig, CalmEntries, CalmFeed, AllPriced, FloorHolds, Kept;
    EntriesArePriced(cfg, feed, bars, initial);
    CalmFeedCalmEntries(cfg, feed, ratio, RunBars(cfg, feed, bars, initial).ledger);
    FloorKept(cfg, feed, initial, share, ratio);
    BarsKeep(cfg, feed, (s, i) => FloorOk(cfg, initial, share, ratio, s), initial, bars);
  }
}
