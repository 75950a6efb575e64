/** Limits of a whole replay: entries per signal bar, their shares of the balance, and the cooldown
    between swing breakouts. */
module EngineLimits {
  import opened EngineLedger
  import opened Market
  import opened Options
  import opened SecondReplay

  // ----- what is counted -----

  /** The entries of one signal bar. */
  function EntriesIn(ledger: seq<Row>, bar: int): nat {
    if ledger == [] then 0
    else
      var last := ledger[|ledger| - 1];
      EntriesIn(ledger[..|ledger| - 1], bar) + if last.kind != Exit && last.bar == bar then 1 else 0
  }

  function Cap(cfg: Config): nat { if cfg.maxTradesPerBar < 0 then 0 else cfg.maxTradesPerBar }

  ghost predicate WithinCap(cfg: Config, ledger: seq<Row>) {
    forall bar :: EntriesIn(ledger, bar) <= Cap(cfg)
  }

  predicate Swing(lock: Lock) { lock.event.None? && lock.shape == T3_SWING }

  /** The engine's own swing breakouts keep their distance. */
  ghost predicate SwingsApart(cfg: Config, locks: seq<Lock>) {
    cfg.t3CooldownBars > 0 ==>
      forall j, k :: 0 <= j < k < |locks| && Swing(locks[j]) && Swing(locks[k]) ==>
        locks[k].bar - locks[j].bar > cfg.t3CooldownBars
  }

  /** What an order takes of a balance. */
  function Taken(balance: real, share: real, multiplier: real): real { balance * (share * multiplier) }

  /** The entry at `j` takes the share that its shape's schedule has for the bar's trades so far, scaled
      by its multiplier, of the balance before it. */
  ghost predicate Sized(cfg: Config, initial: real, ledger: seq<Row>, j: nat)
    requires j < |ledger|
  {
    var row := ledger[j];
    row.notional == Taken(BalanceBefore(initial, ledger, j), OrderShare(cfg, row.shape, EntriesIn(ledger[..j], row.bar)),
                          row.sizeMultiplier)
  }

  ghost predicate AllSized(cfg: Config, initial: real, ledger: seq<Row>) {
    forall j :: 0 <= j < |ledger| && ledger[j].kind != Exit ==> Sized(cfg, initial, ledger, j)
  }

  // ----- the invariant -----

  ghost predicate LimitsOk(cfg: Config, initial: real, s: State) {
    && WithinCap(cfg, s.ledger)
    && AllSized(cfg, initial, s.ledger)
    && s.balance == BalanceBefore(initial, s.ledger, |s.ledger|)
    && SwingsApart(cfg, s.locks)
    && (forall k :: 0 <= k < |s.locks| && Swing(s.locks[k]) ==> s.locks[k].bar <= s.lastT3Lock || cfg.t3CooldownBars <= 0)
  }

  ghost predicate RowsBefore(ledger: seq<Row>, bar: int) {
    forall j :: 0 <= j < |ledger| ==> ledger[j].bar < bar
  }

  ghost predicate BetweenBars(cfg: Config, initial: real, s: State, i: int) {
    LimitsOk(cfg, initial, s) && RowsBefore(s.ledger, i)
  }

  ghost predicate InsideBar(cfg: Config, initial: real, s: State, i: int) {
    LimitsOk(cfg, initial, s) && RowsBefore(s.ledger, i + 1) && EntriesIn(s.ledger, i) == s.tradesInBar
  }

  lemma EntriesSnoc(ledger: seq<Row>, row: Row, bar: int)
    ensures EntriesIn(ledger + [row], bar) == EntriesIn(ledger, bar) + (if row.kind != Exit && row.bar == bar then 1 else 0)
  {
    assert (ledger + [row])[..|ledger|] == ledger;
  }

  lemma {:induction false} NoneYet(ledger: seq<Row>, bar: int)
    requires RowsBefore(ledger, bar)
    ensures EntriesIn(ledger, bar) == 0
  {
    if ledger != [] {
      NoneYet(ledger[..|ledger| - 1], bar);
    }
  }

  lemma CapSnoc(cfg: Config, ledger: seq<Row>, row: Row)
    requires WithinCap(cfg, ledger)
    requires row.kind != Exit ==> EntriesIn(ledger, row.bar) < Cap(cfg)
    ensures WithinCap(cfg, ledger + [row])
  {
    hide EntriesIn;
    forall bar ensures EntriesIn(ledger + [row], bar) <= Cap(cfg) {
      EntriesSnoc(ledger, row, bar);
    }
  }

  lemma SizedSnoc(cfg: Config, initial: real, ledger: seq<Row>, row: Row)
    requires AllSized(cfg, initial, ledger)
    requires row.kind != Exit ==>
      row.notional == Taken(BalanceBefore(initial, ledger, |ledger|), OrderShare(cfg, row.shape, EntriesIn(ledger, row.bar)),
                            row.sizeMultiplier)
    ensures AllSized(cfg, initial, ledger + [row])
  {
    hide EntriesIn, OrderShare, Taken;
    var more := ledger + [row];
    forall j | 0 <= j < |more| && more[j].kind != Exit ensures Sized(cfg, initial, more, j) {
      assert more[..j] == ledger[..j];
      if j < |ledger| {
        assert Sized(cfg, initial, ledger, j);
      } else {
        assert ledger[..j] == ledger;
      }
    }
  }

  // ----- the steps -----

  lemma LockKeeps(cfg: Config, initial: real, s: State, here: Here, side: Side)
    requires InsideBar(cfg, initial, s, here.bar)
    ensures InsideBar(cfg, initial, TryLock(cfg, s, here, side), here.bar)
  {
    hide BreakoutOf, WithinCap, AllSized, EntriesIn, RowsBefore;
  }

  lemma ExternalKeeps(cfg: Config, initial: real, feed: Feed, s: State, here: Here, side: Side)
    requires InsideBar(cfg, initial, s, here.bar)
    ensures InsideBar(cfg, initial, TryExternal(feed, s, here, side), here.bar)
  {
    hide EventReady, EventsOf, WithinCap, AllSized, EntriesIn, RowsBefore;
  }

  lemma RowsSnoc(ledger: seq<Row>, row: Row, bar: int)
    requires RowsBefore(ledger, bar + 1) && row.bar == bar
    ensures RowsBefore(ledger + [row], bar + 1)
  {}

  lemma OpenKeeps(cfg: Config, initial: real, s: State, here: Here, side: Side, raw: real, reason: Reason, w: Window)
    requires InsideBar(cfg, initial, s, here.bar) && s.tradesInBar < cfg.maxTradesPerBar
    ensures InsideBar(cfg, initial, OpenPosition(cfg, s, here, side, raw, reason, w), here.bar)
  {
    hide WithinCap, AllSized, EntriesIn, RowsBefore, SwingsApart, OrderNotional, OrderShare, Taken, EntryPrice, AtrStop;
    var t := OpenPosition(cfg, s, here, side, raw, reason, w);
    var row := t.ledger[|s.ledger|];
    CapSnoc(cfg, s.ledger, row);
    EntriesSnoc(s.ledger, row, here.bar);
    NotionalOf(cfg, s.balance, w, s.tradesInBar);
    SizedSnoc(cfg, initial, s.ledger, row);
    RowsSnoc(s.ledger, row, here.bar);
  }

  lemma NotionalOf(cfg: Config, balance: real, w: Window, tradesInBar: nat)
    ensures OrderNotional(cfg, balance, w, tradesInBar) == Taken(balance, OrderShare(cfg, w.shape, tradesInBar), w.multiplier)
  {}

  /** Closing windows keeps the limits. */
  lemma ClosingKeeps(cfg: Config, initial: real, s: State, t: State, i: int)
    requires InsideBar(cfg, initial, s, i)
    requires t.ledger == s.ledger && t.balance == s.balance && t.locks == s.locks && t.lastT3Lock == s.lastT3Lock && t.tradesInBar == s.tradesInBar
    ensures InsideBar(cfg, initial, t, i)
  {
    hide WithinCap, AllSized, EntriesIn, RowsBefore, SwingsApart;
  }

  lemma FillKeeps(cfg: Config, initial: real, s: State, here: Here, side: Side)
    requires InsideBar(cfg, initial, s, here.bar)
    ensures InsideBar(cfg, initial, TryFill(cfg, s, here, side), here.bar)
  {
    hide InsideBar, ReentryPrice, FillTriggered, OrderNotional, EntryPrice, AtrStop;
    var afterExit, afterLock := WindowOpen(s.exit, side, here.bar), WindowOpen(s.zero, side, here.bar);
    var w := if afterExit then s.exit else s.zero;
    var price := ReentryPrice(here.sig, side, ReentryAtr(cfg, side));
    var t := TryFill(cfg, s, here, side);
    if t == s {
    } else if s.tradesInBar < cfg.maxTradesPerBar {
      FillHasPrice(cfg, here, side, price, w.second);
      var reason := if !afterExit then ZeroInitialReentry else if s.exitReason == SL then SLReentry else PTReentry;
      OpenKeeps(cfg, initial, s, here, side, price.value, reason, w);
      ClosingKeeps(cfg, initial, OpenPosition(cfg, s, here, side, price.value, reason, w), t, here.bar);
    } else {
      ClosingKeeps(cfg, initial, s, t, here.bar);
    }
  }

  lemma FlatKeeps(cfg: Config, initial: real, feed: Feed, s: State, here: Here, side: Side)
    requires InsideBar(cfg, initial, s, here.bar)
    ensures InsideBar(cfg, initial, FlatStep(cfg, feed, s, here, side), here.bar)
  {
    hide InsideBar, TryLock, TryExternal, TryFill;
    LockKeeps(cfg, initial, s, here, side);
    ExternalKeeps(cfg, initial, feed, TryLock(cfg, s, here, side), here, side);
    FillKeeps(cfg, initial, TryExternal(feed, TryLock(cfg, s, here, side), here, side), here, side);
  }

  lemma HoldKeeps(cfg: Config, initial: real, s: State, here: Here, p: Position)
    requires InsideBar(cfg, initial, s, here.bar) && s.position == Some(p)
    ensures InsideBar(cfg, initial, HoldStep(cfg, s, here, p), here.bar)
  {
    hide WithinCap, AllSized, EntriesIn, RowsBefore, SwingsApart, PreCheck, PostCheck, ExitTrigger, ExitPrice, Pnl,
         TrailAllowed;
    var t := HoldStep(cfg, s, here, p);
    if t.position.None? {
      var row := t.ledger[|s.ledger|];
      CapSnoc(cfg, s.ledger, row);
      EntriesSnoc(s.ledger, row, here.bar);
      SizedSnoc(cfg, initial, s.ledger, row);
      RowsSnoc(s.ledger, row, here.bar);
    }
  }

  lemma StepKeeps(cfg: Config, initial: real, feed: Feed, i: nat, start: nat, pos: nat, s: State)
    requires i < |feed.signal| && pos < |feed.seconds| && feed.signal[i].atr.Some?
    requires InsideBar(cfg, initial, s, i)
    ensures InsideBar(cfg, initial, StepSecond(cfg, feed, i, start, pos, s), i)
  {
    hide InsideBar, FlatStep, HoldStep, SideReady, Forced, Higher, Lower;
    var here := HereAt(cfg, feed, i, start, pos, s);
    var s1 := Observe(cfg, feed, s, here);
    ClosingKeeps(cfg, initial, s, s1, i);
    if s1.position.Some? {
      HoldKeeps(cfg, initial, s1, here, s1.position.value);
    } else {
      FlatKeeps(cfg, initial, feed, s1, here, Long);
      FlatKeeps(cfg, initial, feed, s1, here, Short);
    }
  }

  lemma BarsApart(cfg: Config, initial: real, s: State, i: nat)
    ensures BetweenBars(cfg, initial, s, i) ==> BetweenBars(cfg, initial, s, i + 1) && InsideBar(cfg, initial, StartBar(s, i), i)
    ensures InsideBar(cfg, initial, s, i) ==> BetweenBars(cfg, initial, s, i + 1)
  {
    hide WithinCap, AllSized, EntriesIn, SwingsApart;
    if BetweenBars(cfg, initial, s, i) {
      NoneYet(s.ledger, i);
    }
  }

  lemma LimitsKept(cfg: Config, feed: Feed, initial: real)
    ensures PhasesKept(cfg, feed, (s, i) => BetweenBars(cfg, initial, s, i), (s, i) => InsideBar(cfg, initial, s, i), initial)
  {
    hide BetweenBars, InsideBar, StepSecond, StartBar;
    InitialLimits(cfg, initial);
    forall s, i: nat | BetweenBars(cfg, initial, s, i)
      ensures BetweenBars(cfg, initial, s, i + 1) && InsideBar(cfg, initial, StartBar(s, i), i)
    {
      BarsApart(cfg, initial, s, i);
    }
    forall s, i: nat | InsideBar(cfg, initial, s, i) ensures BetweenBars(cfg, initial, s, i + 1) {
      BarsApart(cfg, initial, s, i);
    }
    forall s, i: nat, start: nat, pos: nat
      | i < |feed.signal| && start <= pos < |feed.seconds| && feed.signal[i].atr.Some? && InsideBar(cfg, initial, s, i)
      ensures InsideBar(cfg, initial, StepSecond(cfg, feed, i, start, pos, s), i)
    {
      StepKeeps(cfg, initial, feed, i, start, pos, s);
    }
  }

  lemma InitialLimits(cfg: Config, initial: real)
    ensures BetweenBars(cfg, initial, Initial(initial), 0)
  {}

  /** In a whole replay no signal bar has more entries than allowed, the engine's own swing breakouts are
      more than the cooldown apart, and every entry takes its share of the balance. */
  lemma ReplayLimits(cfg: Config, feed: Feed, initial: real)
    ensures var s := Replay(cfg, feed, initial);
      && (forall bar :: EntriesIn(s.ledger, bar) <= Cap(cfg))
      && SwingsApart(cfg, s.locks)
      && AllSized(cfg, initial, s.ledger)
  {
    hide RunBars, PhasesKept, AllSized, EntriesIn, SwingsApart, ExitPrice, Pnl, RowsBefore;
    var n := if |feed.signal| == 0 then 0 else |feed.signal| - 1;
    LimitsKept(cfg, feed, initial);
    PhasesKeep(cfg, feed, (s, i) => BetweenBars(cfg, initial, s, i), (s, i) => InsideBar(cfg, initial, s, i), initial, n);
    var s, t := RunBars(cfg, feed, n, initial), Replay(cfg, feed, initial);
    if t != s {
      CapSnoc(cfg, s.ledger, t.ledger[|s.ledger|]);
      EntriesSnoc(s.ledger, t.ledger[|s.ledger|], 0);
      SizedSnoc(cfg, initial, s.ledger, t.ledger[|s.ledger|]);
    }
  }
}
