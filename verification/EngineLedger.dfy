/** The ledger of a replay: entries and exits alternate, each balance follows from the one before,
    and pairing the rows afterwards recovers the profit. */
module EngineLedger {
  import opened Market
  import opened Options
  import opened SecondReplay

  // ----- alternation -----

  function KindOf(side: Side): RowKind { if side == Long then Buy else Sell }

  function BalanceBefore(initial: real, ledger: seq<Row>, j: nat): real
    requires j <= |ledger|
  {
    if j == 0 then initial else ledger[j - 1].balance
  }

  /** An entry row pays commission on its notional. */
  ghost predicate EntryRow(initial: real, ledger: seq<Row>, j: nat)
    requires j < |ledger|
  {
    var row := ledger[j];
    && row.kind == KindOf(row.side)
    && row.reason in {ZeroInitialReentry, SLReentry, PTReentry}
    && row.balance == BalanceBefore(initial, ledger, j) - row.notional * COMMISSION
  }

  /** An exit row closes the entry just before it, books its profit and pays commission. */
  ghost predicate ExitRow(initial: real, ledger: seq<Row>, j: nat)
    requires 0 < j < |ledger|
  {
    var row, entry := ledger[j], ledger[j - 1];
    && row.kind == Exit
    && row.reason in {SL, PT, T3TimeCap, FinalMarkToMarket}
    && row.side == entry.side && row.notional == entry.notional && row.shape == entry.shape
    && row.balance == entry.balance + PnlOf(entry.side, entry.price, entry.notional, row.price)
         - row.notional * COMMISSION
  }

  ghost predicate Alternates(initial: real, ledger: seq<Row>) {
    forall j :: 0 <= j < |ledger| ==>
      if j % 2 == 0 then EntryRow(initial, ledger, j) else ExitRow(initial, ledger, j)
  }

  /** The open position is the one of the last row. */
  ghost predicate OpenedBy(p: Position, row: Row) {
    p.side == row.side && p.entryPrice == row.price && p.notional == row.notional && p.shape == row.shape
  }

  ghost predicate LedgerOk(initial: real, s: State) {
    && Alternates(initial, s.ledger)
    && s.balance == BalanceBefore(initial, s.ledger, |s.ledger|)
    && (s.position.Some? <==> |s.ledger| % 2 == 1)
    && (s.position.Some? ==> OpenedBy(s.position.value, s.ledger[|s.ledger| - 1]))
  }

  lemma AppendEntry(initial: real, ledger: seq<Row>, row: Row)
    requires Alternates(initial, ledger) && |ledger| % 2 == 0
    requires row.kind == KindOf(row.side) && row.reason in {ZeroInitialReentry, SLReentry, PTReentry}
    requires row.balance == BalanceBefore(initial, ledger, |ledger|) - row.notional * COMMISSION
    ensures Alternates(initial, ledger + [row])
  {
    hide PnlOf;
    var more := ledger + [row];
    forall j | 0 <= j < |more|
      ensures if j % 2 == 0 then EntryRow(initial, more, j) else ExitRow(initial, more, j)
    {
      if j < |ledger| {
        assert if j % 2 == 0 then EntryRow(initial, ledger, j) else ExitRow(initial, ledger, j);
      }
    }
  }

  lemma AppendExit(initial: real, ledger: seq<Row>, row: Row)
    requires Alternates(initial, ledger) && |ledger| % 2 == 1
    requires row.kind == Exit && row.reason in {SL, PT, T3TimeCap, FinalMarkToMarket}
    requires var entry := ledger[|ledger| - 1];
      && row.side == entry.side && row.notional == entry.notional && row.shape == entry.shape
      && row.balance == entry.balance + PnlOf(entry.side, entry.price, entry.notional, row.price)
           - row.notional * COMMISSION
    ensures Alternates(initial, ledger + [row])
  {
    hide PnlOf;
    var more := ledger + [row];
    forall j | 0 <= j < |more|
      ensures if j % 2 == 0 then EntryRow(initial, more, j) else ExitRow(initial, more, j)
    {
      if j < |ledger| {
        assert if j % 2 == 0 then EntryRow(initial, ledger, j) else ExitRow(initial, ledger, j);
      }
    }
  }

  lemma OpenKeepsLedger(cfg: Config, s: State, here: Here, side: Side, raw: real, reason: Reason, w: Window, initial: real)
    requires LedgerOk(initial, s) && s.position.None? && reason in {ZeroInitialReentry, SLReentry, PTReentry}
    ensures LedgerOk(initial, OpenPosition(cfg, s, here, side, raw, reason, w))
  {
    hide Alternates, AtrStop, EntryPrice, OrderShare;
    var s1 := OpenPosition(cfg, s, here, side, raw, reason, w);
    AppendEntry(initial, s.ledger, s1.ledger[|s.ledger|]);
  }

  lemma CloseKeepsLedger(cfg: Config, s: State, p: Position, raw: real, reason: Reason, time: int, bar: int, pos: int, initial: real)
    requires LedgerOk(initial, s) && s.position.Some? && OpenedBy(p, s.ledger[|s.ledger| - 1])
    requires reason in {SL, PT, T3TimeCap, FinalMarkToMarket}
    ensures LedgerOk(initial, CloseAt(cfg, s, p, raw, reason, time, bar, pos))
  {
    hide Alternates, ExitPrice, PnlOf;
    var s1 := CloseAt(cfg, s, p, raw, reason, time, bar, pos);
    AppendExit(initial, s.ledger, s1.ledger[|s.ledger|]);
  }

  lemma FillKeepsLedger(cfg: Config, s: State, here: Here, side: Side, initial: real)
    requires LedgerOk(initial, s) && s.position.None?
    ensures LedgerOk(initial, TryFill(cfg, s, here, side))
  {
    hide LedgerOk, OpenPosition, FillTriggered;
    forall raw: real, reason, w: Window | reason in {ZeroInitialReentry, SLReentry, PTReentry}
      ensures LedgerOk(initial, OpenPosition(cfg, s, here, side, raw, reason, w))
    {
      OpenKeepsLedger(cfg, s, here, side, raw, reason, w, initial);
    }
    WindowsDoNotMatter(initial);
  }

  /** The ledger invariant looks at balance, position and ledger only. */
  ghost predicate SameBooks(s: State, t: State) {
    s.balance == t.balance && s.position == t.position && s.ledger == t.ledger
  }

  lemma WindowsDoNotMatter(initial: real)
    ensures forall s: State, t: State :: SameBooks(s, t) && LedgerOk(initial, s) ==> LedgerOk(initial, t)
  {
    hide Alternates;
  }

  lemma LocksKeepBooks(cfg: Config, feed: Feed, s: State, here: Here, side: Side)
    ensures SameBooks(s, TryExternal(feed, TryLock(cfg, s, here, side), here, side))
  {
    hide BreakoutOf, EventReady, LockAllowed;
  }

  lemma FlatKeepsLedger(cfg: Config, feed: Feed, s: State, here: Here, side: Side, initial: real)
    requires LedgerOk(initial, s) && s.position.None?
    ensures LedgerOk(initial, FlatStep(cfg, feed, s, here, side))
  {
    hide TryExternal, TryLock, TryFill, LedgerOk;
    var s1 := TryExternal(feed, TryLock(cfg, s, here, side), here, side);
    LocksKeepBooks(cfg, feed, s, here, side);
    WindowsDoNotMatter(initial);
    FillKeepsLedger(cfg, s1, here, side, initial);
  }

  lemma TriggerReasons(cfg: Config, here: Here, p: Position)
    ensures var trigger := ExitTrigger(cfg, here, p); trigger.Some? ==> trigger.value.1 in {SL, PT, T3TimeCap}
  {}

  lemma HoldKeepsLedger(cfg: Config, s: State, here: Here, initial: real)
    requires LedgerOk(initial, s) && s.position.Some?
    ensures LedgerOk(initial, HoldStep(cfg, s, here, s.position.value))
  {
    hide Alternates, ExitTrigger, CloseAt, TrailedAt, NoWorse;
    var p1 := PreCheck(cfg, here, s.position.value);
    var trigger := ExitTrigger(cfg, here, p1);
    if trigger.Some? {
      TriggerReasons(cfg, here, p1);
      CloseKeepsLedger(cfg, s, p1, trigger.value.0, trigger.value.1, here.second.time, here.bar, here.pos, initial);
      WindowsDoNotMatter(initial);
    }
  }

  lemma StepKeepsLedger(cfg: Config, feed: Feed, i: nat, start: nat, pos: nat, s: State, initial: real)
    requires i < |feed.signal| && pos < |feed.seconds| && feed.signal[i].atr.Some?
    requires LedgerOk(initial, s)
    ensures LedgerOk(initial, StepSecond(cfg, feed, i, start, pos, s))
  {
    hide LedgerOk, FlatStep, HoldStep, SideReady, SignalAt, Forced, Higher, Lower;
    var here := HereAt(cfg, feed, i, start, pos, s);
    var s1 := Observe(cfg, feed, s, here);
    WindowsDoNotMatter(initial);
    assert SameBooks(s, s1);
    if s1.position.Some? {
      HoldKeepsLedger(cfg, s1, here, initial);
    } else {
      FlatKeepsLedger(cfg, feed, s1, here, Long, initial);
      FlatKeepsLedger(cfg, feed, s1, here, Short, initial);
    }
  }

  lemma LedgerKept(cfg: Config, feed: Feed, initial: real)
    ensures Kept(cfg, feed, (s, i) => LedgerOk(initial, s), initial)
  {
    hide LedgerOk, StepSecond;
    InitialLedger(initial);
    WindowsDoNotMatter(initial);
    forall s, i: nat | LedgerOk(initial, s) ensures LedgerOk(initial, StartBar(s, i)) {
      assert SameBooks(s, StartBar(s, i));
    }
    forall s, i: nat, start: nat, pos: nat
      | i < |feed.signal| && start <= pos < |feed.seconds| && feed.signal[i].atr.Some? && LedgerOk(initial, s)
      ensures LedgerOk(initial, StepSecond(cfg, feed, i, start, pos, s))
    {
      StepKeepsLedger(cfg, feed, i, start, pos, s, initial);
    }
  }

  lemma InitialLedger(initial: real)
    ensures LedgerOk(initial, Initial(initial))
  {}

  /** After every number of bars the ledger alternates and explains the balance. */
  lemma LedgerOfBars(cfg: Config, feed: Feed, n: nat, initial: real)
    requires n == 0 || n < |feed.signal|
    ensures LedgerOk(initial, RunBars(cfg, feed, n, initial))
  {
    hide LedgerOk, RunBars, Kept;
    LedgerKept(cfg, feed, initial);
    BarsKeep(cfg, feed, (s, i) => LedgerOk(initial, s), initial, n);
  }

  /** The ledger of a whole replay alternates entry and exit of the same position, ends with an exit
      and no position, and its last balance is the final one. */
  lemma ReplayLedger(cfg: Config, feed: Feed, initial: real)
    ensures var s := Replay(cfg, feed, initial);
      && LedgerOk(initial, s)
      && s.position.None? && |s.ledger| % 2 == 0
  {
    hide LedgerOk, RunBars, CloseAt;
    var n := if |feed.signal| == 0 then 0 else |feed.signal| - 1;
    LedgerOfBars(cfg, feed, n, initial);
    var s := RunBars(cfg, feed, n, initial);
    if s.position.Some? && feed.seconds != [] {
      var last := feed.seconds[|feed.seconds| - 1];
      PositionOpened(initial, s);
      CloseKeepsLedger(cfg, s, s.position.value, last.close, FinalMarkToMarket, last.time,
                       |feed.signal|, |feed.seconds|, initial);
      CloseIsFlat(cfg, s, s.position.value, last.close, FinalMarkToMarket, last.time, |feed.signal|, |feed.seconds|);
    }
    if feed.seconds == [] {
      NoSecondsNoTrades(cfg, feed, n, initial);
    }
    FlatIsEven(initial, Replay(cfg, feed, initial));
  }

  lemma {:induction false} NoSecondsNoTrades(cfg: Config, feed: Feed, n: nat, initial: real)
    requires feed.seconds == [] && (n == 0 || n < |feed.signal|)
    ensures RunBars(cfg, feed, n, initial) == Initial(initial)
  {
    hide Initial;
    if n > 0 {
      NoSecondsNoTrades(cfg, feed, n - 1, initial);
    }
  }

  lemma PositionOpened(initial: real, s: State)
    requires LedgerOk(initial, s) && s.position.Some?
    ensures |s.ledger| > 0 && OpenedBy(s.position.value, s.ledger[|s.ledger| - 1])
  {}

  lemma CloseIsFlat(cfg: Config, s: State, p: Position, raw: real, reason: Reason, time: int, bar: int, pos: int)
    ensures CloseAt(cfg, s, p, raw, reason, time, bar, pos).position.None?
  {}

  lemma FlatIsEven(initial: real, s: State)
    requires LedgerOk(initial, s)
    ensures s.position.None? ==> |s.ledger| % 2 == 0
  {}
}
