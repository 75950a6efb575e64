/** The books of the one-minute engine over a whole run: its trades alternate and explain the balance,
    every entry follows an exit or a breakout of its side, takes its share, and stays within the limits. */
module EnhancedBooks {
  import L = EngineLedger
  import opened EnhancedReplay
  import opened Market
  import opened Options
  import S = SecondReplay
  import opened Steps

  // ----- trades -----

  /** The ledger without the breaker's rows. */
  function Trades(ledger: seq<Row>): (trades: seq<Row>)
    ensures forall j :: 0 <= j < |trades| ==> trades[j].Trade?
  {
    if ledger == [] then []
    else
      var last := ledger[|ledger| - 1];
      Trades(ledger[..|ledger| - 1]) + if last.Trade? then [last] else []
  }

  lemma TradesSnoc(ledger: seq<Row>, row: Row)
    ensures Trades(ledger + [row]) == Trades(ledger) + if row.Trade? then [row] else []
  {
    assert (ledger + [row])[..|ledger|] == ledger;
  }

  predicate IsClose(row: Row) { row.Trade? && row.kind == S.Exit }

  function BalanceBefore(initial: real, trades: seq<Row>, j: nat): real
    requires j <= |trades|
  {
    if j == 0 then initial else trades[j - 1].balance
  }

  ghost predicate EntryRow(initial: real, trades: seq<Row>, j: nat)
    requires j < |trades|
  {
    var row := trades[j];
    && IsEntry(row) && row.kind == L.KindOf(row.side)
    && row.reason in {ZeroInitialReentry, SLReentry, PTReentry}
    && row.balance == BalanceBefore(initial, trades, j) - row.notional * COMMISSION
  }

  /** What closing an entry at a price leaves of its balance. */
  function AfterClose(entry: Row, price: real): real
    requires entry.Trade?
  {
    if entry.notional > 0.0
    then entry.balance + PnlOf(entry.side, entry.price, entry.notional, price) - entry.notional * COMMISSION
    else entry.balance
  }

  ghost predicate CloseRow(trades: seq<Row>, j: nat)
    requires 0 < j < |trades|
  {
    var row, entry := trades[j], trades[j - 1];
    && IsClose(row) && entry.Trade?
    && row.reason in {SL, PT, PTTier2, PTTier3, FinalMarkToMarket}
    && row.side == entry.side && row.notional == entry.notional
    && row.balance == AfterClose(entry, row.price)
  }

  ghost predicate Alternates(initial: real, trades: seq<Row>) {
    forall j :: 0 <= j < |trades| ==> if j % 2 == 0 then EntryRow(initial, trades, j) else CloseRow(trades, j)
  }

  // ----- origins, shares and limits -----

  ghost predicate FollowsClose(entry: Row, close: Row)
    requires entry.Trade?
  {
    && IsClose(close) && close.side == entry.side
    && 0 <= entry.bar - close.bar <= S.REENTRY_TIMEOUT
    && (entry.reason == SLReentry <==> close.reason == SL)
  }

  ghost predicate FollowsLock(entry: Row, lock: Lock)
    requires entry.Trade?
  {
    lock.side == entry.side && 0 <= entry.bar - lock.bar <= S.REENTRY_TIMEOUT
  }

  /** A re-entry follows the close before it, every other entry a breakout. */
  ghost predicate Origin(trades: seq<Row>, locks: seq<Lock>, j: nat)
    requires j < |trades| && trades[j].Trade?
  {
    if trades[j].reason == ZeroInitialReentry then exists k :: 0 <= k < |locks| && FollowsLock(trades[j], locks[k])
    else j > 0 && FollowsClose(trades[j], trades[j - 1])
  }

  /** The entries of one signal bar. */
  function EntriesIn(trades: seq<Row>, bar: int): nat {
    if trades == [] then 0
    else
      var last := trades[|trades| - 1];
      EntriesIn(trades[..|trades| - 1], bar) + if IsEntry(last) && last.bar == bar then 1 else 0
  }

  lemma EntriesSnoc(trades: seq<Row>, row: Row, bar: int)
    ensures EntriesIn(trades + [row], bar) == EntriesIn(trades, bar) + if IsEntry(row) && row.bar == bar then 1 else 0
  {
    assert (trades + [row])[..|trades|] == trades;
  }

  /** An entry takes its share of the balance before it: the first one for a breakout, for a re-entry
      that of the bar's trades so far. */
  ghost predicate Sized(cfg: Config, initial: real, trades: seq<Row>, j: nat)
    requires j < |trades| && trades[j].Trade?
  {
    var row := trades[j];
    row.notional == OrderNotional(cfg, BalanceBefore(initial, trades, j), row.reason != ZeroInitialReentry,
                                  EntriesIn(trades[..j], row.bar))
  }

  ghost predicate EntriesOk(cfg: Config, initial: real, trades: seq<Row>, locks: seq<Lock>) {
    forall j :: 0 <= j < |trades| && IsEntry(trades[j]) ==>
      Origin(trades, locks, j) && Sized(cfg, initial, trades, j) && EntriesIn(trades[..j], trades[j].bar) < cfg.maxTradesPerBar
  }

  predicate Through(row: Row) { IsEntry(row) && row.reason == ZeroInitialReentry }

  /** Entries through breakout windows fall into different bars. */
  ghost predicate BarsRise(trades: seq<Row>) {
    forall j, k :: 0 <= j < k < |trades| && Through(trades[j]) && Through(trades[k]) ==> trades[j].bar < trades[k].bar
  }

  ghost predicate ThroughIn(trades: seq<Row>, bar: int) {
    exists j :: 0 <= j < |trades| && Through(trades[j]) && trades[j].bar == bar
  }

  ghost predicate RowsUpTo(trades: seq<Row>, bar: int) {
    forall j :: 0 <= j < |trades| && trades[j].Trade? ==> trades[j].bar <= bar
  }

  ghost predicate Genuine(feed: Feed, lock: Lock) {
    0 <= lock.bar && 0 <= lock.minute && IsStep(feed, Step(lock.bar, lock.minute)) &&
    Broke(HereOf(feed, Step(lock.bar, lock.minute)), lock.side)
  }

  ghost predicate AllGenuine(feed: Feed, locks: seq<Lock>) {
    forall k :: 0 <= k < |locks| ==> Genuine(feed, locks[k])
  }

  // ----- what a step does to the books -----

  /** Neither trades nor balance change, and windows at most close. */
  ghost predicate OnlyCloses(s: State, t: State) {
    && t.balance == s.balance && t.position == s.position && t.ledger == s.ledger && t.locks == s.locks
    && t.tradesInBar == s.tradesInBar && t.exitBar == s.exitBar && t.exitReason == s.exitReason && t.zeroBar == s.zeroBar
    && (t.exitSide == s.exitSide || t.exitSide.None?) && (t.zeroSide == s.zeroSide || t.zeroSide.None?)
  }

  ghost predicate OpenedBy(p: Position, row: Row) {
    row.Trade? && p.side == row.side && p.entryPrice == row.price && p.notional == row.notional
  }

  /** A position opened through a window, which is then closed. */
  ghost predicate Enters(cfg: Config, s: State, t: State, here: S.Here, side: Side, row: Row) {
    var afterExit := WindowOpen(s.exitSide, s.exitBar, side, here.bar);
    var afterLock := WindowOpen(s.zeroSide, s.zeroBar, side, here.bar);
    && (afterExit || afterLock) && s.tradesInBar < cfg.maxTradesPerBar
    && t.ledger == s.ledger + [row] && IsEntry(row) && row.kind == L.KindOf(side) && row.side == side
    && row.bar == here.bar && row.minute == here.pos
    && row.reason == (if !afterExit then ZeroInitialReentry else if s.exitReason == SL then SLReentry else PTReentry)
    && row.notional == OrderNotional(cfg, s.balance, afterExit, s.tradesInBar)
    && row.balance == s.balance - row.notional * COMMISSION && t.balance == row.balance
    && t.position.Some? && OpenedBy(t.position.value, row)
    && t.tradesInBar == s.tradesInBar + 1 && t.locks == s.locks
    && t.exitBar == s.exitBar && t.exitReason == s.exitReason && t.zeroBar == s.zeroBar
    && t.exitSide == (if afterExit then None else s.exitSide) && t.zeroSide == (if afterLock then None else s.zeroSide)
  }

  lemma FillShape(cfg: Config, s: State, here: S.Here, side: Side)
    ensures var t := TryFill(cfg, s, here, side);
      OnlyCloses(s, t) || (|t.ledger| > 0 && Enters(cfg, s, t, here, side, t.ledger[|t.ledger| - 1]))
  {
    hide AtrStop, EntryPrice, OrderNotional, ReentryPrice, FillPrice;
  }

  /** The position is closed, and its side's window opens. */
  ghost predicate Closes(s: State, t: State, here: S.Here, p: Position, row: Row) {
    && Trades(t.ledger) == Trades(s.ledger) + [row] && IsClose(row)
    && row.reason in {SL, PT, PTTier2, PTTier3} && row.side == p.side && row.notional == p.notional
    && row.bar == here.bar && row.minute == here.pos
    && row.balance == BalanceAfter(s.balance, p, row.price) && t.balance == row.balance
    && t.position.None? && t.tradesInBar == s.tradesInBar && t.locks == s.locks
    && t.exitSide == Some(p.side) && t.exitBar == here.bar && t.exitReason == row.reason
    && t.zeroSide == s.zeroSide && t.zeroBar == s.zeroBar
  }

  /** The position is held: its trade stays, and so does everything else. */
  ghost predicate Holds(s: State, t: State, p: Position) {
    && t.position.Some? && t.position.value.side == p.side && t.position.value.entryPrice == p.entryPrice
    && t.position.value.notional == p.notional
    && OnlyCloses(s.(position := None), t.(position := None))
  }

  lemma SettleShape(cfg: Config, s: State, time: int, bar: int)
    ensures var t := Settle(cfg, s, time, bar);
      && Trades(t.ledger) == Trades(s.ledger)
      && t == s.(peak := t.peak, breakerUntil := t.breakerUntil, ledger := t.ledger)
  {
    hide Trades, Trips, Drawdown;
    var t := Settle(cfg, s, time, bar);
    if t.ledger != s.ledger {
      TradesSnoc(s.ledger, t.ledger[|s.ledger|]);
    }
  }

  lemma ChecksKeepTrade(cfg: Config, here: S.Here, p: Position)
    ensures var q := PreCheck(cfg, here, p); q == p.(stop := q.stop)
    ensures var q := PostCheck(cfg, here, p); q == p.(stop := q.stop, water := q.water, isProtected := q.isProtected)
  {
    hide TrailedAt, Arms;
  }

  lemma HoldShape(cfg: Config, s: State, here: S.Here, p: Position) returns (row: Row)
    requires s.position == Some(p)
    ensures var t := HoldStep(cfg, s, here, p); Holds(s, t, p) || Closes(s, t, here, p, row)
  {
    hide PreCheck, PostCheck, ExitTrigger, Settle, ExitPrice, Pnl, Trades, SeenAt;
    var p1 := PreCheck(cfg, here, p);
    var trigger := ExitTrigger(cfg, here, p1);
    ChecksKeepTrade(cfg, here, p);
    ChecksKeepTrade(cfg, here, p1);
    TriggerReason(cfg, here, p1);
    if trigger.Some? {
      var closed := CloseAt(cfg, s, p1, trigger.value.0, trigger.value.1, here.second.time, here.bar, here.pos)
        .(exitSide := Some(p.side), exitBar := here.bar, exitReason := trigger.value.1);
      row := closed.ledger[|s.ledger|];
      TradesSnoc(s.ledger, row);
      SettleShape(cfg, closed, here.second.time, here.bar);
      BalanceOfTrade(s.balance, p, p1, row.price);
    } else {
      row := Breaker(0, 0.0, 0.0, 0);
    }
  }

  lemma BalanceOfTrade(balance: real, p: Position, q: Position, price: real)
    requires q == p.(stop := q.stop)
    ensures BalanceAfter(balance, q, price) == BalanceAfter(balance, p, price)
  {
    hide PnlOf;
  }

  // ----- the invariant -----

  /** Without a position, an open exit window is that of the last trade. */
  ghost predicate ExitWindowOk(s: State, trades: seq<Row>, i: int) {
    && s.exitBar <= i
    && (s.position.None? && s.exitSide.Some? ==>
          |trades| > 0 &&
          var last := trades[|trades| - 1];
          IsClose(last) && last.side == s.exitSide.value && last.reason == s.exitReason && last.bar == s.exitBar)
  }

  /** An open breakout window is that of the last breakout. */
  ghost predicate ZeroWindowOk(s: State, i: int) {
    && s.zeroBar <= i
    && (s.zeroSide.Some? ==>
          |s.locks| > 0 &&
          s.locks[|s.locks| - 1].side == s.zeroSide.value && s.locks[|s.locks| - 1].bar == s.zeroBar)
  }

  ghost predicate Balanced(initial: real, s: State, trades: seq<Row>) {
    && Alternates(initial, trades)
    && s.balance == BalanceBefore(initial, trades, |trades|)
    && (s.position.Some? <==> |trades| % 2 == 1)
    && (s.position.Some? ==> OpenedBy(s.position.value, trades[|trades| - 1]))
  }

  ghost predicate BooksOk(cfg: Config, feed: Feed, initial: real, s: State, i: int) {
    var trades := Trades(s.ledger);
    && Balanced(initial, s, trades)
    && EntriesOk(cfg, initial, trades, s.locks)
    && AllGenuine(feed, s.locks)
    && ExitWindowOk(s, trades, i) && ZeroWindowOk(s, i)
    && BarsRise(trades) && RowsUpTo(trades, i)
  }

  /** Inside a bar: its entries are counted, and after one through a window no window is open. */
  ghost predicate BarOk(s: State, i: int) {
    var trades := Trades(s.ledger);
    EntriesIn(trades, i) == s.tradesInBar && (ThroughIn(trades, i) ==> s.tradesInBar > 0 && s.zeroSide.None?)
  }

  // ----- growing books -----

  lemma AppendEntry(initial: real, trades: seq<Row>, row: Row)
    requires Alternates(initial, trades) && |trades| % 2 == 0
    requires IsEntry(row) && row.kind == L.KindOf(row.side) && row.reason in {ZeroInitialReentry, SLReentry, PTReentry}
    requires row.balance == BalanceBefore(initial, trades, |trades|) - row.notional * COMMISSION
    ensures Alternates(initial, trades + [row])
  {
    hide AfterClose;
    var more := trades + [row];
    forall j | 0 <= j < |more|
      ensures if j % 2 == 0 then EntryRow(initial, more, j) else CloseRow(more, j)
    {
      if j < |trades| {
        assert if j % 2 == 0 then EntryRow(initial, trades, j) else CloseRow(trades, j);
      }
    }
  }

  lemma AppendClose(initial: real, trades: seq<Row>, row: Row)
    requires Alternates(initial, trades) && |trades| % 2 == 1
    requires IsClose(row) && row.reason in {SL, PT, PTTier2, PTTier3, FinalMarkToMarket}
    requires var entry := trades[|trades| - 1];
      entry.Trade? && row.side == entry.side && row.notional == entry.notional && row.balance == AfterClose(entry, row.price)
    ensures Alternates(initial, trades + [row])
  {
    hide AfterClose;
    var more := trades + [row];
    forall j | 0 <= j < |more|
      ensures if j % 2 == 0 then EntryRow(initial, more, j) else CloseRow(more, j)
    {
      if j < |trades| {
        assert if j % 2 == 0 then EntryRow(initial, trades, j) else CloseRow(trades, j);
      }
    }
  }

  lemma EntriesAppend(cfg: Config, initial: real, trades: seq<Row>, locks: seq<Lock>, row: Row)
    requires EntriesOk(cfg, initial, trades, locks) && row.Trade?
    requires IsEntry(row) ==>
      && Origin(trades + [row], locks, |trades|)
      && row.notional == OrderNotional(cfg, BalanceBefore(initial, trades, |trades|), row.reason != ZeroInitialReentry,
                                       EntriesIn(trades, row.bar))
      && EntriesIn(trades, row.bar) < cfg.maxTradesPerBar
    ensures EntriesOk(cfg, initial, trades + [row], locks)
  {
    hide FollowsLock, FollowsClose, OrderNotional, EntriesIn;
    var more := trades + [row];
    forall j | 0 <= j < |more| && IsEntry(more[j])
      ensures Origin(more, locks, j) && Sized(cfg, initial, more, j) && EntriesIn(more[..j], more[j].bar) < cfg.maxTradesPerBar
    {
      assert more[..j] == if j < |trades| then trades[..j] else trades;
      if j < |trades| {
        assert Origin(trades, locks, j) && Sized(cfg, initial, trades, j);
      }
    }
  }

  lemma EntriesWithLock(cfg: Config, initial: real, trades: seq<Row>, locks: seq<Lock>, lock: Lock)
    requires EntriesOk(cfg, initial, trades, locks)
    ensures EntriesOk(cfg, initial, trades, locks + [lock])
  {
    hide FollowsLock, FollowsClose, OrderNotional, EntriesIn;
    var more := locks + [lock];
    forall j | 0 <= j < |trades| && IsEntry(trades[j]) ensures Origin(trades, more, j) {
      assert Origin(trades, locks, j);
      if trades[j].reason == ZeroInitialReentry {
        var k :| 0 <= k < |locks| && FollowsLock(trades[j], locks[k]);
        assert more[k] == locks[k];
      }
    }
  }

  lemma RiseSnoc(trades: seq<Row>, row: Row)
    requires BarsRise(trades) && row.Trade? && RowsUpTo(trades, row.bar)
    requires Through(row) ==> !ThroughIn(trades, row.bar)
    ensures BarsRise(trades + [row]) && RowsUpTo(trades + [row], row.bar)
    ensures ThroughIn(trades + [row], row.bar) <==> ThroughIn(trades, row.bar) || Through(row)
  {
    var more := trades + [row];
    assert more[|trades|] == row;
    if ThroughIn(trades, row.bar) {
      var j :| 0 <= j < |trades| && Through(trades[j]) && trades[j].bar == row.bar;
      assert more[j] == trades[j];
    }
  }

  // ----- the steps -----

  lemma ClosingKeeps(cfg: Config, feed: Feed, initial: real, s: State, t: State, i: int)
    requires BooksOk(cfg, feed, initial, s, i) && OnlyCloses(s, t)
    ensures BooksOk(cfg, feed, initial, t, i)
    ensures BarOk(s, i) ==> BarOk(t, i)
  {
    hide Alternates, EntriesOk, AllGenuine, BarsRise, RowsUpTo, Trades, EntriesIn, ThroughIn;
  }

  lemma LockKeeps(cfg: Config, feed: Feed, initial: real, s: State, step: Step, side: Side)
    requires IsStep(feed, step) && BooksOk(cfg, feed, initial, s, step.bar) && BarOk(s, step.bar)
    ensures var t := TryLock(s, HereOf(feed, step), side); BooksOk(cfg, feed, initial, t, step.bar) && BarOk(t, step.bar)
  {
    hide Balanced, EntriesOk, BarsRise, RowsUpTo, Trades, EntriesIn, ThroughIn, IsStep, Broke;
    var here := HereOf(feed, step);
    EntriesWithLock(cfg, initial, Trades(s.ledger), s.locks, Lock(side, here.bar, here.pos));
    var t := TryLock(s, here, side);
    assert Balanced(initial, t, Trades(s.ledger)) by { SameBalance(initial, s, t, Trades(s.ledger)); }
  }

  lemma SameBalance(initial: real, s: State, t: State, trades: seq<Row>)
    requires Balanced(initial, s, trades) && t.balance == s.balance && t.position == s.position
    ensures Balanced(initial, t, trades)
  {
    hide Alternates;
  }

  lemma EntryKeeps(cfg: Config, feed: Feed, initial: real, s: State, t: State, here: S.Here, side: Side, row: Row)
    requires BooksOk(cfg, feed, initial, s, here.bar) && BarOk(s, here.bar) && s.position.None?
    requires Enters(cfg, s, t, here, side, row)
    ensures BooksOk(cfg, feed, initial, t, here.bar) && BarOk(t, here.bar)
  {
    hide Alternates, EntriesOk, AllGenuine, BarsRise, RowsUpTo, Trades, EntriesIn, ThroughIn, OrderNotional;
    var trades := Trades(s.ledger);
    TradesSnoc(s.ledger, row);
    AppendEntry(initial, trades, row);
    EntriesSnoc(trades, row, here.bar);
    RiseSnoc(trades, row);
    if row.reason == ZeroInitialReentry {
      assert FollowsLock(row, s.locks[|s.locks| - 1]);
    }
    EntriesAppend(cfg, initial, trades, s.locks, row);
  }

  lemma CloseKeeps(cfg: Config, feed: Feed, initial: real, s: State, t: State, here: S.Here, p: Position, row: Row)
    requires BooksOk(cfg, feed, initial, s, here.bar) && BarOk(s, here.bar) && s.position == Some(p)
    requires Closes(s, t, here, p, row)
    ensures BooksOk(cfg, feed, initial, t, here.bar) && BarOk(t, here.bar)
  {
    hide Alternates, EntriesOk, AllGenuine, BarsRise, RowsUpTo, Trades, EntriesIn, ThroughIn, EntryRow, PnlOf;
    var trades := Trades(s.ledger);
    AppendClose(initial, trades, row);
    EntriesSnoc(trades, row, here.bar);
    RiseSnoc(trades, row);
    EntriesAppend(cfg, initial, trades, s.locks, row);
  }

  lemma HeldKeeps(cfg: Config, feed: Feed, initial: real, s: State, t: State, i: int, p: Position)
    requires BooksOk(cfg, feed, initial, s, i) && BarOk(s, i) && s.position == Some(p) && Holds(s, t, p)
    ensures BooksOk(cfg, feed, initial, t, i) && BarOk(t, i)
  {
    hide Alternates, EntriesOk, AllGenuine, BarsRise, RowsUpTo, Trades, EntriesIn, ThroughIn;
  }

  lemma FlatKeeps(cfg: Config, feed: Feed, initial: real, s: State, step: Step, side: Side)
    requires IsStep(feed, step) && BooksOk(cfg, feed, initial, s, step.bar) && BarOk(s, step.bar) && s.position.None?
    ensures var t := FlatStep(cfg, s, HereOf(feed, step), side); BooksOk(cfg, feed, initial, t, step.bar) && BarOk(t, step.bar)
  {
    hide BooksOk, BarOk, TryFill, Enters, OnlyCloses, IsStep, Broke;
    var here := HereOf(feed, step);
    var s1 := TryLock(s, here, side);
    var t := TryFill(cfg, s1, here, side);
    LockKeeps(cfg, feed, initial, s, step, side);
    FillShape(cfg, s1, here, side);
    if OnlyCloses(s1, t) {
      ClosingKeeps(cfg, feed, initial, s1, t, step.bar);
    } else {
      EntryKeeps(cfg, feed, initial, s1, t, here, side, t.ledger[|t.ledger| - 1]);
    }
  }

  lemma HoldKeeps(cfg: Config, feed: Feed, initial: real, s: State, here: S.Here, p: Position)
    requires BooksOk(cfg, feed, initial, s, here.bar) && BarOk(s, here.bar) && s.position == Some(p)
    ensures var t := HoldStep(cfg, s, here, p); BooksOk(cfg, feed, initial, t, here.bar) && BarOk(t, here.bar)
  {
    hide BooksOk, BarOk, HoldStep, Holds, Closes;
    var row := HoldShape(cfg, s, here, p);
    var t := HoldStep(cfg, s, here, p);
    if Holds(s, t, p) {
      HeldKeeps(cfg, feed, initial, s, t, here.bar, p);
    } else {
      CloseKeeps(cfg, feed, initial, s, t, here, p, row);
    }
  }

  ghost predicate BeforeBar(cfg: Config, feed: Feed, initial: real, s: State, i: int) {
    BooksOk(cfg, feed, initial, s, i) && RowsUpTo(Trades(s.ledger), i - 1)
  }

  ghost predicate InsideBar(cfg: Config, feed: Feed, initial: real, s: State, i: int) {
    BooksOk(cfg, feed, initial, s, i) && BarOk(s, i)
  }

  lemma StepKeeps(cfg: Config, feed: Feed, initial: real, s: State, step: Step)
    requires IsStep(feed, step) && InsideBar(cfg, feed, initial, s, step.bar)
    ensures InsideBar(cfg, feed, initial, StepOf(cfg, feed, step, s), step.bar)
  {
    hide BooksOk, BarOk, FlatStep, HoldStep, RegimeReady, IsStep, Paused;
    if s.position.Some? {
      HoldKeeps(cfg, feed, initial, s, HereOf(feed, step), s.position.value);
    } else {
      FlatKeeps(cfg, feed, initial, s, step, Long);
      FlatKeeps(cfg, feed, initial, s, step, Short);
    }
  }

  lemma {:induction false} NothingIn(trades: seq<Row>, bar: int)
    requires RowsUpTo(trades, bar - 1)
    ensures EntriesIn(trades, bar) == 0 && !ThroughIn(trades, bar)
  {
    if trades != [] {
      NothingIn(trades[..|trades| - 1], bar);
    }
  }

  lemma RowsLater(trades: seq<Row>, bar: int, later: int)
    requires RowsUpTo(trades, bar) && bar <= later
    ensures RowsUpTo(trades, later)
  {}

  lemma BarsApart(cfg: Config, feed: Feed, initial: real, s: State, i: nat)
    ensures BeforeBar(cfg, feed, initial, s, i) ==>
      BeforeBar(cfg, feed, initial, s, i + 1) && InsideBar(cfg, feed, initial, StartBar(s, i), i)
    ensures InsideBar(cfg, feed, initial, s, i) ==> BeforeBar(cfg, feed, initial, s, i + 1)
  {
    hide Balanced, EntriesOk, AllGenuine, BarsRise, Trades, EntriesIn, ThroughIn, RowsUpTo;
    var trades := Trades(s.ledger);
    if BeforeBar(cfg, feed, initial, s, i) {
      NothingIn(trades, i);
      RowsLater(trades, i - 1, i);
      RowsLater(trades, i, i + 1);
      SameBalance(initial, s, StartBar(s, i), trades);
    } else if InsideBar(cfg, feed, initial, s, i) {
      RowsLater(trades, i, i + 1);
    }
  }

  lemma InitialBooks(cfg: Config, feed: Feed, initial: real)
    ensures BeforeBar(cfg, feed, initial, Initial(initial), 0)
  {}

  lemma BooksKept(cfg: Config, feed: Feed, initial: real)
    ensures RunKept(cfg, feed, (s, i) => BeforeBar(cfg, feed, initial, s, i), (s, i, pos) => InsideBar(cfg, feed, initial, s, i), initial)
  {
    hide BeforeBar, InsideBar, StepOf, StartBar, S.StartOf, S.EndOf;
    InitialBooks(cfg, feed, initial);
    forall s, i: nat | BeforeBar(cfg, feed, initial, s, i)
      ensures BeforeBar(cfg, feed, initial, s, i + 1) && InsideBar(cfg, feed, initial, StartBar(s, i), i)
    {
      BarsApart(cfg, feed, initial, s, i);
    }
    forall s, i: nat, pos: nat | IsStep(feed, Step(i, pos)) && InsideBar(cfg, feed, initial, s, i)
      ensures InsideBar(cfg, feed, initial, StepOf(cfg, feed, Step(i, pos), s), i)
    {
      StepKeeps(cfg, feed, initial, s, Step(i, pos));
    }
    forall s, i: nat | InsideBar(cfg, feed, initial, s, i) ensures BeforeBar(cfg, feed, initial, s, i + 1) {
      BarsApart(cfg, feed, initial, s, i);
    }
  }

  lemma BooksOfBars(cfg: Config, feed: Feed, n: nat, initial: real)
    requires n == 0 || n < |feed.signal|
    ensures BooksOk(cfg, feed, initial, RunBars(cfg, feed, n, initial), n)
  {
    hide BooksOk, RunBars, RunKept;
    BooksKept(cfg, feed, initial);
    KeptBars(cfg, feed, (s, i) => BeforeBar(cfg, feed, initial, s, i), (s, i, pos) => InsideBar(cfg, feed, initial, s, i), initial, n);
  }

  lemma {:induction false} NothingTraded(cfg: Config, feed: Feed, n: nat, initial: real)
    requires feed.seconds == [] && (n == 0 || n < |feed.signal|)
    ensures RunBars(cfg, feed, n, initial) == Initial(initial)
  {
    hide Initial;
    if n > 0 {
      NothingTraded(cfg, feed, n - 1, initial);
    }
  }

  /** The trades of a whole replay alternate entry and exit of the same position, end with an exit, and
      explain every balance up to the final one. Every re-entry follows the exit before it, every other
      entry a genuine breakout, of its side and at most one bar earlier; it takes its share of the
      balance; no bar has more entries than allowed, nor two through breakout windows. */
  lemma ReplayBooks(cfg: Config, feed: Feed, initial: real)
    ensures var s := Replay(cfg, feed, initial);
      var trades := Trades(s.ledger);
      && Alternates(initial, trades) && |trades| % 2 == 0
      && s.balance == BalanceBefore(initial, trades, |trades|)
      && EntriesOk(cfg, initial, trades, s.locks) && AllGenuine(feed, s.locks)
      && BarsRise(trades)
  {
    hide RunBars, Alternates, EntriesOk, AllGenuine, BarsRise, RowsUpTo, Trades, ExitPrice, PnlOf, Initial, EntryRow;
    var n := if |feed.signal| == 0 then 0 else |feed.signal| - 1;
    BooksOfBars(cfg, feed, n, initial);
    var s, t := RunBars(cfg, feed, n, initial), Replay(cfg, feed, initial);
    var trades := Trades(s.ledger);
    if s.position.Some? && feed.seconds != [] {
      var row := t.ledger[|s.ledger|];
      TradesSnoc(s.ledger, row);
      AppendClose(initial, trades, row);
      EntriesAppend(cfg, initial, trades, s.locks, row);
      RiseWithClose(trades, row);
    } else if s.position.Some? {
      NothingTraded(cfg, feed, n, initial);
      InitiallyFlat(initial);
    }
  }

  lemma InitiallyFlat(initial: real)
    ensures Initial(initial).position.None?
  {}

  lemma RiseWithClose(trades: seq<Row>, row: Row)
    requires BarsRise(trades) && IsClose(row)
    ensures BarsRise(trades + [row])
  {}
}
