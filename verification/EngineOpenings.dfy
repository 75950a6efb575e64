/** When a breakout opens a window, when a window is entered, and what that leaves in the books: decided by
    the feed, the windows and the parameters. */
module EngineOpenings {
  import opened EngineStops
  import opened FeedView
  import opened Market
  import opened Options
  import opened Rulebook
  import opened SecondReplay
  import opened Steps

  // ----- the side that may trade -----

  /** Some event of the bar and side has not been taken. */
  predicate Awaits(feed: Feed, time: int, side: Side, consumed: set<string>) {
    (time, side) in feed.events &&
    exists k :: 0 <= k < |feed.events[(time, side)]| && feed.events[(time, side)][k].key !in consumed
  }

  /** An external event concerns the side: one is awaited, or a window of the side came from one. */
  predicate Concerned(feed: Feed, s: State, time: int, side: Side) {
    || Awaits(feed, time, side, s.consumed)
    || (s.zero.side == Some(side) && s.zero.eventKey != "")
    || (s.exit.side == Some(side) && s.exit.eventKey != "")
  }

  predicate MayTrade(cfg: Config, feed: Feed, s: State, sig: Signal, side: Side) {
    Allows(sig, side) || Concerned(feed, s, sig.row.time, side) || (!cfg.live && side in s.forced)
  }

  /** The long side comes first. */
  function SideAt(cfg: Config, feed: Feed, s: State, sig: Signal): Option<Side> {
    if MayTrade(cfg, feed, s, sig, Long) then Some(Long)
    else if MayTrade(cfg, feed, s, sig, Short) then Some(Short)
    else None
  }

  // ----- breakouts -----

  /** The shape of the breakout a second makes: it reaches the level two bars back when that stands out
      beyond the last one, or the level three bars back when that stands out beyond both and they come
      back towards it. */
  function Breaks(side: Side, row: SignalRow, second: Second, withT3: bool): Option<string> {
    match side
    case Long =>
      (match (row.prevHigh1, row.prevHigh2, row.prevHigh3)
       case (Some(one), Some(two), three) =>
         if 0.0 < one < two <= second.high then Some(ORIGINAL_T2)
         else if withT3 && three.Some? && 0.0 < two < one < three.value <= second.high then Some(T3_SWING)
         else None
       case _ => None)
    case Short =>
      (match (row.prevLow1, row.prevLow2, row.prevLow3)
       case (Some(one), Some(two), three) =>
         if second.low <= two < one && two > 0.0 then Some(ORIGINAL_T2)
         else if withT3 && three.Some? && second.low <= three.value < one < two && three.value > 0.0 then Some(T3_SWING)
         else None
       case _ => None)
  }

  /** The engine's own breakout counts in a bar without trades, unless a filter rejects it or the last
      swing breakout is too recent. */
  function OwnBreakout(cfg: Config, s: State, here: Here, side: Side): Option<string> {
    match Breaks(side, here.sig.row, here.second, cfg.withT3)
    case None => None
    case Some(shape) =>
      if s.tradesInBar > 0 || cfg.rejectsQuality(side, shape, here.bar, here.pos) then None
      else if shape == T3_SWING && cfg.t3CooldownBars > 0 && here.bar <= s.lastT3Lock + cfg.t3CooldownBars then None
      else if cfg.skipLock && cfg.sizing(side, shape, here.bar, here.pos).rejected then None
      else Some(shape)
  }

  /** The first event that has not been taken, if it has been touched. */
  ghost predicate IsDueNext(feed: Feed, time: int, side: Side, now: int, consumed: set<string>, e: ExternalEvent) {
    (time, side) in feed.events &&
    var events := feed.events[(time, side)];
    exists k :: 0 <= k < |events| && events[k] == e && e.key !in consumed && e.touchTime <= now
      && forall j :: 0 <= j < k ==> events[j].key in consumed
  }

  /** An external event counts when the engine has no breakout of its own in this bar, nor a trade. */
  ghost predicate Takes(cfg: Config, feed: Feed, s: State, here: Here, side: Side, e: ExternalEvent) {
    && OwnBreakout(cfg, s, here, side).None? && s.tradesInBar == 0 && !s.lockedThisBar
    && IsDueNext(feed, here.sig.row.time, side, here.second.time, s.consumed, e)
  }

  /** What a second adds to the breakouts, and the breakout window it leaves to be entered. */
  ghost predicate Locked(cfg: Config, feed: Feed, s: State, here: Here, side: Side, t: State, zero: Window) {
    var own := OwnBreakout(cfg, s, here, side);
    if own.Some? then
      && t.locks == s.locks + [Lock(side, here.bar, here.pos, here.second.time, own.value, None)]
      && t.consumed == s.consumed && t.lockedThisBar
      && t.lastT3Lock == (if own.value == T3_SWING then here.bar else s.lastT3Lock)
      && zero == Window(Some(side), own.value, cfg.sizing(side, own.value, here.bar, here.pos).multiplier, "", here.bar, here.pos)
    else if exists e :: Takes(cfg, feed, s, here, side, e) then
      exists e :: Takes(cfg, feed, s, here, side, e)
        && t.locks == s.locks + [Lock(side, here.bar, here.pos, here.second.time, e.shape, Some(e))]
        && t.consumed == s.consumed + {e.key} && t.lockedThisBar && t.lastT3Lock == s.lastT3Lock
        && zero == Window(Some(side), e.shape, 1.0, e.key, here.bar, here.pos)
    else
      && t.locks == s.locks && t.consumed == s.consumed && t.lockedThisBar == s.lockedThisBar
      && t.lastT3Lock == s.lastT3Lock && zero == s.zero
  }

  // ----- entries -----

  /** A window of the side is at most one bar old. */
  predicate IsOpen(w: Window, side: Side, bar: int) { w.side == Some(side) && bar <= w.bar + 1 }

  /** A second fills at a price when it attains it; under the strict policy it must come from the other
      side of it, in a later second than the one that opened the window. */
  predicate Fills(cfg: Config, here: Here, side: Side, price: real, since: int) {
    && Attains(side, here.second, price)
    && (cfg.strictFill ==>
          since < here.pos &&
          match here.prevClose
          case None => false
          case Some(before) => match side case Long => before < price case Short => before > price)
  }

  /** The share of the schedule for the n-th order of a bar: the last one stays. */
  function ShareOf(schedule: seq<real>, n: nat): real {
    if schedule == [] then 0.0 else schedule[if n < |schedule| then n else |schedule| - 1]
  }

  function ScheduleOf(cfg: Config, shape: string): seq<real> {
    if shape != T3_SWING || cfg.t3Schedule == [] then cfg.schedule else cfg.t3Schedule
  }

  /** An order takes its share, scaled by the window's multiplier, of the balance. */
  function Taken(cfg: Config, balance: real, w: Window, n: nat): real {
    balance * (ShareOf(ScheduleOf(cfg, w.shape), n) * w.multiplier)
  }

  /** The books after an entry: one row at the slipped price, its commission paid, and the position of
      that row. */
  ghost predicate Enters(cfg: Config, s: State, here: Here, side: Side, raw: real, reason: Reason, w: Window, t: State) {
    var price := Entered(side, raw, cfg.slippage);
    var notional := Taken(cfg, s.balance, w, s.tradesInBar);
    && t.balance == s.balance - notional * 0.001
    && t.ledger == s.ledger + [Row(here.second.time, match side case Long => Buy case Short => Sell, price, reason, notional,
                                   t.balance, w.shape, side, here.bar, here.pos, here.sig.atr, w.multiplier)]
    && t.tradesInBar == s.tradesInBar + 1 && t.held == []
    && t.position.Some? && FromEntry(cfg, t.position.value, t.ledger[|s.ledger|])
    && t.position.value.stop == t.position.value.initialStop && t.position.value.water == price
    && t.position.value.isProtected == (reason == PTReentry) && t.position.value.eventKey == w.eventKey
  }

  ghost predicate NoEntry(s: State, t: State) {
    t.balance == s.balance && t.ledger == s.ledger && t.tradesInBar == s.tradesInBar && t.position.None? && t.held == s.held
  }

  /** A window is closed, or left as it was. */
  ghost predicate ClosedIf(closes: bool, before: Window, after: Window) {
    if closes then after.side.None? && after.bar == before.bar else after == before
  }

  function Distance(cfg: Config, side: Side, atr: real): real {
    match side case Long => cfg.longReentryAtr * atr case Short => cfg.shortReentryAtr * atr
  }

  /** What a second does to the windows of a side and the books. The window after an exit comes first;
      when the re-entry price fills, every open window of the side closes, and a position is opened
      unless the bar has had its trades. */
  ghost predicate Filled(cfg: Config, s: State, here: Here, side: Side, zero: Window, t: State) {
    var afterExit, afterLock := IsOpen(s.exit, side, here.bar), IsOpen(zero, side, here.bar);
    var w := if afterExit then s.exit else zero;
    var price := BackIn(side, here.sig.row, Distance(cfg, side, here.sig.atr));
    var reason := if !afterExit then ZeroInitialReentry else if s.exitReason == SL then SLReentry else PTReentry;
    var fills := (afterExit || afterLock) && price.Some? && Fills(cfg, here, side, price.value, w.second);
    && ClosedIf(fills && afterExit, s.exit, t.exit) && ClosedIf(fills && afterLock, zero, t.zero)
    && t.exitReason == s.exitReason
    && (if fills && s.tradesInBar < cfg.maxTradesPerBar then Enters(cfg, s, here, side, price.value, reason, w, t) else NoEntry(s, t))
  }

  // ----- the steps -----

  lemma {:induction false} FirstIsDueNext(events: seq<ExternalEvent>, consumed: set<string>)
    ensures var first := FirstUnconsumed(events, consumed);
      && (first.Some? <==> exists k :: 0 <= k < |events| && events[k].key !in consumed)
      && (first.Some? ==>
            exists k :: 0 <= k < |events| && events[k] == first.value && events[k].key !in consumed
              && forall j :: 0 <= j < k ==> events[j].key in consumed)
  {
    if events != [] && events[0].key in consumed {
      var rest := events[1..];
      FirstIsDueNext(rest, consumed);
      var first := FirstUnconsumed(events, consumed);
      if first.Some? {
        var k :| 0 <= k < |rest| && rest[k] == first.value && rest[k].key !in consumed
          && forall j :: 0 <= j < k ==> rest[j].key in consumed;
        assert events[k + 1] == first.value;
        forall j | 0 <= j < k + 1 ensures events[j].key in consumed {
          if j > 0 {
            assert events[j] == rest[j - 1];
          }
        }
      } else {
        forall k | 0 <= k < |events| ensures events[k].key in consumed {
          if k > 0 {
            assert events[k] == rest[k - 1];
          }
        }
      }
    }
  }

  lemma ConcernedIsInterested(feed: Feed, s: State, time: int, side: Side)
    ensures Interested(feed, s, time, side) <==> Concerned(feed, s, time, side)
  {
    FirstIsDueNext(EventsOf(feed, time, side), s.consumed);
  }

  lemma ReadyIsDueNext(feed: Feed, time: int, side: Side, now: int, consumed: set<string>, e: ExternalEvent)
    ensures EventReady(EventsOf(feed, time, side), now, consumed) == Some(e) <==> IsDueNext(feed, time, side, now, consumed, e)
  {
    var events := EventsOf(feed, time, side);
    FirstIsDueNext(events, consumed);
    if IsDueNext(feed, time, side, now, consumed, e) {
      var first := FirstUnconsumed(events, consumed);
      var k :| 0 <= k < |events| && events[k] == e && e.key !in consumed && e.touchTime <= now
        && forall j :: 0 <= j < k ==> events[j].key in consumed;
      var m :| 0 <= m < |events| && events[m] == first.value && events[m].key !in consumed
        && forall j :: 0 <= j < m ==> events[j].key in consumed;
      assert k == m;
    }
  }

  lemma SideIsReady(cfg: Config, feed: Feed, s: State, here: Here, side: Side)
    ensures SideReady(Observe(cfg, feed, s, here), here, side) <==> MayTrade(cfg, feed, s, here.sig, side)
  {
    hide Interested, Concerned, RegimeReady, Allows, Higher, Lower;
    AllowsIsReady(here.sig, side);
    ConcernedIsInterested(feed, s, here.sig.row.time, Long);
    ConcernedIsInterested(feed, s, here.sig.row.time, Short);
  }

  lemma BreaksIsBreakout(row: SignalRow, side: Side, second: Second, withT3: bool)
    ensures var breakout := BreakoutOf(row, side, Favourable(side, second.high, second.low), withT3);
      Breaks(side, row, second, withT3) == if breakout.Some? then Some(breakout.value.shape) else None
  {}

  lemma OwnIsLocked(cfg: Config, s: State, here: Here, side: Side)
    ensures var own, t := OwnBreakout(cfg, s, here, side), TryLock(cfg, s, here, side);
      if own.None? then t == s
      else
        t == s.(lastT3Lock := if own.value == T3_SWING then here.bar else s.lastT3Lock, lockedThisBar := true,
                zero := Window(Some(side), own.value, cfg.sizing(side, own.value, here.bar, here.pos).multiplier, "",
                               here.bar, here.pos),
                locks := s.locks + [Lock(side, here.bar, here.pos, here.second.time, own.value, None)])
  {
    hide BreakoutOf, Breaks, Favourable;
    BreaksIsBreakout(here.sig.row, side, here.second, cfg.withT3);
  }

  lemma LocksDecide(cfg: Config, feed: Feed, s: State, here: Here, side: Side)
    ensures var t := TryExternal(feed, TryLock(cfg, s, here, side), here, side);
      Locked(cfg, feed, s, here, side, t, t.zero)
  {
    hide OwnBreakout, TryLock, EventReady, IsDueNext, EventsOf;
    OwnIsLocked(cfg, s, here, side);
    var event := EventReady(EventsOf(feed, here.sig.row.time, side), here.second.time, s.consumed);
    if OwnBreakout(cfg, s, here, side).None? {
      forall e
        ensures event == Some(e) <==> IsDueNext(feed, here.sig.row.time, side, here.second.time, s.consumed, e)
      {
        ReadyIsDueNext(feed, here.sig.row.time, side, here.second.time, s.consumed, e);
      }
      if event.Some? && s.tradesInBar == 0 && !s.lockedThisBar {
        assert Takes(cfg, feed, s, here, side, event.value);
      }
    }
  }

  lemma FillsIsTriggered(cfg: Config, here: Here, side: Side, price: real, since: int)
    ensures FillTriggered(cfg, here, side, Some(price), since) <==> Fills(cfg, here, side, price, since)
  {}

  lemma ShareIsOrder(cfg: Config, balance: real, w: Window, n: nat)
    ensures OrderNotional(cfg, balance, w, n) == Taken(cfg, balance, w, n)
  {}

  lemma OpenEnters(cfg: Config, s: State, here: Here, side: Side, raw: real, reason: Reason, w: Window)
    requires s.position.None?
    ensures Enters(cfg, s, here, side, raw, reason, w, OpenPosition(cfg, s, here, side, raw, reason, w))
  {
    hide EntryPrice, Entered, OrderNotional, Taken;
    SlippedPrices(side, raw, cfg.slippage);
    ShareIsOrder(cfg, s.balance, w, s.tradesInBar);
  }

  lemma EntersAnyway(cfg: Config, s: State, here: Here, side: Side, raw: real, reason: Reason, w: Window, t: State, u: State)
    requires Enters(cfg, s, here, side, raw, reason, w, t) && u == t.(exit := u.exit, zero := u.zero)
    ensures Enters(cfg, s, here, side, raw, reason, w, u)
  {
    hide Entered, Taken, FromEntry;
  }

  lemma FillDecides(cfg: Config, s: State, here: Here, side: Side)
    requires s.position.None?
    ensures Filled(cfg, s, here, side, s.zero, TryFill(cfg, s, here, side))
  {
    hide OpenPosition, FillTriggered, ReentryPrice, BackIn, Fills, Enters, Distance, ReentryAtr;
    var afterExit := WindowOpen(s.exit, side, here.bar);
    var w := if afterExit then s.exit else s.zero;
    var price, t := ReentryPrice(here.sig, side, ReentryAtr(cfg, side)), TryFill(cfg, s, here, side);
    DistanceIs(cfg, side, here.sig.atr);
    BackInIsPrice(here.sig, side, ReentryAtr(cfg, side), Distance(cfg, side, here.sig.atr));
    FillHasPrice(cfg, here, side, price, w.second);
    if price.Some? {
      FillsIsTriggered(cfg, here, side, price.value, w.second);
      assert price == Some(price.value);
    }
    if (afterExit || WindowOpen(s.zero, side, here.bar)) && FillTriggered(cfg, here, side, price, w.second) {
      var reason := if !afterExit then ZeroInitialReentry else if s.exitReason == SL then SLReentry else PTReentry;
      var entered := OpenPosition(cfg, s, here, side, price.value, reason, w);
      OpenEnters(cfg, s, here, side, price.value, reason, w);
      OpenKeepsWindows(cfg, s, here, side, price.value, reason, w);
      if s.tradesInBar < cfg.maxTradesPerBar {
        EntersAnyway(cfg, s, here, side, price.value, reason, w, entered, t);
      }
    }
  }

  lemma DistanceIs(cfg: Config, side: Side, atr: real)
    ensures ReentryAtr(cfg, side) * atr == Distance(cfg, side, atr)
  {}

  lemma OpenKeepsWindows(cfg: Config, s: State, here: Here, side: Side, raw: real, reason: Reason, w: Window)
    ensures var t := OpenPosition(cfg, s, here, side, raw, reason, w);
      t.exit == s.exit && t.zero == s.zero && t.exitReason == s.exitReason
  {
    hide OrderNotional, EntryPrice, AtrStop;
  }

  /** What the state is made of that a second without a position may change. */
  ghost predicate Idle(s: State, t: State) {
    && NoEntry(s, t) && t.exit == s.exit && t.exitReason == s.exitReason && t.zero == s.zero
    && t.locks == s.locks && t.consumed == s.consumed && t.lockedThisBar == s.lockedThisBar && t.lastT3Lock == s.lastT3Lock
  }

  /** All that a second without a position does: nothing when no side may trade, otherwise breakouts and
      entries of that side. */
  ghost predicate Decides(cfg: Config, feed: Feed, s: State, here: Here, t: State, zero: Window) {
    match SideAt(cfg, feed, s, here.sig)
    case None => Idle(s, t)
    case Some(side) => Locked(cfg, feed, s, here, side, t, zero) && Filled(cfg, s, here, side, zero, t)
  }

  /** Books and windows; the rest is what is observed. */
  ghost predicate SameBut(s: State, t: State) {
    t == s.(barHigh := t.barHigh, barLow := t.barLow, forced := t.forced)
  }

  lemma FlatDecides(cfg: Config, feed: Feed, s: State, here: Here, side: Side) returns (zero: Window)
    requires s.position.None?
    ensures var t := FlatStep(cfg, feed, s, here, side);
      Locked(cfg, feed, s, here, side, t, zero) && Filled(cfg, s, here, side, zero, t)
  {
    hide TryLock, TryExternal, TryFill, Locked, Filled;
    var s1 := TryExternal(feed, TryLock(cfg, s, here, side), here, side);
    zero := s1.zero;
    LocksDecide(cfg, feed, s, here, side);
    LocksKeepTheRest(cfg, feed, s, here, side);
    FillDecides(cfg, s1, here, side);
    FillKeepsLocks(cfg, s1, here, side);
    LockedAnyway(cfg, feed, s, here, side, s1, TryFill(cfg, s1, here, side), zero);
    FilledAnyway(cfg, s, s1, here, side, zero, TryFill(cfg, s1, here, side));
  }

  lemma LocksKeepTheRest(cfg: Config, feed: Feed, s: State, here: Here, side: Side)
    ensures var t := TryExternal(feed, TryLock(cfg, s, here, side), here, side);
      t == s.(lastT3Lock := t.lastT3Lock, lockedThisBar := t.lockedThisBar, zero := t.zero, locks := t.locks, consumed := t.consumed)
  {
    hide BreakoutOf, EventReady, LockAllowed;
  }

  lemma FillKeepsLocks(cfg: Config, s: State, here: Here, side: Side)
    ensures var t := TryFill(cfg, s, here, side);
      t.locks == s.locks && t.consumed == s.consumed && t.lockedThisBar == s.lockedThisBar && t.lastT3Lock == s.lastT3Lock
  {
    hide FillTriggered, ReentryPrice, OrderNotional, EntryPrice, AtrStop;
  }

  lemma LockedAnyway(cfg: Config, feed: Feed, s: State, here: Here, side: Side, t: State, u: State, zero: Window)
    requires Locked(cfg, feed, s, here, side, t, zero)
    requires t.locks == u.locks && t.consumed == u.consumed && t.lockedThisBar == u.lockedThisBar && t.lastT3Lock == u.lastT3Lock
    ensures Locked(cfg, feed, s, here, side, u, zero)
  {
    hide OwnBreakout, Takes;
  }

  lemma FilledAnyway(cfg: Config, s: State, s1: State, here: Here, side: Side, zero: Window, t: State)
    requires Filled(cfg, s1, here, side, zero, t)
    requires s1 == s.(lastT3Lock := s1.lastT3Lock, lockedThisBar := s1.lockedThisBar, zero := s1.zero, locks := s1.locks,
                      consumed := s1.consumed)
    ensures Filled(cfg, s, here, side, zero, t)
  {
    hide BackIn, Fills, Distance, Taken, Entered, FromEntry;
  }

  lemma StepDecides(cfg: Config, feed: Feed, i: nat, start: nat, pos: nat, s: State) returns (zero: Window)
    requires i < |feed.signal| && pos < |feed.seconds| && feed.signal[i].atr.Some? && s.position.None?
    ensures Decides(cfg, feed, s, HereAt(cfg, feed, i, start, pos, s), StepSecond(cfg, feed, i, start, pos, s), zero)
  {
    hide FlatStep, SideReady, Forced, Higher, Lower, Locked, Filled, MayTrade, HereAt;
    var here := HereAt(cfg, feed, i, start, pos, s);
    var s1 := Observe(cfg, feed, s, here);
    SideIsReady(cfg, feed, s, here, Long);
    SideIsReady(cfg, feed, s, here, Short);
    zero := s.zero;
    var side := SideAt(cfg, feed, s, here.sig);
    if side.Some? {
      zero := FlatDecides(cfg, feed, s1, here, side.value);
      ObservedAnyway(cfg, feed, s, s1, here, side.value, StepSecond(cfg, feed, i, start, pos, s), zero);
    }
  }

  lemma ObservedAnyway(cfg: Config, feed: Feed, s: State, s1: State, here: Here, side: Side, t: State, zero: Window)
    requires SameBut(s, s1) && Locked(cfg, feed, s1, here, side, t, zero) && Filled(cfg, s1, here, side, zero, t)
    ensures Locked(cfg, feed, s, here, side, t, zero) && Filled(cfg, s, here, side, zero, t)
  {
    hide BackIn, Fills, Distance, Taken, Entered, FromEntry, Breaks, IsDueNext;
    assert OwnBreakout(cfg, s1, here, side) == OwnBreakout(cfg, s, here, side);
    assert forall e :: Takes(cfg, feed, s1, here, side, e) <==> Takes(cfg, feed, s, here, side, e);
  }

  /** In every second of a run that finds no position open: which breakout it records, which event it takes,
      whether it opens a position and what that leaves, from the feed, the windows and the parameters. A
      window whose price fills does open a position, unless the bar has had its trades; nothing else does. */
  lemma OpensExactly(cfg: Config, feed: Feed, i: nat, pos: nat, initial: real) returns (zero: Window)
    requires IsStep(feed, Step(i, pos)) && StateAt(cfg, feed, i, pos, initial).position.None?
    ensures Decides(cfg, feed, StateAt(cfg, feed, i, pos, initial), HereOf(cfg, feed, Step(i, pos)),
                    StateAt(cfg, feed, i, pos + 1, initial), zero)
  {
    hide StateAt, StartOf, EndOf, HereOf, HereAt, StepSecond, Decides;
    SeesTheFeed(cfg, feed, i, pos, initial);
    NextState(cfg, feed, i, pos, initial);
    zero := StepDecides(cfg, feed, i, StartOf(feed, i), pos, StateAt(cfg, feed, i, pos, initial));
  }
}
