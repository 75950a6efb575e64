/** Where entries come from: a re-entry follows an exit of its side with the matching reason, every
    other entry a breakout of its side, both at most one bar earlier. */
module EngineProvenance {
  import opened Market
  import opened Options
  import opened SecondReplay

  // ----- what an entry needs -----

  /** A re-entry after an exit: the same side and shape, at most one bar later, and named after the stop exactly
      when the exit was one. Under the strict policy it fills in a later second. */
  ghost predicate FollowsExit(strict: bool, entry: Row, exit: Row) {
    && exit.kind == Exit && exit.side == entry.side && exit.shape == entry.shape
    && 0 <= entry.bar - exit.bar <= REENTRY_TIMEOUT
    && (entry.reason == SLReentry <==> exit.reason == SL)
    && (strict ==> entry.second > exit.second)
  }

  ghost predicate FollowsLock(strict: bool, entry: Row, lock: Lock) {
    && lock.side == entry.side && lock.shape == entry.shape
    && 0 <= entry.bar - lock.bar <= REENTRY_TIMEOUT
    && (strict ==> entry.second > lock.second)
  }

  ghost predicate Origin(strict: bool, ledger: seq<Row>, locks: seq<Lock>, j: nat)
    requires j < |ledger|
  {
    if ledger[j].reason == ZeroInitialReentry
    then exists k :: 0 <= k < |locks| && FollowsLock(strict, ledger[j], locks[k])
    else j > 0 && FollowsExit(strict, ledger[j], ledger[j - 1])
  }

  ghost predicate Origins(strict: bool, ledger: seq<Row>, locks: seq<Lock>) {
    forall j :: 0 <= j < |ledger| && ledger[j].kind != Exit ==> Origin(strict, ledger, locks, j)
  }

  /** A recorded breakout is one: the second's extreme broke out of the bar's levels, or an event of
      that bar and side had been touched. */
  ghost predicate Genuine(cfg: Config, feed: Feed, lock: Lock) {
    && 0 <= lock.bar < |feed.signal| && 0 <= lock.second < |feed.seconds|
    && lock.time == feed.seconds[lock.second].time
    && var row, second := feed.signal[lock.bar], feed.seconds[lock.second];
       match lock.event
       case None =>
         var breakout := BreakoutOf(row, lock.side, Favourable(lock.side, second.high, second.low), cfg.withT3);
         breakout.Some? && breakout.value.shape == lock.shape
       case Some(event) =>
         event in EventsOf(feed, row.time, lock.side) && event.touchTime <= lock.time && event.shape == lock.shape
  }

  ghost predicate AllGenuine(cfg: Config, feed: Feed, locks: seq<Lock>) {
    forall k :: 0 <= k < |locks| ==> Genuine(cfg, feed, locks[k])
  }

  // ----- the invariant -----

  /** Without a position, an open exit window is that of the last row. */
  ghost predicate ExitWindowOk(s: State, i: int) {
    && s.exit.bar <= i
    && (s.position.None? && s.exit.side.Some? ==>
          |s.ledger| > 0 &&
          var last := s.ledger[|s.ledger| - 1];
          last.kind == Exit && last.side == s.exit.side.value && last.reason == s.exitReason
          && last.bar == s.exit.bar && last.second == s.exit.second && last.shape == s.exit.shape)
  }

  /** An open breakout window is that of the last breakout. */
  ghost predicate ZeroWindowOk(s: State, i: int) {
    && s.zero.bar <= i
    && (s.zero.side.Some? ==>
          |s.locks| > 0 &&
          var last := s.locks[|s.locks| - 1];
          last.side == s.zero.side.value && last.bar == s.zero.bar && last.second == s.zero.second
          && last.shape == s.zero.shape)
  }

  ghost predicate Provenance(cfg: Config, feed: Feed, s: State, i: int) {
    && Origins(cfg.strictFill, s.ledger, s.locks)
    && AllGenuine(cfg, feed, s.locks)
    && ExitWindowOk(s, i)
    && ZeroWindowOk(s, i)
  }

  // ----- growing histories -----

  lemma MoreLocks(strict: bool, ledger: seq<Row>, locks: seq<Lock>, lock: Lock)
    requires Origins(strict, ledger, locks)
    ensures Origins(strict, ledger, locks + [lock])
  {
    hide FollowsLock, FollowsExit;
    var more := locks + [lock];
    forall j | 0 <= j < |ledger| && ledger[j].kind != Exit ensures Origin(strict, ledger, more, j) {
      assert Origin(strict, ledger, locks, j);
      if ledger[j].reason == ZeroInitialReentry {
        var k :| 0 <= k < |locks| && FollowsLock(strict, ledger[j], locks[k]);
        assert more[k] == locks[k];
      }
    }
  }

  lemma MoreRows(strict: bool, ledger: seq<Row>, locks: seq<Lock>, row: Row)
    requires Origins(strict, ledger, locks)
    requires row.kind != Exit ==> Origin(strict, ledger + [row], locks, |ledger|)
    ensures Origins(strict, ledger + [row], locks)
  {
    hide FollowsLock, FollowsExit;
    var more := ledger + [row];
    forall j | 0 <= j < |more| && more[j].kind != Exit ensures Origin(strict, more, locks, j) {
      if j < |ledger| {
        assert Origin(strict, ledger, locks, j);
      }
    }
  }

  lemma FirstUnconsumedIsListed(events: seq<ExternalEvent>, consumed: set<string>)
    ensures var first := FirstUnconsumed(events, consumed); first.Some? ==> first.value in events
  {}

  // ----- the steps -----

  lemma LockKeeps(cfg: Config, feed: Feed, s: State, here: Here, side: Side)
    requires Provenance(cfg, feed, s, here.bar)
    requires here.bar < |feed.signal| && here.pos < |feed.seconds|
    requires here.second == feed.seconds[here.pos] && here.sig.row == feed.signal[here.bar]
    ensures Provenance(cfg, feed, TryLock(cfg, s, here, side), here.bar)
  {
    hide Origins, BreakoutOf, LockAllowed;
    var t := TryLock(cfg, s, here, side);
    if t != s {
      MoreLocks(cfg.strictFill, s.ledger, s.locks, t.locks[|s.locks|]);
    }
  }

  lemma ExternalKeeps(cfg: Config, feed: Feed, s: State, here: Here, side: Side)
    requires Provenance(cfg, feed, s, here.bar)
    requires here.bar < |feed.signal| && here.pos < |feed.seconds|
    requires here.second == feed.seconds[here.pos] && here.sig.row == feed.signal[here.bar]
    ensures Provenance(cfg, feed, TryExternal(feed, s, here, side), here.bar)
  {
    hide Origins, BreakoutOf, EventsOf, FirstUnconsumed;
    var events := EventsOf(feed, here.sig.row.time, side);
    FirstUnconsumedIsListed(events, s.consumed);
    var t := TryExternal(feed, s, here, side);
    if t != s {
      MoreLocks(cfg.strictFill, s.ledger, s.locks, t.locks[|s.locks|]);
    }
  }

  /** A fill through a window opens a position that follows from it. */
  lemma OpenKeeps(cfg: Config, feed: Feed, s: State, here: Here, side: Side, raw: real)
    requires Provenance(cfg, feed, s, here.bar) && s.position.None?
    requires WindowOpen(s.exit, side, here.bar) || WindowOpen(s.zero, side, here.bar)
    requires var w := if WindowOpen(s.exit, side, here.bar) then s.exit else s.zero;
      cfg.strictFill ==> here.pos > w.second
    ensures var afterExit := WindowOpen(s.exit, side, here.bar);
      var w := if afterExit then s.exit else s.zero;
      var reason := if !afterExit then ZeroInitialReentry else if s.exitReason == SL then SLReentry else PTReentry;
      Provenance(cfg, feed, OpenPosition(cfg, s, here, side, raw, reason, w), here.bar)
  {
    hide Origins, AllGenuine, OrderShare, AtrStop;
    var afterExit := WindowOpen(s.exit, side, here.bar);
    var w := if afterExit then s.exit else s.zero;
    var reason := if !afterExit then ZeroInitialReentry else if s.exitReason == SL then SLReentry else PTReentry;
    var t := OpenPosition(cfg, s, here, side, raw, reason, w);
    var row := t.ledger[|s.ledger|];
    if !afterExit {
      assert FollowsLock(cfg.strictFill, row, s.locks[|s.locks| - 1]);
    }
    MoreRows(cfg.strictFill, s.ledger, s.locks, row);
  }

  lemma OpenLeavesWindows(cfg: Config, s: State, here: Here, side: Side, raw: real, reason: Reason, w: Window)
    ensures var t := OpenPosition(cfg, s, here, side, raw, reason, w);
      t.position.Some? && t.exit == s.exit && t.zero == s.zero && t.exitReason == s.exitReason && t.locks == s.locks
  {
    hide OrderShare, AtrStop, EntryPrice;
  }

  lemma FillKeeps(cfg: Config, feed: Feed, s: State, here: Here, side: Side)
    requires Provenance(cfg, feed, s, here.bar) && s.position.None?
    ensures Provenance(cfg, feed, TryFill(cfg, s, here, side), here.bar)
  {
    hide Origins, AllGenuine, OpenPosition, ReentryPrice;
    var afterExit := WindowOpen(s.exit, side, here.bar);
    var w := if afterExit then s.exit else s.zero;
    var price := ReentryPrice(here.sig, side, ReentryAtr(cfg, side));
    if (afterExit || WindowOpen(s.zero, side, here.bar)) && FillTriggered(cfg, here, side, price, w.second) {
      var reason := if !afterExit then ZeroInitialReentry else if s.exitReason == SL then SLReentry else PTReentry;
      OpenKeeps(cfg, feed, s, here, side, price.value);
      OpenLeavesWindows(cfg, s, here, side, price.value, reason, w);
    }
  }

  lemma LocksStayFlat(cfg: Config, feed: Feed, s: State, here: Here, side: Side)
    ensures TryLock(cfg, s, here, side).position == s.position
    ensures TryExternal(feed, s, here, side).position == s.position
  {
    hide BreakoutOf, EventReady, LockAllowed;
  }

  lemma FlatKeeps(cfg: Config, feed: Feed, s: State, here: Here, side: Side)
    requires Provenance(cfg, feed, s, here.bar) && s.position.None?
    requires here.bar < |feed.signal| && here.pos < |feed.seconds|
    requires here.second == feed.seconds[here.pos] && here.sig.row == feed.signal[here.bar]
    ensures Provenance(cfg, feed, FlatStep(cfg, feed, s, here, side), here.bar)
  {
    hide Provenance, TryLock, TryExternal, TryFill;
    var s1 := TryLock(cfg, s, here, side);
    LockKeeps(cfg, feed, s, here, side);
    ExternalKeeps(cfg, feed, s1, here, side);
    LocksStayFlat(cfg, feed, s, here, side);
    LocksStayFlat(cfg, feed, s1, here, side);
    FillKeeps(cfg, feed, TryExternal(feed, s1, here, side), here, side);
  }

  lemma HoldKeeps(cfg: Config, feed: Feed, s: State, here: Here, p: Position)
    requires Provenance(cfg, feed, s, here.bar) && s.position == Some(p)
    ensures Provenance(cfg, feed, HoldStep(cfg, s, here, p), here.bar)
  {
    hide Origins, AllGenuine, ExitTrigger, PostCheck, TrailedAt, ExitPrice, Pnl;
    var p1 := PreCheck(cfg, here, p);
    var trigger := ExitTrigger(cfg, here, p1);
    if trigger.Some? {
      var t := HoldStep(cfg, s, here, p);
      MoreRows(cfg.strictFill, s.ledger, s.locks, t.ledger[|s.ledger|]);
    }
  }

  /** Provenance looks at windows, histories and the position only. */
  ghost predicate SameOrigins(s: State, t: State) {
    && s.ledger == t.ledger && s.locks == t.locks && s.position == t.position
    && s.exit == t.exit && s.exitReason == t.exitReason && s.zero == t.zero
  }

  lemma OriginsCarry(cfg: Config, feed: Feed, s: State, t: State, i: int)
    requires Provenance(cfg, feed, s, i) && SameOrigins(s, t)
    ensures Provenance(cfg, feed, t, i)
  {
    hide Origins, AllGenuine;
  }

  lemma StepKeeps(cfg: Config, feed: Feed, i: nat, start: nat, pos: nat, s: State)
    requires i < |feed.signal| && pos < |feed.seconds| && feed.signal[i].atr.Some?
    requires Provenance(cfg, feed, s, i)
    ensures Provenance(cfg, feed, StepSecond(cfg, feed, i, start, pos, s), i)
  {
    hide Provenance, FlatStep, HoldStep, SideReady, Forced, Higher, Lower;
    var here := HereAt(cfg, feed, i, start, pos, s);
    var s1 := Observe(cfg, feed, s, here);
    OriginsCarry(cfg, feed, s, s1, i);
    if s1.position.Some? {
      HoldKeeps(cfg, feed, s1, here, s1.position.value);
    } else {
      FlatKeeps(cfg, feed, s1, here, Long);
      FlatKeeps(cfg, feed, s1, here, Short);
    }
  }

  lemma StartKeeps(cfg: Config, feed: Feed, s: State, i: nat)
    requires Provenance(cfg, feed, s, i)
    ensures Provenance(cfg, feed, s, i + 1) && Provenance(cfg, feed, StartBar(s, i), i)
  {
    hide Origins, AllGenuine;
  }

  lemma ProvenanceKept(cfg: Config, feed: Feed, initial: real)
    ensures Kept(cfg, feed, (s, i) => Provenance(cfg, feed, s, i), initial)
  {
    hide StepSecond, Provenance;
    InitialProvenance(cfg, feed, initial);
    forall s, i: nat | Provenance(cfg, feed, s, i)
      ensures Provenance(cfg, feed, s, i + 1) && Provenance(cfg, feed, StartBar(s, i), i)
    {
      StartKeeps(cfg, feed, s, i);
    }
    forall s, i: nat, start: nat, pos: nat
      | i < |feed.signal| && start <= pos < |feed.seconds| && feed.signal[i].atr.Some? && Provenance(cfg, feed, s, i)
      ensures Provenance(cfg, feed, StepSecond(cfg, feed, i, start, pos, s), i)
    {
      StepKeeps(cfg, feed, i, start, pos, s);
    }
  }

  lemma InitialProvenance(cfg: Config, feed: Feed, initial: real)
    ensures Provenance(cfg, feed, Initial(initial), 0)
  {}

  /** In the ledger of a whole replay every SL- or PT-re-entry directly follows an exit row of its
      side, every other entry a genuine breakout of its side, at most one bar earlier, and under the
      strict policy in an earlier second. */
  lemma ReentryProvenance(cfg: Config, feed: Feed, initial: real)
    ensures var s := Replay(cfg, feed, initial);
      Origins(cfg.strictFill, s.ledger, s.locks) && AllGenuine(cfg, feed, s.locks)
  {
    hide RunBars, Kept, Origins, AllGenuine, ExitPrice, Pnl;
    var n := if |feed.signal| == 0 then 0 else |feed.signal| - 1;
    var s, t := RunBars(cfg, feed, n, initial), Replay(cfg, feed, initial);
    ProvenanceKept(cfg, feed, initial);
    BarsKeep(cfg, feed, (s, i) => Provenance(cfg, feed, s, i), initial, n);
    if s.position.Some? && feed.seconds != [] {
      MoreRows(cfg.strictFill, s.ledger, s.locks, t.ledger[|s.ledger|]);
    }
  }
}
