/** Each breakout leads to at most one entry through its window: entries and breakouts match one to one,
    in order, and no bar has two such entries. */
module EngineMatching {
  import opened EngineProvenance
  import opened Market
  import opened Options
  import opened SecondReplay

  /** An entry through a breakout window. */
  predicate Through(row: Row) { row.kind != Exit && row.reason == ZeroInitialReentry }

  /** `names` gives for every entry through a window the breakout it follows: among the first `free`
      ones, and a later one for a later entry. */
  ghost predicate MatchedBy(strict: bool, ledger: seq<Row>, locks: seq<Lock>, free: int, names: seq<nat>) {
    && free <= |locks| && |names| == |ledger|
    && (forall j :: 0 <= j < |ledger| && Through(ledger[j]) ==>
          names[j] < free && FollowsLock(strict, ledger[j], locks[names[j]]))
    && (forall j, k :: 0 <= j < k < |ledger| && Through(ledger[j]) && Through(ledger[k]) ==> names[j] < names[k])
  }

  ghost predicate Matched(strict: bool, ledger: seq<Row>, locks: seq<Lock>, free: int) {
    exists names :: MatchedBy(strict, ledger, locks, free, names)
  }

  /** While a window is open, its breakout, which is the last one, has not been used. */
  function Free(s: State): int { if s.zero.side.Some? then |s.locks| - 1 else |s.locks| }

  // ----- growing histories -----

  lemma Widened(strict: bool, ledger: seq<Row>, locks: seq<Lock>, free: int, more: int)
    requires Matched(strict, ledger, locks, free) && free <= more <= |locks|
    ensures Matched(strict, ledger, locks, more)
  {
    hide FollowsLock;
    var names :| MatchedBy(strict, ledger, locks, free, names);
    assert MatchedBy(strict, ledger, locks, more, names);
  }

  lemma MoreLocks(strict: bool, ledger: seq<Row>, locks: seq<Lock>, free: int, lock: Lock)
    requires Matched(strict, ledger, locks, free)
    ensures Matched(strict, ledger, locks + [lock], |locks|)
  {
    hide FollowsLock;
    var names :| MatchedBy(strict, ledger, locks, free, names);
    assert MatchedBy(strict, ledger, locks + [lock], |locks|, names);
  }

  lemma OtherRow(strict: bool, ledger: seq<Row>, locks: seq<Lock>, free: int, row: Row)
    requires Matched(strict, ledger, locks, free) && !Through(row)
    ensures Matched(strict, ledger + [row], locks, free)
  {
    hide FollowsLock, Through;
    var names :| MatchedBy(strict, ledger, locks, free, names);
    assert MatchedBy(strict, ledger + [row], locks, free, names + [0]);
  }

  /** The entry uses the last breakout. */
  lemma ThroughRow(strict: bool, ledger: seq<Row>, locks: seq<Lock>, row: Row)
    requires locks != [] && Matched(strict, ledger, locks, |locks| - 1)
    requires FollowsLock(strict, row, locks[|locks| - 1])
    ensures Matched(strict, ledger + [row], locks, |locks|)
  {
    hide FollowsLock, Through;
    var last: nat := |locks| - 1;
    var names: seq<nat> :| MatchedBy(strict, ledger, locks, last, names);
    assert MatchedBy(strict, ledger + [row], locks, |locks|, names + [last]);
  }

  // ----- no two in a bar -----

  ghost predicate BarsRise(ledger: seq<Row>) {
    forall j, k :: 0 <= j < k < |ledger| && Through(ledger[j]) && Through(ledger[k]) ==> ledger[j].bar < ledger[k].bar
  }

  ghost predicate ThroughIn(ledger: seq<Row>, bar: int) {
    exists j :: 0 <= j < |ledger| && Through(ledger[j]) && ledger[j].bar == bar
  }

  ghost predicate RowsUpTo(ledger: seq<Row>, bar: int) {
    forall j :: 0 <= j < |ledger| ==> ledger[j].bar <= bar
  }

  lemma RiseSnoc(ledger: seq<Row>, row: Row)
    requires BarsRise(ledger) && RowsUpTo(ledger, row.bar)
    requires Through(row) ==> !ThroughIn(ledger, row.bar)
    ensures BarsRise(ledger + [row]) && RowsUpTo(ledger + [row], row.bar)
    ensures ThroughIn(ledger + [row], row.bar) <==> ThroughIn(ledger, row.bar) || Through(row)
  {
    hide Through;
    var more := ledger + [row];
    assert more[|ledger|] == row;
    if ThroughIn(ledger, row.bar) {
      var j :| 0 <= j < |ledger| && Through(ledger[j]) && ledger[j].bar == row.bar;
      assert more[j] == ledger[j];
    }
  }

  // ----- the invariant -----

  ghost predicate MatchOk(cfg: Config, s: State) {
    Matched(cfg.strictFill, s.ledger, s.locks, Free(s)) && BarsRise(s.ledger)
  }

  ghost predicate BetweenBars(cfg: Config, feed: Feed, s: State, i: int) {
    Provenance(cfg, feed, s, i) && MatchOk(cfg, s) && RowsUpTo(s.ledger, i - 1)
  }

  /** After an entry through a window, no window is open for the rest of the bar. */
  ghost predicate BarOk(s: State, i: int) {
    RowsUpTo(s.ledger, i) && (ThroughIn(s.ledger, i) ==> s.tradesInBar > 0 && s.zero.side.None?)
  }

  ghost predicate InsideBar(cfg: Config, feed: Feed, s: State, i: int) {
    Provenance(cfg, feed, s, i) && MatchOk(cfg, s) && BarOk(s, i)
  }

  lemma LockMatches(cfg: Config, feed: Feed, s: State, here: Here, side: Side)
    requires MatchOk(cfg, s) && BarOk(s, here.bar)
    ensures var t := TryLock(cfg, s, here, side); MatchOk(cfg, t) && BarOk(t, here.bar)
  {
    hide Matched, BarsRise, ThroughIn, RowsUpTo, BreakoutOf, LockAllowed;
    var t := TryLock(cfg, s, here, side);
    if t != s {
      MoreLocks(cfg.strictFill, s.ledger, s.locks, Free(s), t.locks[|s.locks|]);
    }
  }

  lemma ExternalMatches(cfg: Config, feed: Feed, s: State, here: Here, side: Side)
    requires MatchOk(cfg, s) && BarOk(s, here.bar)
    ensures var t := TryExternal(feed, s, here, side); MatchOk(cfg, t) && BarOk(t, here.bar)
  {
    hide Matched, BarsRise, ThroughIn, RowsUpTo, EventReady, EventsOf;
    var t := TryExternal(feed, s, here, side);
    if t != s {
      MoreLocks(cfg.strictFill, s.ledger, s.locks, Free(s), t.locks[|s.locks|]);
    }
  }

  /** What a fill does to ledger and windows. */
  lemma FillShape(cfg: Config, s: State, here: Here, side: Side)
    ensures var t := TryFill(cfg, s, here, side);
      var afterExit, afterLock := WindowOpen(s.exit, side, here.bar), WindowOpen(s.zero, side, here.bar);
      && t.locks == s.locks && (t.zero == s.zero || t.zero.side.None?)
      && (t.ledger == s.ledger ||
            (t.ledger == s.ledger + [t.ledger[|s.ledger|]] && t.tradesInBar == s.tradesInBar + 1
             && (afterLock ==> t.zero.side.None?)
             && var row := t.ledger[|s.ledger|];
                row.kind != Exit && row.side == side && row.bar == here.bar && row.second == here.pos
                && (Through(row) <==> !afterExit) && (!afterExit ==> afterLock && row.shape == s.zero.shape)
                && (!afterExit && cfg.strictFill ==> here.pos > s.zero.second)))
      && t.tradesInBar >= s.tradesInBar
  {
    hide AtrStop, EntryPrice, OrderNotional, ReentryPrice;
  }

  lemma FillMatches(cfg: Config, feed: Feed, s: State, here: Here, side: Side)
    requires Provenance(cfg, feed, s, here.bar) && MatchOk(cfg, s) && BarOk(s, here.bar)
    ensures var t := TryFill(cfg, s, here, side); MatchOk(cfg, t) && BarOk(t, here.bar)
  {
    hide Matched, BarsRise, ThroughIn, RowsUpTo, TryFill, Origins, AllGenuine, ExitWindowOk, Through;
    var t := TryFill(cfg, s, here, side);
    FillShape(cfg, s, here, side);
    if t.ledger == s.ledger {
      Widened(cfg.strictFill, s.ledger, s.locks, Free(s), Free(t));
    } else {
      var row := t.ledger[|s.ledger|];
      RiseSnoc(s.ledger, row);
      if Through(row) {
        ThroughRow(cfg.strictFill, s.ledger, s.locks, row);
      } else {
        OtherRow(cfg.strictFill, s.ledger, s.locks, Free(s), row);
        Widened(cfg.strictFill, t.ledger, s.locks, Free(s), Free(t));
      }
    }
  }

  lemma HoldMatches(cfg: Config, feed: Feed, s: State, here: Here, p: Position)
    requires MatchOk(cfg, s) && BarOk(s, here.bar)
    ensures var t := HoldStep(cfg, s, here, p); MatchOk(cfg, t) && BarOk(t, here.bar)
  {
    hide Matched, BarsRise, ThroughIn, RowsUpTo, PreCheck, PostCheck, ExitTrigger, ExitPrice, Pnl, TrailAllowed;
    var t := HoldStep(cfg, s, here, p);
    if t.ledger != s.ledger {
      var row := t.ledger[|s.ledger|];
      OtherRow(cfg.strictFill, s.ledger, s.locks, Free(s), row);
      RiseSnoc(s.ledger, row);
    }
  }

  lemma FlatMatches(cfg: Config, feed: Feed, s: State, here: Here, side: Side)
    requires Provenance(cfg, feed, s, here.bar) && s.position.None? && MatchOk(cfg, s) && BarOk(s, here.bar)
    requires here.bar < |feed.signal| && here.pos < |feed.seconds|
    requires here.second == feed.seconds[here.pos] && here.sig.row == feed.signal[here.bar]
    ensures InsideBar(cfg, feed, FlatStep(cfg, feed, s, here, side), here.bar)
  {
    hide Provenance, MatchOk, BarOk, TryLock, TryExternal, TryFill;
    var s1 := TryLock(cfg, s, here, side);
    var s2 := TryExternal(feed, s1, here, side);
    LockMatches(cfg, feed, s, here, side);
    ExternalMatches(cfg, feed, s1, here, side);
    LockKeeps(cfg, feed, s, here, side);
    ExternalKeeps(cfg, feed, s1, here, side);
    FillMatches(cfg, feed, s2, here, side);
    FlatKeeps(cfg, feed, s, here, side);
  }

  lemma StepMatches(cfg: Config, feed: Feed, i: nat, start: nat, pos: nat, s: State)
    requires i < |feed.signal| && pos < |feed.seconds| && feed.signal[i].atr.Some?
    requires InsideBar(cfg, feed, s, i)
    ensures InsideBar(cfg, feed, StepSecond(cfg, feed, i, start, pos, s), i)
  {
    hide Provenance, Matched, BarsRise, ThroughIn, RowsUpTo, FlatStep, HoldStep, SideReady, Forced, Higher, Lower;
    var here := HereAt(cfg, feed, i, start, pos, s);
    var s1 := Observe(cfg, feed, s, here);
    OriginsCarry(cfg, feed, s, s1, i);
    if s1.position.Some? {
      HoldMatches(cfg, feed, s1, here, s1.position.value);
      HoldKeeps(cfg, feed, s1, here, s1.position.value);
    } else {
      FlatMatches(cfg, feed, s1, here, Long);
      FlatMatches(cfg, feed, s1, here, Short);
    }
  }

  lemma NothingIn(ledger: seq<Row>, bar: int)
    requires RowsUpTo(ledger, bar - 1)
    ensures !ThroughIn(ledger, bar) && RowsUpTo(ledger, bar)
  {}

  lemma BarsApart(cfg: Config, feed: Feed, s: State, i: nat)
    ensures BetweenBars(cfg, feed, s, i) ==> BetweenBars(cfg, feed, s, i + 1) && InsideBar(cfg, feed, StartBar(s, i), i)
    ensures InsideBar(cfg, feed, s, i) ==> BetweenBars(cfg, feed, s, i + 1)
  {
    hide Provenance, Matched, BarsRise, ThroughIn, RowsUpTo;
    if BetweenBars(cfg, feed, s, i) {
      StartKeeps(cfg, feed, s, i);
      NothingIn(s.ledger, i);
      Widened(cfg.strictFill, s.ledger, s.locks, Free(s), Free(StartBar(s, i)));
    } else if InsideBar(cfg, feed, s, i) {
      StartKeeps(cfg, feed, s, i);
    }
  }

  lemma MatchKept(cfg: Config, feed: Feed, initial: real)
    ensures PhasesKept(cfg, feed, (s, i) => BetweenBars(cfg, feed, s, i), (s, i) => InsideBar(cfg, feed, s, i), initial)
  {
    hide BetweenBars, InsideBar, StepSecond, StartBar;
    InitialMatch(cfg, feed, initial);
    forall s, i: nat | BetweenBars(cfg, feed, s, i)
      ensures BetweenBars(cfg, feed, s, i + 1) && InsideBar(cfg, feed, StartBar(s, i), i)
    {
      BarsApart(cfg, feed, s, i);
    }
    forall s, i: nat | InsideBar(cfg, feed, s, i) ensures BetweenBars(cfg, feed, s, i + 1) {
      BarsApart(cfg, feed, s, i);
    }
    forall s, i: nat, start: nat, pos: nat
      | i < |feed.signal| && start <= pos < |feed.seconds| && feed.signal[i].atr.Some? && InsideBar(cfg, feed, s, i)
      ensures InsideBar(cfg, feed, StepSecond(cfg, feed, i, start, pos, s), i)
    {
      StepMatches(cfg, feed, i, start, pos, s);
    }
  }

  lemma InitialMatch(cfg: Config, feed: Feed, initial: real)
    ensures BetweenBars(cfg, feed, Initial(initial), 0)
  {
    InitialProvenance(cfg, feed, initial);
    assert MatchedBy(cfg.strictFill, [], [], 0, []);
  }

  /** In the ledger of a whole replay the entries through breakout windows match breakouts one to one and
      in order, each following its own; and they fall into different bars. */
  lemma OneEntryPerBreakout(cfg: Config, feed: Feed, initial: real)
    ensures var s := Replay(cfg, feed, initial);
      && Matched(cfg.strictFill, s.ledger, s.locks, |s.locks|)
      && BarsRise(s.ledger)
  {
    hide RunBars, PhasesKept, Matched, BarsRise, ExitPrice, Pnl, Provenance, RowsUpTo;
    var n := if |feed.signal| == 0 then 0 else |feed.signal| - 1;
    MatchKept(cfg, feed, initial);
    PhasesKeep(cfg, feed, (s, i) => BetweenBars(cfg, feed, s, i), (s, i) => InsideBar(cfg, feed, s, i), initial, n);
    var s, t := RunBars(cfg, feed, n, initial), Replay(cfg, feed, initial);
    Widened(cfg.strictFill, s.ledger, s.locks, Free(s), |s.locks|);
    if t.ledger != s.ledger {
      var row := t.ledger[|s.ledger|];
      OtherRow(cfg.strictFill, s.ledger, s.locks, |s.locks|, row);
      LateRow(s.ledger, row);
    }
  }

  /** The row of the final mark is not an entry. */
  lemma LateRow(ledger: seq<Row>, row: Row)
    requires BarsRise(ledger) && !Through(row)
    ensures BarsRise(ledger + [row])
  {}
}
