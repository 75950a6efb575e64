/** When a position is left, at what price, and what that leaves in the books: decided by the feed and the
    seconds since the entry. */
module EngineExits {
  import opened EngineStops
  import opened FeedView
  import opened Market
  import opened Options
  import opened Reals
  import opened Rulebook
  import opened SecondReplay
  import opened Steps
  import opened StopHistory

  // ----- what should happen -----

  predicate Expired(cfg: Config, entry: Row, now: int) {
    && entry.shape == T3_SWING && cfg.overrides.maxHoldSeconds.Some?
    && (now - entry.time) as real >= 1000.0 * cfg.overrides.maxHoldSeconds.value
  }

  /** What a second does to a position that came in with `entry`, whose stop stands at `stop`: the stop
      first, if it may act yet, then the guard of a protected position, then the time cap. */
  function Outcome(cfg: Config, entry: Row, stop: real, isProtected: bool, row: SignalRow, second: Second): Option<(real, Reason)> {
    var guard := Guard(entry.side, row);
    if HasWaited(entry.shape, cfg.overrides.minHoldBeforeStop, entry.time, second.time) && Touches(entry.side, second, stop)
    then Some((stop, SL))
    else if isProtected && guard.Some? && Touches(entry.side, second, guard.value) then Some((guard.value, PT))
    else if Expired(cfg, entry, second.time) then Some((second.close, T3TimeCap))
    else None
  }

  /** The books after leaving: flat, one exit row at the slipped price, and the window of the side open. */
  ghost predicate Leaves(cfg: Config, s: State, t: State, entry: Row, raw: real, reason: Reason, step: Step, now: int) {
    var price := Left(entry.side, raw, cfg.slippage);
    && t.position.None?
    && t.balance == s.balance + Made(entry.side, entry.price, entry.notional, price) - entry.notional * 0.001
    && t.ledger == s.ledger + [Row(now, Exit, price, reason, entry.notional, t.balance, entry.shape, entry.side,
                                   step.bar, step.second, 0.0, 0.0)]
    && t.exit.side == Some(entry.side) && t.exit.shape == entry.shape && t.exit.multiplier == entry.sizeMultiplier
    && t.exit.bar == step.bar && t.exit.second == step.second && t.exitReason == reason
    && s.position.Some? && t.exit.eventKey == s.position.value.eventKey
    && Elsewhere(s, t)
  }

  /** Nothing happens to breakouts, to their window and to the bar's counters. */
  ghost predicate Elsewhere(s: State, t: State) {
    && t.zero == s.zero && t.locks == s.locks && t.consumed == s.consumed && t.tradesInBar == s.tradesInBar
    && t.lockedThisBar == s.lockedThisBar && t.lastT3Lock == s.lastT3Lock
  }

  /** The books are as before, and the position has seen one more second. */
  ghost predicate Stays(s: State, t: State, seen: Observation) {
    && t.position.Some? && t.ledger == s.ledger && t.balance == s.balance && t.held == s.held + [seen]
    && t.exit == s.exit && t.exitReason == s.exitReason && Elsewhere(s, t)
    && s.position.Some? && t.position.value.eventKey == s.position.value.eventKey
  }

  // ----- what happens -----

  lemma TriggerIsOutcome(cfg: Config, here: Here, p: Position, entry: Row)
    requires FromEntry(cfg, p, entry)
    ensures ExitTrigger(cfg, here, p) == Outcome(cfg, entry, p.stop, p.isProtected, here.sig.row, here.second)
  {
    hide AllowedAfter, HasWaited;
    WaitedIsAllowed(p, cfg.overrides.minHoldBeforeStop, here.second.time);
    if cfg.overrides.maxHoldSeconds.Some? {
      ShareAtLeast((here.second.time - p.entryTime) as real, 1000.0, cfg.overrides.maxHoldSeconds.value);
    }
  }

  lemma CloseLeaves(cfg: Config, s: State, here: Here, p: Position, entry: Row, raw: real, reason: Reason)
    requires FromEntry(cfg, p, entry) && s.position.Some? && s.position.value.eventKey == p.eventKey
    ensures var t := CloseAt(cfg, s, p, raw, reason, here.second.time, here.bar, here.pos)
        .(exit := Window(Some(p.side), p.shape, p.sizeMultiplier, p.eventKey, here.bar, here.pos), exitReason := reason);
      Leaves(cfg, s, t, entry, raw, reason, Step(here.bar, here.pos), here.second.time)
  {
    hide PnlOf, Made, ExitPrice, Left;
    SlippedPrices(p.side, raw, cfg.slippage);
    MadeIsPnl(p.side, p.entryPrice, p.notional, Left(p.side, raw, cfg.slippage));
  }

  lemma PostCheckKeepsKey(cfg: Config, here: Here, p: Position)
    ensures PostCheck(cfg, here, p).eventKey == p.eventKey
  {
    hide TrailedAt, TrailAllowed, NoWorse, ProtectTarget;
  }

  lemma HoldDecides(cfg: Config, s: State, here: Here, p: Position, entry: Row)
    requires s.position == Some(p) && FromEntry(cfg, p, entry)
    ensures var t, outcome := HoldStep(cfg, s, here, p),
        Outcome(cfg, entry, PreCheck(cfg, here, p).stop, p.isProtected, here.sig.row, here.second);
      if outcome.Some?
      then Leaves(cfg, s, t, entry, outcome.value.0, outcome.value.1, Step(here.bar, here.pos), here.second.time)
      else Stays(s, t, SeenAt(cfg, here, p))
  {
    hide PreCheck, PostCheck, ExitTrigger, CloseAt, AllowedAfter, HasWaited, FromEntry, Leaves, Outcome;
    var p1 := PreCheck(cfg, here, p);
    PreCheckEvaluates(cfg, here, p);
    PostCheckKeepsKey(cfg, here, p1);
    WaitedIsAllowed(p, cfg.overrides.minHoldBeforeTrail, here.second.time);
    EntryCarries(cfg, p, p1, entry);
    TriggerIsOutcome(cfg, here, p1, entry);
    var trigger := ExitTrigger(cfg, here, p1);
    if trigger.Some? {
      CloseLeaves(cfg, s, here, p1, entry, trigger.value.0, trigger.value.1);
    }
  }

  lemma StepHolds(cfg: Config, feed: Feed, i: nat, start: nat, pos: nat, s: State)
    requires i < |feed.signal| && pos < |feed.seconds| && feed.signal[i].atr.Some? && s.position.Some?
    ensures var here := HereAt(cfg, feed, i, start, pos, s);
      StepSecond(cfg, feed, i, start, pos, s) == HoldStep(cfg, Observe(cfg, feed, s, here), here, s.position.value)
  {
    hide HoldStep, FlatStep, SideReady, SignalAt, Forced, Higher, Lower;
  }

  /** The books do not depend on what is observed. */
  lemma ObservingIsBlind(cfg: Config, feed: Feed, s: State, here: Here, t: State, entry: Row, raw: real, reason: Reason,
                         step: Step, now: int, seen: Observation)
    ensures var s1 := Observe(cfg, feed, s, here);
      && s1.position == s.position && s1.ledger == s.ledger && s1.held == s.held
      && (Leaves(cfg, s1, t, entry, raw, reason, step, now) ==> Leaves(cfg, s, t, entry, raw, reason, step, now))
      && (Stays(s1, t, seen) ==> Stays(s, t, seen))
  {
    hide Made, Left, Forced, Higher, Lower;
  }

  /** In every second of a run that finds a position open: its stop stands at the best of the ATR stop of
      its entry and all candidates up to the evaluation that opens the second, and the second does to it
      exactly what stop, guard and time cap say. It survives if and only if none of them takes it out; if
      one does, the next state is flat and its last row is that exit. */
  lemma ExitsExactly(cfg: Config, feed: Feed, i: nat, pos: nat, initial: real) returns (stop: real)
    requires IsStep(feed, Step(i, pos)) && StateAt(cfg, feed, i, pos, initial).position.Some?
    ensures var s, t := StateAt(cfg, feed, i, pos, initial), StateAt(cfg, feed, i, pos + 1, initial);
      var p := s.position.value;
      s.ledger != [] && FromEntry(cfg, p, s.ledger[|s.ledger| - 1]) &&
      var entry := s.ledger[|s.ledger| - 1];
      var seen := SeenOf(cfg, feed, p, Step(i, pos));
      var isProtected := entry.reason == PTReentry || ReachedProtection(cfg, p, s.held);
      var outcome := Outcome(cfg, entry, stop, isProtected, feed.signal[i], feed.seconds[pos]);
      && HeldOk(cfg, feed, s, StepsUpTo(feed, i, pos))
      && IsBest(TradeOf(p), RuleOf(cfg, entry.shape), s.held + [seen], 2 * |s.held| + 1, stop)
      && (if outcome.Some?
          then Leaves(cfg, s, t, entry, outcome.value.0, outcome.value.1, Step(i, pos), feed.seconds[pos].time)
          else Stays(s, t, seen))
  {
    hide RunSeconds, RunBars, StartBar, IsBest, HeldOk, StartOf, EndOf, StepsUpTo, ReachedProtection, WaterAfter, HereOf, HereAt,
         RuleOf, SeenAt, Evaluated, PreCheck, Observe, HoldStep, StepSecond, Leaves, Stays, Outcome, FromEntry;
    StopsInside(cfg, feed, i, pos, initial);
    SeesTheFeed(cfg, feed, i, pos, initial);
    var s, here, step := StateAt(cfg, feed, i, pos, initial), HereOf(cfg, feed, Step(i, pos)), Step(i, pos);
    var t := StateAt(cfg, feed, i, pos + 1, initial);
    var p, entry := s.position.value, s.ledger[|s.ledger| - 1];
    var seen, isProtected := SeenAt(cfg, here, p), p.isProtected;
    stop := PreCheck(cfg, here, p).stop;
    PreCheckEvaluates(cfg, here, p);
    EntryHasShape(cfg, p, entry);
    FirstEvaluation(TradeOf(p), RuleOf(cfg, p.shape), s.held, seen, p.stop);
    StepHolds(cfg, feed, i, StartOf(feed, i), pos, s);
    NextState(cfg, feed, i, pos, initial);
    var s1 := Observe(cfg, feed, s, here);
    var outcome := Outcome(cfg, entry, stop, isProtected, here.sig.row, here.second);
    HereShows(cfg, feed, step);
    ObservingIsBlind(cfg, feed, s, here, t, entry, if outcome.Some? then outcome.value.0 else 0.0,
                     if outcome.Some? then outcome.value.1 else SL, step, here.second.time, seen);
    HoldDecides(cfg, s1, here, p, entry);
  }

  lemma EntryHasShape(cfg: Config, p: Position, entry: Row)
    requires FromEntry(cfg, p, entry)
    ensures p.shape == entry.shape
  {}
}
