/** The replay engine as the program runs it: variables updated second by second, proved to compute
    the replay. */
module SecondReplayEngine {
  import opened Market
  import opened Options
  import opened SecondReplay

  /** `_external_event_ready` */
  method NextEvent(events: seq<ExternalEvent>, now: int, consumed: set<string>) returns (event: Option<ExternalEvent>)
    ensures event == EventReady(events, now, consumed)
  {
    for k := 0 to |events|
      invariant FirstUnconsumed(events, consumed) == FirstUnconsumed(events[k..], consumed)
    {
      if events[k].key in consumed {
        continue;
      }
      if events[k].touchTime <= now {
        return Some(events[k]);
      }
      return None;
    }
    return None;
  }

  /** `_has_external_side_interest` */
  method HasInterest(events: seq<ExternalEvent>, consumed: set<string>) returns (interest: bool)
    ensures interest == FirstUnconsumed(events, consumed).Some?
  {
    for k := 0 to |events|
      invariant FirstUnconsumed(events, consumed) == FirstUnconsumed(events[k..], consumed)
    {
      if events[k].key !in consumed {
        return true;
      }
    }
    return false;
  }

  class Engine {
    const cfg: Config
    const feed: Feed
    var balance: real
    var position: Option<Position>
    var ledger: seq<Row>
    var exit: Window
    var exitReason: Reason
    var zero: Window
    var lastT3Lock: int
    var consumed: set<string>
    var tradesInBar: nat
    var lockedThisBar: bool
    var barHigh: Option<real>
    var barLow: Option<real>
    var forced: set<Side>
    ghost var locks: seq<Lock>
    ghost var held: seq<Observation>

    ghost function Now(): State
      reads this
    {
      State(balance, position, ledger, exit, exitReason, zero, lastT3Lock, consumed, tradesInBar, lockedThisBar,
            barHigh, barLow, forced, locks, held)
    }

    constructor (cfg: Config, feed: Feed, initial: real)
      ensures this.cfg == cfg && this.feed == feed && Now() == Initial(initial)
    {
      this.cfg, this.feed, balance := cfg, feed, initial;
      position, ledger, exit, exitReason, zero := None, [], NO_WINDOW, FinalMarkToMarket, NO_WINDOW;
      lastT3Lock, consumed, tradesInBar, lockedThisBar := NEVER, {}, 0, false;
      barHigh, barLow, forced, locks, held := None, None, {}, [], [];
    }

    method ResetCounters()
      modifies `tradesInBar, `lockedThisBar, `barHigh, `barLow, `forced
      ensures tradesInBar == 0 && !lockedThisBar && barHigh == None && barLow == None && forced == {}
    {
      tradesInBar, lockedThisBar, barHigh, barLow, forced := 0, false, None, None, {};
    }

    method ExpireWindows(i: nat)
      modifies `exit, `zero
      ensures exit == if i - old(exit).bar > REENTRY_TIMEOUT then Closed(old(exit)) else old(exit)
      ensures zero == if i - old(zero).bar > REENTRY_TIMEOUT then Closed(old(zero)) else old(zero)
    {
      if i - exit.bar > REENTRY_TIMEOUT {
        exit := Closed(exit);
      }
      if i - zero.bar > REENTRY_TIMEOUT {
        zero := Closed(zero);
      }
    }

    method BeginBar(i: nat)
      modifies `tradesInBar, `lockedThisBar, `barHigh, `barLow, `forced, `exit, `zero
      ensures Now() == StartBar(old(Now()), i)
    {
      ResetCounters();
      ExpireWindows(i);
    }

    /** The engine's own breakout. */
    method LockBreakout(here: Here, side: Side)
      modifies `lastT3Lock, `lockedThisBar, `zero, `locks
      ensures Now() == TryLock(cfg, old(Now()), here, side)
    {
      hide BreakoutOf;
      var breakout := BreakoutOf(here.sig.row, side, Favourable(side, here.second.high, here.second.low), cfg.withT3);
      if tradesInBar == 0 && breakout.Some? {
        var shape := breakout.value.shape;
        if cfg.rejectsQuality(side, shape, here.bar, here.pos) {
          return;
        }
        if shape != T3_SWING || cfg.t3CooldownBars <= 0 || here.bar - lastT3Lock > cfg.t3CooldownBars {
          var sizing := cfg.sizing(side, shape, here.bar, here.pos);
          if !(sizing.rejected && cfg.skipLock) {
            if shape == T3_SWING {
              lastT3Lock := here.bar;
            }
            lockedThisBar := true;
            zero := Window(Some(side), shape, sizing.multiplier, "", here.bar, here.pos);
            locks := locks + [Lock(side, here.bar, here.pos, here.second.time, shape, None)];
          }
        }
      }
    }

    method LockExternal(here: Here, side: Side)
      modifies `lockedThisBar, `zero, `consumed, `locks
      ensures Now() == TryExternal(feed, old(Now()), here, side)
    {
      hide EventReady;
      var event := NextEvent(EventsOf(feed, here.sig.row.time, side), here.second.time, consumed);
      if event.Some? && tradesInBar == 0 && !lockedThisBar {
        lockedThisBar := true;
        zero := Window(Some(side), event.value.shape, 1.0, event.value.key, here.bar, here.pos);
        consumed := consumed + {event.value.key};
        locks := locks + [Lock(side, here.bar, here.pos, here.second.time, event.value.shape, event)];
      }
    }

    method Open(here: Here, side: Side, raw: real, reason: Reason, w: Window)
      modifies `balance, `position, `ledger, `tradesInBar, `held
      ensures Now() == OpenPosition(cfg, old(Now()), here, side, raw, reason, w)
    {
      hide OrderNotional, EntryPrice, AtrStop, OverrideFor;
      var price := EntryPrice(side, raw, cfg.slippage);
      var notional := OrderNotional(cfg, balance, w, tradesInBar);
      var stop := AtrStop(side, price, here.sig.atr, OverrideFor(w.shape, cfg.overrides.stopLossAtr, cfg.stopLossAtr));
      var after := balance - notional * COMMISSION;
      var row := Row(here.second.time, if side == Long then Buy else Sell, price, reason, notional, after,
                     w.shape, side, here.bar, here.pos, here.sig.atr, w.multiplier);
      position := Some(Position(side, price, stop, reason == PTReentry, notional, price, w.shape, here.second.time,
                                w.multiplier, w.eventKey, stop, here.sig.atr));
      balance, ledger, tradesInBar, held := after, ledger + [row], tradesInBar + 1, [];
    }

    method Fill(here: Here, side: Side)
      modifies `balance, `position, `ledger, `tradesInBar, `held, `exit, `zero
      ensures Now() == TryFill(cfg, old(Now()), here, side)
    {
      hide OpenPosition, FillTriggered, ReentryPrice;
      var afterExit, afterLock := WindowOpen(exit, side, here.bar), WindowOpen(zero, side, here.bar);
      if afterExit || afterLock {
        var price := ReentryPrice(here.sig, side, ReentryAtr(cfg, side));
        var triggerSecond := if afterExit then exit.second else zero.second;
        FillHasPrice(cfg, here, side, price, triggerSecond);
        if FillTriggered(cfg, here, side, price, triggerSecond) {
          var reason := ZeroInitialReentry;
          if afterExit {
            reason := if exitReason == SL then SLReentry else PTReentry;
          }
          WindowsStay(cfg, Now(), here, side, price.value, reason, if afterExit then exit else zero);
          if tradesInBar < cfg.maxTradesPerBar {
            Open(here, side, price.value, reason, if afterExit then exit else zero);
          }
          if afterExit {
            exit := Closed(exit);
          }
          if afterLock {
            zero := Closed(zero);
          }
        }
      }
    }

    /** Booking an exit; the position stays in hand for the caller. */
    method Close(p: Position, raw: real, reason: Reason, time: int, bar: int, pos: int)
      modifies `balance, `position, `ledger, `held
      ensures Now() == CloseAt(cfg, old(Now()), p, raw, reason, time, bar, pos)
    {
      hide ExitPrice, Pnl;
      var price := ExitPrice(p.side, raw, cfg.slippage);
      balance := balance + Pnl(p, price) - p.notional * COMMISSION;
      ledger := ledger + [Row(time, Exit, price, reason, p.notional, balance, p.shape, p.side, bar, pos, 0.0, 0.0)];
      position := None;
      held := [];
    }

    /** The trailing update before the exit check. */
    method TrailFirst(here: Here)
      requires position.Some?
      modifies `position
      ensures position == Some(PreCheck(cfg, here, old(position).value))
    {
      hide TrailedAt, TrailAllowed;
      var p := position.value;
      position := Some(p.(stop := TrailedAt(cfg, p, p.water, here.sig.atr, TrailAllowed(cfg, here, p))));
    }

    /** Water mark, protection and trailing stop after a second without exit. */
    method MarkAndTrail(here: Here)
      requires position.Some?
      modifies `position
      ensures position == Some(PostCheck(cfg, here, old(position).value))
    {
      hide TrailedAt, NoWorse, ProtectTarget, TrailAllowed;
      SameAllowance(cfg, here, position.value);
      var p := position.value;
      var allowed := TrailAllowed(cfg, here, p);
      var favourable := Favourable(p.side, here.second.high, here.second.low);
      var target := ProtectTarget(cfg, p, here.sig.atr);
      p := p.(water := Better(p.side, p.water, favourable));
      if !p.isProtected && NoWorse(p.side, favourable, target) {
        p := p.(isProtected := true);
      }
      TrailOfTrade(cfg, old(position).value, p, here.sig.atr, allowed);
      position := Some(p.(stop := TrailedAt(cfg, p, p.water, here.sig.atr, allowed)));
    }

    /** A second with a position. */
    method Hold(here: Here)
      requires position.Some?
      modifies `balance, `position, `ledger, `held, `exit, `exitReason
      ensures Now() == HoldStep(cfg, old(Now()), here, old(position).value)
    {
      hide PreCheck, PostCheck, ExitTrigger, CloseAt, TrailAllowed;
      PreCheckKeepsTrade(cfg, here, position.value);
      ghost var before := Now();
      var allowed := TrailAllowed(cfg, here, position.value);
      TrailFirst(here);
      var p := position.value;
      var trigger := ExitTrigger(cfg, here, p);
      if trigger.Some? {
        CloseIgnoresPosition(cfg, before, Now(), p, trigger.value.0, trigger.value.1, here.second.time, here.bar, here.pos);
        Close(p, trigger.value.0, trigger.value.1, here.second.time, here.bar, here.pos);
        exit := Window(Some(p.side), p.shape, p.sizeMultiplier, p.eventKey, here.bar, here.pos);
        exitReason := trigger.value.1;
      } else {
        MarkAndTrail(here);
        held := held + [Observation(here.sig.atr, here.second.high, here.second.low, allowed)];
      }
    }

    method Interest(time: int, side: Side) returns (interest: bool)
      ensures interest == Interested(feed, Now(), time, side)
    {
      interest := HasInterest(EventsOf(feed, time, side), consumed);
      interest := interest || (zero.side == Some(side) && zero.eventKey != "")
                  || (exit.side == Some(side) && exit.eventKey != "");
    }

    /** What every second updates first. */
    method See(i: nat, start: nat, pos: nat) returns (here: Here)
      requires i < |feed.signal| && pos < |feed.seconds| && feed.signal[i].atr.Some?
      modifies `barHigh, `barLow, `forced
      ensures here == HereAt(cfg, feed, i, start, pos, old(Now()))
      ensures Now() == Observe(cfg, feed, old(Now()), here)
    {
      hide Interested, SignalAt, Higher, Lower;
      var second := feed.seconds[pos];
      var prevClose := if pos > start then Some(feed.seconds[pos - 1].close) else None;
      var forLong := Interest(feed.signal[i].time, Long);
      var forShort := Interest(feed.signal[i].time, Short);
      barHigh := Some(Higher(barHigh, second.high));
      barLow := Some(Lower(barLow, second.low));
      here := Here(i, pos, second, prevClose, SignalAt(cfg, feed.signal[i], barHigh.value, barLow.value, second.close));
      RowOfSignal(cfg, feed.signal[i], barHigh.value, barLow.value, second.close);
      forced := (if forLong then {Long} else {}) + (if forShort then {Short} else {}) + if cfg.live then {} else forced;
    }

    /** A second without a position, on a ready side. */
    method Flat(here: Here, side: Side)
      modifies `balance, `position, `ledger, `tradesInBar, `held, `exit, `zero, `lastT3Lock, `lockedThisBar, `locks, `consumed
      ensures Now() == FlatStep(cfg, feed, old(Now()), here, side)
    {
      hide TryLock, TryExternal, TryFill;
      LockBreakout(here, side);
      LockExternal(here, side);
      Fill(here, side);
    }

    /** One second of one bar. */
    method Step(i: nat, start: nat, pos: nat)
      requires i < |feed.signal| && pos < |feed.seconds| && feed.signal[i].atr.Some?
      modifies this
      ensures Now() == StepSecond(cfg, feed, i, start, pos, old(Now()))
    {
      hide HoldStep, FlatStep, Observe, HereAt, RegimeReady;
      var here := See(i, start, pos);
      if position.Some? {
        Hold(here);
      } else if RegimeReady(here.sig, Long) || Long in forced {
        Flat(here, Long);
      } else if RegimeReady(here.sig, Short) || Short in forced {
        Flat(here, Short);
      }
    }

    /** `run_second_bar_replay` */
    method Run(initial: real)
      requires Now() == Initial(initial)
      modifies this
      ensures Now() == Replay(cfg, feed, initial)
    {
      hide StartBar, StepSecond, CloseAt, Initial, StartOf, EndOf;
      var bars := if |feed.signal| == 0 then 0 else |feed.signal| - 1;
      for i := 0 to bars
        invariant Now() == RunBars(cfg, feed, i, initial)
      {
        var start, end := StartOf(feed, i), EndOf(feed, i);
        if start >= end || feed.signal[i].atr.None? {
          continue;
        }
        BeginBar(i);
        ghost var before := Now();
        for pos := start to end
          invariant Now() == RunSeconds(cfg, feed, i, start, pos, before)
        {
          Step(i, start, pos);
        }
      }
      if position.Some? && feed.seconds != [] {
        var last := feed.seconds[|feed.seconds| - 1];
        Close(position.value, last.close, FinalMarkToMarket, last.time, |feed.signal|, |feed.seconds|);
      }
    }
  }

  lemma WindowsStay(cfg: Config, s: State, here: Here, side: Side, raw: real, reason: Reason, w: Window)
    ensures var t := OpenPosition(cfg, s, here, side, raw, reason, w); t.exit == s.exit && t.zero == s.zero
  {
    hide OrderShare, EntryPrice, AtrStop;
  }

  /** The waiting times look at the trade, not at its stop. */
  lemma SameAllowance(cfg: Config, here: Here, p: Position)
    ensures forall q: Position :: q.shape == p.shape && q.entryTime == p.entryTime ==>
      TrailAllowed(cfg, here, q) == TrailAllowed(cfg, here, p)
  {}

  lemma PreCheckKeepsTrade(cfg: Config, here: Here, p: Position)
    ensures var q := PreCheck(cfg, here, p); q == p.(stop := q.stop)
  {
    hide TrailedAt, TrailAllowed;
  }

  lemma TrailOfTrade(cfg: Config, p: Position, q: Position, atr: real, allowed: bool)
    requires p.side == q.side && p.entryPrice == q.entryPrice && p.shape == q.shape && p.stop == q.stop
    ensures forall water :: TrailedAt(cfg, p, water, atr, allowed) == TrailedAt(cfg, q, water, atr, allowed)
  {}

  /** Closing does not look at the position in the books. */
  lemma CloseIgnoresPosition(
      cfg: Config, s: State, t: State, p: Position, raw: real, reason: Reason, time: int, bar: int, pos: int)
    requires s == t.(position := s.position)
    ensures CloseAt(cfg, s, p, raw, reason, time, bar, pos) == CloseAt(cfg, t, p, raw, reason, time, bar, pos)
  {
    hide ExitPrice, Pnl;
  }

  lemma RowOfSignal(cfg: Config, row: SignalRow, high: real, low: real, close: real)
    requires row.atr.Some?
    ensures SignalAt(cfg, row, high, low, close).row == row
  {}
}
