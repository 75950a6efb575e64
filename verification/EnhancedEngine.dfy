/** The one-minute engine as the program runs it, proved to compute the replay. */
module EnhancedEngine {
  import opened EnhancedReplay
  import opened Market
  import opened Options
  import S = SecondReplay

  class Engine {
    const cfg: Config
    const feed: Feed
    var balance: real
    var peak: real
    var position: Option<Position>
    var ledger: seq<Row>
    var exitSide: Option<Side>
    var exitBar: int
    var exitReason: Reason
    var zeroSide: Option<Side>
    var zeroBar: int
    var tradesInBar: nat
    var breakerUntil: int
    ghost var locks: seq<Lock>
    ghost var held: seq<Observation>

    ghost function Now(): State
      reads this
    {
      State(balance, peak, position, ledger, exitSide, exitBar, exitReason, zeroSide, zeroBar, tradesInBar, breakerUntil,
            locks, held)
    }

    constructor (cfg: Config, feed: Feed, initial: real)
      ensures this.cfg == cfg && this.feed == feed && Now() == Initial(initial)
    {
      this.cfg, this.feed, balance, peak := cfg, feed, initial, initial;
      position, ledger, exitSide, exitBar, exitReason := None, [], None, S.NEVER, FinalMarkToMarket;
      zeroSide, zeroBar, tradesInBar, breakerUntil, locks, held := None, S.NEVER, 0, S.NEVER, [], [];
    }

    method BeginBar(i: nat)
      modifies `tradesInBar, `exitSide, `zeroSide
      ensures Now() == StartBar(old(Now()), i)
    {
      tradesInBar := 0;
      if i - exitBar > S.REENTRY_TIMEOUT {
        exitSide := None;
      }
      if i - zeroBar > S.REENTRY_TIMEOUT {
        zeroSide := None;
      }
    }

    method Open(here: S.Here, side: Side, raw: real, reason: Reason, afterExit: bool)
      modifies `balance, `position, `ledger, `tradesInBar, `held
      ensures Now() == OpenPosition(cfg, old(Now()), here, side, raw, reason, afterExit)
    {
      hide OrderNotional, EntryPrice, AtrStop;
      var price := EntryPrice(side, raw, cfg.slippage);
      var notional := OrderNotional(cfg, balance, afterExit, tradesInBar);
      var stop := AtrStop(side, price, here.sig.atr, cfg.stopLossAtr);
      position := Some(Position(side, price, stop, reason == PTReentry, notional, price, "", here.second.time, 1.0, "",
                                stop, here.sig.atr));
      balance := balance - notional * COMMISSION;
      ledger := ledger + [Trade(here.second.time, if side == Long then S.Buy else S.Sell, price, reason, notional,
                                balance, side, here.bar, here.pos, here.sig.atr)];
      tradesInBar, held := tradesInBar + 1, [];
    }

    method LockBreakout(here: S.Here, side: Side)
      modifies `zeroSide, `zeroBar, `locks
      ensures Now() == TryLock(old(Now()), here, side)
    {
      hide Broke;
      if tradesInBar == 0 && Broke(here, side) {
        zeroSide := Some(side);
        zeroBar := here.bar;
        locks := locks + [Lock(side, here.bar, here.pos)];
      }
    }

    method Fill(here: S.Here, side: Side)
      modifies `balance, `position, `ledger, `tradesInBar, `held, `exitSide, `zeroSide
      ensures Now() == TryFill(cfg, old(Now()), here, side)
    {
      hide OpenPosition, FillPrice, ReentryPrice;
      var afterExit := WindowOpen(exitSide, exitBar, side, here.bar);
      var afterLock := WindowOpen(zeroSide, zeroBar, side, here.bar);
      if afterExit || afterLock {
        var price := ReentryPrice(here.sig, side, if side == Long then cfg.longReentryAtr else cfg.shortReentryAtr);
        var fill := FillPrice(cfg, here, side, price);
        if fill.Some? {
          var reason := ZeroInitialReentry;
          if afterExit {
            reason := if exitReason == SL then SLReentry else PTReentry;
          }
          if tradesInBar < cfg.maxTradesPerBar {
            Open(here, side, fill.value, reason, afterExit);
          }
          if afterExit {
            exitSide := None;
          }
          if afterLock {
            zeroSide := None;
          }
        }
      }
    }

    method Close(p: Position, raw: real, reason: Reason, time: int, bar: int, pos: int)
      modifies `balance, `position, `ledger, `held
      ensures Now() == CloseAt(cfg, old(Now()), p, raw, reason, time, bar, pos)
    {
      hide ExitPrice, Pnl;
      var price := ExitPrice(p.side, raw, cfg.slippage);
      if p.notional > 0.0 {
        balance := balance + Pnl(p, price) - p.notional * COMMISSION;
      }
      ledger := ledger + [Trade(time, S.Exit, price, reason, p.notional, balance, p.side, bar, pos, 0.0)];
      position, held := None, [];
    }

    /** Peak and breaker after an exit. */
    method CheckBreaker(time: int, bar: int)
      modifies `peak, `breakerUntil, `ledger
      ensures Now() == Settle(cfg, old(Now()), time, bar)
    {
      hide Drawdown;
      if balance > peak {
        peak := balance;
      }
      if cfg.maxDrawdown.Some? && peak > 0.0 {
        var drawdown := Drawdown(peak, balance);
        if drawdown > cfg.maxDrawdown.value {
          breakerUntil := bar + cfg.cooldownBars;
          ledger := ledger + [Breaker(time, drawdown, balance, bar)];
        }
      }
    }

    /** The trailing update before the exit check. */
    method TrailFirst(here: S.Here)
      requires position.Some?
      modifies `position
      ensures position == Some(PreCheck(cfg, here, old(position).value))
    {
      hide TrailedAt;
      var p := position.value;
      position := Some(p.(stop := TrailedAt(cfg, p, p.water, here.sig.atr)));
    }

    /** Water mark, protection and trailing stop after a minute without exit. */
    method MarkAndTrail(here: S.Here)
      requires position.Some?
      modifies `position
      ensures position == Some(PostCheck(cfg, here, old(position).value))
    {
      hide TrailStop, ProfitAtr, NoWorse;
      var p := position.value;
      var favourable := Favourable(p.side, here.second.high, here.second.low);
      p := p.(water := Better(p.side, p.water, favourable));
      if !p.isProtected && Arms(cfg, here, p, p.water, favourable) {
        p := p.(isProtected := true);
      }
      position := Some(p.(stop := TrailedAt(cfg, p, p.water, here.sig.atr)));
    }

    method Hold(here: S.Here)
      requires position.Some?
      modifies `balance, `peak, `position, `ledger, `exitSide, `exitBar, `exitReason, `breakerUntil, `held
      ensures Now() == HoldStep(cfg, old(Now()), here, old(position).value)
    {
      hide PreCheck, PostCheck, ExitTrigger, CloseAt, Settle;
      PreCheckKeepsTrade(cfg, here, position.value);
      ghost var before := Now();
      TrailFirst(here);
      var p := position.value;
      var trigger := ExitTrigger(cfg, here, p);
      if trigger.Some? {
        CloseIgnoresPosition(cfg, before, Now(), p, trigger.value.0, trigger.value.1, here.second.time, here.bar, here.pos);
        Close(p, trigger.value.0, trigger.value.1, here.second.time, here.bar, here.pos);
        exitReason := trigger.value.1;
        exitSide := Some(p.side);
        exitBar := here.bar;
        CheckBreaker(here.second.time, here.bar);
      } else {
        MarkAndTrail(here);
        held := held + [SeenAt(cfg, here)];
      }
    }

    method Step(i: nat, start: nat, pos: nat)
      requires i < |feed.signal| && pos < |feed.seconds| && feed.signal[i].atr.Some?
      modifies this
      ensures Now() == StepMinute(cfg, feed, i, start, pos, old(Now()))
    {
      hide HoldStep, TryLock, TryFill, RegimeReady, HereAt;
      var here := HereAt(feed, i, start, pos);
      if position.Some? {
        Hold(here);
      } else if cfg.maxDrawdown.Some? && i < breakerUntil {
        return;
      } else if RegimeReady(here.sig, Long) {
        LockBreakout(here, Long);
        Fill(here, Long);
      } else if RegimeReady(here.sig, Short) {
        LockBreakout(here, Short);
        Fill(here, Short);
      }
    }

    /** `run_backtest_enhanced` */
    method Run(initial: real)
      requires Now() == Initial(initial)
      modifies this
      ensures Now() == Replay(cfg, feed, initial)
    {
      hide StartBar, StepMinute, CloseAt, Initial, S.StartOf, S.EndOf;
      var bars := if |feed.signal| == 0 then 0 else |feed.signal| - 1;
      for i := 0 to bars
        invariant Now() == RunBars(cfg, feed, i, initial)
      {
        var start, end := S.StartOf(feed, i), S.EndOf(feed, i);
        if start >= end || feed.signal[i].atr.None? {
          continue;
        }
        BeginBar(i);
        ghost var before := Now();
        for pos := start to end
          invariant Now() == RunMinutes(cfg, feed, i, start, pos, before)
        {
          Step(i, start, pos);
        }
      }
      if position.Some? && feed.seconds != [] {
        var last := feed.seconds[|feed.seconds| - 1];
        Close(position.value, last.close, FinalMarkToMarket, last.time, |feed.signal|, |feed.seconds|);
      }
    }
  }

  lemma PreCheckKeepsTrade(cfg: Config, here: S.Here, p: Position)
    ensures var q := PreCheck(cfg, here, p); q == p.(stop := q.stop)
  {
    hide TrailedAt;
  }

  /** Closing does not look at the position in the books. */
  lemma CloseIgnoresPosition(cfg: Config, s: State, t: State, p: Position, raw: real, reason: Reason, time: int, bar: int,
                             pos: int)
    requires s == t.(position := s.position)
    ensures CloseAt(cfg, s, p, raw, reason, time, bar, pos) == CloseAt(cfg, t, p, raw, reason, time, bar, pos)
  {
    hide ExitPrice, BalanceAfter;
  }
}
