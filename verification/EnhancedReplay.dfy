/** The one-minute engine with tiered protection and a drawdown breaker, in the mode where a breakout
    opens a re-entry window. */
module EnhancedReplay {
  import opened Market
  import opened Options
  import S = SecondReplay
  import opened Steps

  // ----- input -----

  /** The feed of the second engine, with minute bars for its seconds; its events are not looked at. */
  type Feed = S.Feed

  datatype Config = Config(
    confirm: bool,
    pullback: bool,
    slippage: real,
    stopLossAtr: real,
    trailingAtr: Option<real>,
    activation: Option<real>,
    protectAtr: real,
    longReentryAtr: real,
    shortReentryAtr: real,
    maxTradesPerBar: int,
    schedule: seq<real>,
    tiered: bool,
    maxDrawdown: Option<real>,
    cooldownBars: int)

  // ----- state -----

  /** A ledger row: a trade, or a trip of the breaker. Side, bar, minute and ATR are history: those of the
      step that wrote it, the ATR zero in an exit row. */
  datatype Row =
    | Trade(time: int, kind: S.RowKind, price: real, reason: Reason, notional: real, balance: real, side: Side,
            bar: int, minute: int, atr: real)
    | Breaker(time: int, drawdown: real, balance: real, bar: int)

  predicate IsEntry(row: Row) { row.Trade? && row.kind != S.Exit }

  /** A breakout that opened or renewed the window of its side. */
  datatype Lock = Lock(side: Side, bar: int, minute: int)

  /** The engine's variables; `locks` and `held` are history. */
  datatype State = State(
    balance: real,
    peak: real,
    position: Option<Position>,
    ledger: seq<Row>,
    exitSide: Option<Side>,
    exitBar: int,
    exitReason: Reason,
    zeroSide: Option<Side>,
    zeroBar: int,
    tradesInBar: nat,
    breakerUntil: int,
    locks: seq<Lock>,
    held: seq<Observation>)

  function Initial(balance: real): State {
    State(balance, balance, None, [], None, S.NEVER, FinalMarkToMarket, None, S.NEVER, 0, S.NEVER, [], [])
  }

  // ----- a minute without a position -----

  predicate Paused(cfg: Config, s: State, bar: int) {
    cfg.maxDrawdown.Some? && bar < s.breakerUntil
  }

  /** The level two bars back stands out and is reached. */
  predicate Broke(here: S.Here, side: Side) {
    var row := here.sig.row;
    if side == Long then Above(row.prevHigh2, row.prevHigh1) && here.second.high >= row.prevHigh2.value
    else Above(row.prevLow1, row.prevLow2) && here.second.low <= row.prevLow2.value
  }

  function TryLock(s: State, here: S.Here, side: Side): State {
    if s.tradesInBar == 0 && Broke(here, side) then
      s.(zeroSide := Some(side), zeroBar := here.bar, locks := s.locks + [Lock(side, here.bar, here.pos)])
    else s
  }

  /** `_reentry_triggered`: the raw price of a fill, if there is one. */
  function FillPrice(cfg: Config, here: S.Here, side: Side, price: Option<real>): Option<real> {
    if price.None? then None
    else if cfg.pullback then
      if (if side == Long then here.second.low <= price.value else here.second.high >= price.value) then price else None
    else if cfg.confirm then
      if here.prevClose.Some? &&
         (if side == Long then here.second.close > price.value && here.prevClose.value > price.value
          else here.second.close < price.value && here.prevClose.value < price.value)
      then Some(here.second.close) else None
    else if (if side == Long then here.second.high >= price.value else here.second.low <= price.value) then price
    else None
  }

  /** The first order after a breakout takes the first share; the others follow the schedule. */
  function OrderShare(cfg: Config, afterExit: bool, tradesInBar: nat): real {
    if cfg.schedule == [] then 0.0
    else if !afterExit then cfg.schedule[0]
    else if tradesInBar < |cfg.schedule| then cfg.schedule[tradesInBar] else cfg.schedule[|cfg.schedule| - 1]
  }

  function OrderNotional(cfg: Config, balance: real, afterExit: bool, tradesInBar: nat): real {
    balance * OrderShare(cfg, afterExit, tradesInBar)
  }

  function OpenPosition(cfg: Config, s: State, here: S.Here, side: Side, raw: real, reason: Reason, afterExit: bool): State {
    var price := EntryPrice(side, raw, cfg.slippage);
    var notional := OrderNotional(cfg, s.balance, afterExit, s.tradesInBar);
    var stop := AtrStop(side, price, here.sig.atr, cfg.stopLossAtr);
    var balance := s.balance - notional * COMMISSION;
    s.(balance := balance,
       position := Some(Position(side, price, stop, reason == PTReentry, notional, price, "", here.second.time, 1.0, "",
                                 stop, here.sig.atr)),
       ledger := s.ledger + [Trade(here.second.time, if side == Long then S.Buy else S.Sell, price, reason, notional,
                                   balance, side, here.bar, here.pos, here.sig.atr)],
       tradesInBar := s.tradesInBar + 1,
       held := [])
  }

  predicate WindowOpen(windowSide: Option<Side>, windowBar: int, side: Side, bar: int) {
    windowSide == Some(side) && bar - windowBar <= S.REENTRY_TIMEOUT
  }

  function TryFill(cfg: Config, s: State, here: S.Here, side: Side): State {
    var afterExit := WindowOpen(s.exitSide, s.exitBar, side, here.bar);
    var afterLock := WindowOpen(s.zeroSide, s.zeroBar, side, here.bar);
    var price := ReentryPrice(here.sig, side, if side == Long then cfg.longReentryAtr else cfg.shortReentryAtr);
    var fill := FillPrice(cfg, here, side, price);
    if !(afterExit || afterLock) || fill.None? then s
    else
      var reason :=
        if !afterExit then ZeroInitialReentry else if s.exitReason == SL then SLReentry else PTReentry;
      var s1 := if s.tradesInBar < cfg.maxTradesPerBar
        then OpenPosition(cfg, s, here, side, fill.value, reason, afterExit) else s;
      s1.(exitSide := if afterExit then None else s.exitSide, zeroSide := if afterLock then None else s.zeroSide)
  }

  function FlatStep(cfg: Config, s: State, here: S.Here, side: Side): State {
    TryFill(cfg, TryLock(s, here, side), here, side)
  }

  // ----- a minute with a position -----

  function TrailedAt(cfg: Config, p: Position, water: real, atr: real): real {
    if cfg.trailingAtr.Some? &&
      (cfg.activation.None? || ProfitAtr(p.side, p.entryPrice, water, atr) >= cfg.activation.value)
    then Better(p.side, p.stop, TrailStop(p.side, water, atr, cfg.trailingAtr.value)) else p.stop
  }

  function PreCheck(cfg: Config, here: S.Here, p: Position): Position {
    p.(stop := TrailedAt(cfg, p, p.water, here.sig.atr))
  }

  /** The level that protects the profit: tighter the further the water mark is ahead. */
  function ProtectedLevel(cfg: Config, here: S.Here, p: Position): (Option<real>, Reason) {
    var level := if p.side == Long then here.sig.row.prevLow1 else here.sig.row.prevHigh1;
    var profit := ProfitAtr(p.side, p.entryPrice, p.water, here.sig.atr);
    if cfg.tiered && profit >= 3.0 then
      (if level.None? then None else Some(Better(p.side, level.value, TrailStop(p.side, p.water, here.sig.atr, 1.5))), PTTier3)
    else if cfg.tiered && profit >= 2.0 then
      (if level.None? then None else Some(Better(p.side, level.value, TrailStop(p.side, p.entryPrice, here.sig.atr, -0.5))), PTTier2)
    else (level, PT)
  }

  /** The exit a minute triggers, if any: the stop first, then the protected level. */
  function ExitTrigger(cfg: Config, here: S.Here, p: Position): Option<(real, Reason)> {
    var adverse := Adverse(p.side, here.second.high, here.second.low);
    var level := ProtectedLevel(cfg, here, p);
    if NoWorse(p.side, p.stop, adverse) then Some((p.stop, SL))
    else if p.isProtected && level.0.Some? && NoWorse(p.side, level.0.value, adverse) then Some((level.0.value, level.1))
    else None
  }

  lemma TriggerReason(cfg: Config, here: S.Here, p: Position)
    ensures var trigger := ExitTrigger(cfg, here, p); trigger.Some? ==> trigger.value.1 in {SL, PT, PTTier2, PTTier3}
  {}

  predicate Arms(cfg: Config, here: S.Here, p: Position, water: real, favourable: real) {
    if cfg.tiered then ProfitAtr(p.side, p.entryPrice, water, here.sig.atr) >= cfg.protectAtr
    else NoWorse(p.side, favourable, TrailStop(p.side, p.entryPrice, here.sig.atr, -cfg.protectAtr))
  }

  function PostCheck(cfg: Config, here: S.Here, p: Position): Position {
    var favourable := Favourable(p.side, here.second.high, here.second.low);
    var water := Better(p.side, p.water, favourable);
    p.(water := water,
       isProtected := p.isProtected || Arms(cfg, here, p, water, favourable),
       stop := TrailedAt(cfg, p, water, here.sig.atr))
  }

  /** What an exit at a price leaves of the balance; a notional of zero or less books nothing. */
  function BalanceAfter(balance: real, p: Position, price: real): real {
    if p.notional > 0.0 then balance + Pnl(p, price) - p.notional * COMMISSION else balance
  }

  function CloseAt(cfg: Config, s: State, p: Position, raw: real, reason: Reason, time: int, bar: int, pos: int): State {
    var price := ExitPrice(p.side, raw, cfg.slippage);
    var balance := BalanceAfter(s.balance, p, price);
    s.(balance := balance,
       position := None,
       ledger := s.ledger + [Trade(time, S.Exit, price, reason, p.notional, balance, p.side, bar, pos, 0.0)],
       held := [])
  }

  // ----- the breaker -----

  function Drawdown(peak: real, balance: real): real
    requires peak > 0.0
  {
    (peak - balance) / peak
  }

  predicate Trips(cfg: Config, peak: real, balance: real) {
    cfg.maxDrawdown.Some? && peak > 0.0 && Drawdown(peak, balance) > cfg.maxDrawdown.value
  }

  /** After an exit: the peak follows the balance up, and too deep a drawdown trips the breaker. */
  function Settle(cfg: Config, s: State, time: int, bar: int): State {
    var peak := if s.balance > s.peak then s.balance else s.peak;
    if Trips(cfg, peak, s.balance) then
      s.(peak := peak,
         breakerUntil := bar + cfg.cooldownBars,
         ledger := s.ledger + [Breaker(time, Drawdown(peak, s.balance), s.balance, bar)])
    else s.(peak := peak)
  }

  /** What the position sees of a minute; the stop may trail whenever there is a trail. */
  function SeenAt(cfg: Config, here: S.Here): Observation {
    Observation(here.sig.atr, here.second.high, here.second.low, cfg.trailingAtr.Some?)
  }

  function HoldStep(cfg: Config, s: State, here: S.Here, p: Position): State {
    var p1 := PreCheck(cfg, here, p);
    var trigger := ExitTrigger(cfg, here, p1);
    if trigger.Some? then
      var closed := CloseAt(cfg, s, p1, trigger.value.0, trigger.value.1, here.second.time, here.bar, here.pos)
        .(exitSide := Some(p.side), exitBar := here.bar, exitReason := trigger.value.1);
      Settle(cfg, closed, here.second.time, here.bar)
    else s.(position := Some(PostCheck(cfg, here, p1)), held := s.held + [SeenAt(cfg, here)])
  }

  // ----- the run -----

  function HereAt(feed: Feed, i: nat, start: nat, pos: nat): S.Here
    requires i < |feed.signal| && pos < |feed.seconds| && feed.signal[i].atr.Some?
  {
    var row := feed.signal[i];
    S.Here(i, pos, feed.seconds[pos], if pos > start then Some(feed.seconds[pos - 1].close) else None,
           Signal(row, row.atr.value, row.ma5, row.close))
  }

  function StepMinute(cfg: Config, feed: Feed, i: nat, start: nat, pos: nat, s: State): State
    requires i < |feed.signal| && pos < |feed.seconds| && feed.signal[i].atr.Some?
  {
    var here := HereAt(feed, i, start, pos);
    if s.position.Some? then HoldStep(cfg, s, here, s.position.value)
    else if Paused(cfg, s, i) then s
    else if RegimeReady(here.sig, Long) then FlatStep(cfg, s, here, Long)
    else if RegimeReady(here.sig, Short) then FlatStep(cfg, s, here, Short)
    else s
  }

  function RunMinutes(cfg: Config, feed: Feed, i: nat, start: nat, pos: nat, s: State): State
    requires i < |feed.signal| && start <= pos <= |feed.seconds| && feed.signal[i].atr.Some?
    decreases pos - start
  {
    if pos == start then s
    else StepMinute(cfg, feed, i, start, pos - 1, RunMinutes(cfg, feed, i, start, pos - 1, s))
  }

  function StartBar(s: State, i: nat): State {
    s.(exitSide := if i - s.exitBar > S.REENTRY_TIMEOUT then None else s.exitSide,
       zeroSide := if i - s.zeroBar > S.REENTRY_TIMEOUT then None else s.zeroSide,
       tradesInBar := 0)
  }

  /** A bar is skipped like in the second engine. */
  function RunBar(cfg: Config, feed: Feed, i: nat, s: State): State
    requires i + 1 < |feed.signal|
  {
    var start, end := S.StartOf(feed, i), S.EndOf(feed, i);
    if start >= end || feed.signal[i].atr.None? then s
    else RunMinutes(cfg, feed, i, start, end, StartBar(s, i))
  }

  function RunBars(cfg: Config, feed: Feed, n: nat, balance: real): State
    requires n == 0 || n < |feed.signal|
  {
    if n == 0 then Initial(balance) else RunBar(cfg, feed, n - 1, RunBars(cfg, feed, n - 1, balance))
  }

  function FinalMark(cfg: Config, feed: Feed, s: State): State {
    if s.position.None? || feed.seconds == [] then s
    else
      var last := feed.seconds[|feed.seconds| - 1];
      CloseAt(cfg, s, s.position.value, last.close, FinalMarkToMarket, last.time, |feed.signal|, |feed.seconds|)
  }

  function Replay(cfg: Config, feed: Feed, balance: real): State {
    FinalMark(cfg, feed, RunBars(cfg, feed, if |feed.signal| == 0 then 0 else |feed.signal| - 1, balance))
  }

  // ----- invariants of a run, minute by minute -----

  /** What a step sees, from the feed alone. */
  function HereOf(feed: Feed, step: Step): S.Here
    requires IsStep(feed, step)
  {
    HereAt(feed, step.bar, S.StartOf(feed, step.bar), step.second)
  }

  function StepOf(cfg: Config, feed: Feed, step: Step, s: State): State
    requires IsStep(feed, step)
  {
    StepMinute(cfg, feed, step.bar, S.StartOf(feed, step.bar), step.second, s)
  }

  /** `before` holds of the state before bar `i`, `during` inside bar `i` before minute `pos`. */
  ghost predicate RunKept(
      cfg: Config, feed: Feed, before: (State, nat) -> bool, during: (State, nat, nat) -> bool, balance: real)
  {
    && before(Initial(balance), 0)
    && (forall s, i: nat :: i + 1 < |feed.signal| && !Visited(feed, i) && before(s, i) ==> before(s, i + 1))
    && (forall s, i: nat :: Visited(feed, i) && before(s, i) ==> during(StartBar(s, i), i, S.StartOf(feed, i)))
    && (forall s, i: nat, pos: nat ::
          IsStep(feed, Step(i, pos)) && during(s, i, pos) ==> during(StepOf(cfg, feed, Step(i, pos), s), i, pos + 1))
    && (forall s, i: nat :: Visited(feed, i) && during(s, i, S.EndOf(feed, i)) ==> before(s, i + 1))
  }

  /** The state of a run inside bar `i`, before minute `pos`. */
  function StateAt(cfg: Config, feed: Feed, i: nat, pos: nat, balance: real): State
    requires Visited(feed, i) && S.StartOf(feed, i) <= pos <= S.EndOf(feed, i)
  {
    RunMinutes(cfg, feed, i, S.StartOf(feed, i), pos, StartBar(RunBars(cfg, feed, i, balance), i))
  }

  lemma KeptStep(cfg: Config, feed: Feed, before: (State, nat) -> bool, during: (State, nat, nat) -> bool, balance: real,
                 i: nat, pos: nat)
    requires RunKept(cfg, feed, before, during, balance)
    requires IsStep(feed, Step(i, pos)) && during(StateAt(cfg, feed, i, pos, balance), i, pos)
    ensures during(StateAt(cfg, feed, i, pos + 1, balance), i, pos + 1)
  {
    hide StepMinute, StartBar, RunBars, Initial, S.StartOf, S.EndOf;
    assert StateAt(cfg, feed, i, pos + 1, balance) == StepOf(cfg, feed, Step(i, pos), StateAt(cfg, feed, i, pos, balance));
  }

  lemma KeptStart(cfg: Config, feed: Feed, before: (State, nat) -> bool, during: (State, nat, nat) -> bool, balance: real,
                  i: nat)
    requires RunKept(cfg, feed, before, during, balance) && Visited(feed, i)
    requires before(RunBars(cfg, feed, i, balance), i)
    ensures during(StateAt(cfg, feed, i, S.StartOf(feed, i), balance), i, S.StartOf(feed, i))
  {
    hide StepMinute, StartBar, RunBars, Initial, S.StartOf, S.EndOf;
  }

  lemma {:induction false} KeptInside(cfg: Config, feed: Feed, before: (State, nat) -> bool, during: (State, nat, nat) -> bool,
                                      balance: real, i: nat, pos: nat)
    requires RunKept(cfg, feed, before, during, balance) && Visited(feed, i)
    requires S.StartOf(feed, i) <= pos <= S.EndOf(feed, i) && before(RunBars(cfg, feed, i, balance), i)
    ensures during(StateAt(cfg, feed, i, pos, balance), i, pos)
    decreases pos
  {
    hide RunKept, StateAt, S.StartOf, S.EndOf;
    if pos == S.StartOf(feed, i) {
      KeptStart(cfg, feed, before, during, balance, i);
    } else {
      KeptInside(cfg, feed, before, during, balance, i, pos - 1);
      KeptStep(cfg, feed, before, during, balance, i, pos - 1);
    }
  }

  lemma KeptNext(cfg: Config, feed: Feed, before: (State, nat) -> bool, during: (State, nat, nat) -> bool, balance: real,
                 i: nat)
    requires RunKept(cfg, feed, before, during, balance) && i + 1 < |feed.signal|
    requires before(RunBars(cfg, feed, i, balance), i)
    ensures before(RunBars(cfg, feed, i + 1, balance), i + 1)
  {
    hide StepMinute, StartBar, RunMinutes, Initial, S.StartOf, S.EndOf;
    if Visited(feed, i) {
      KeptInside(cfg, feed, before, during, balance, i, S.EndOf(feed, i));
    }
  }

  lemma {:induction false} KeptBars(cfg: Config, feed: Feed, before: (State, nat) -> bool, during: (State, nat, nat) -> bool,
                                    balance: real, n: nat)
    requires RunKept(cfg, feed, before, during, balance) && (n == 0 || n < |feed.signal|)
    ensures before(RunBars(cfg, feed, n, balance), n)
  {
    hide StepMinute, StartBar, RunBar, Initial, S.StartOf, S.EndOf;
    if n > 0 {
      KeptBars(cfg, feed, before, during, balance, n - 1);
      KeptNext(cfg, feed, before, during, balance, n - 1);
    }
  }

  /** What a run keeps minute by minute holds inside every bar. */
  lemma RunKeeps(cfg: Config, feed: Feed, before: (State, nat) -> bool, during: (State, nat, nat) -> bool, balance: real,
                 i: nat, pos: nat)
    requires RunKept(cfg, feed, before, during, balance) && Visited(feed, i)
    requires S.StartOf(feed, i) <= pos <= S.EndOf(feed, i)
    ensures during(StateAt(cfg, feed, i, pos, balance), i, pos)
  {
    hide RunKept, StateAt, S.StartOf, S.EndOf, RunBars;
    KeptBars(cfg, feed, before, during, balance, i);
    KeptInside(cfg, feed, before, during, balance, i, pos);
  }
}
