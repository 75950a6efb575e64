/** The one-second replay engine: one position at a time, a ratcheting stop, re-entry windows after
    an exit or a breakout, external breakout events, and a running balance. The mode is the
    baseline one: a breakout opens a re-entry window instead of a position. */
module SecondReplay {
  import opened Market
  import opened Options

  // ----- input -----

  datatype Second = Second(time: int, high: real, low: real, close: real)

  datatype ExternalEvent = ExternalEvent(key: string, shape: string, touchTime: int)

  /** The second bars, the signal bars, and the prepared external events of each signal and side. */
  datatype Feed = Feed(seconds: seq<Second>, signal: seq<SignalRow>, events: map<(int, Side), seq<ExternalEvent>>)

  /** Overrides that apply to positions from the t-3 swing breakout. */
  datatype Overrides = Overrides(
    stopLossAtr: Option<real>, trailingAtr: Option<real>, activation: Option<real>, protectAtr: Option<real>,
    maxHoldSeconds: Option<real>, minHoldBeforeStop: Option<real>, minHoldBeforeTrail: Option<real>)

  const NO_OVERRIDES := Overrides(None, None, None, None, None, None, None)

  /** The verdict of the sizing filter on a breakout. */
  datatype Sizing = Sizing(multiplier: real, rejected: bool)

  /** The parameters. The two filters are functions of the breakout's side, shape, bar and second;
      those determine the signal, the price and the elapsed time that the filters look at. */
  datatype Config = Config(
    live: bool,
    withT3: bool,
    strictFill: bool,
    slippage: real,
    stopLossAtr: real,
    trailingAtr: real,
    activation: real,
    protectAtr: real,
    longReentryAtr: real,
    shortReentryAtr: real,
    maxTradesPerBar: int,
    schedule: seq<real>,
    t3Schedule: seq<real>,
    t3CooldownBars: int,
    overrides: Overrides,
    skipLock: bool,
    rejectsQuality: (Side, string, nat, nat) -> bool,
    sizing: (Side, string, nat, nat) -> Sizing)

  const REENTRY_TIMEOUT := 1
  const NEVER := -999

  /** The shared replay parameters of the script, without filters. */
  const BASELINE := Config(true, true, false, 0.0005, 0.05, 0.3, 0.5, 1.0, 0.1, 0.0, 2, [0.20, 0.10], [0.20, 0.10], 0,
                           NO_OVERRIDES, false, (_, _, _, _) => false, (_, _, _, _) => Sizing(1.0, false))

  // ----- state -----

  datatype RowKind = Buy | Sell | Exit

  /** A ledger row. Side, bar, second and ATR are history: those of the step that wrote it, the ATR zero
      in an exit row, as is the size multiplier. */
  datatype Row = Row(time: int, kind: RowKind, price: real, reason: Reason, notional: real, balance: real,
                     shape: string, side: Side, bar: int, second: int, atr: real, sizeMultiplier: real)

  /** A breakout that opened or renewed the window of its side; `event` is empty for the engine's own. */
  datatype Lock = Lock(side: Side, bar: int, second: int, time: int, shape: string, event: Option<ExternalEvent>)

  /** A window in which a side may re-enter: since the last exit, or since a breakout. */
  datatype Window = Window(side: Option<Side>, shape: string, multiplier: real, eventKey: string, bar: int, second: int)

  const NO_WINDOW := Window(None, "", 1.0, "", NEVER, NEVER)

  /** Closing a window keeps only the bar it was opened in. */
  function Closed(w: Window): Window { NO_WINDOW.(bar := w.bar) }

  /** The engine's variables; `forced` holds the sides that external events make ready whatever their
      regime. `locks` and `held` are history: all breakouts so far, and what the
      open position has seen since its entry. */
  datatype State = State(
    balance: real,
    position: Option<Position>,
    ledger: seq<Row>,
    exit: Window,
    exitReason: Reason,
    zero: Window,
    lastT3Lock: int,
    consumed: set<string>,
    tradesInBar: nat,
    lockedThisBar: bool,
    barHigh: Option<real>,
    barLow: Option<real>,
    forced: set<Side>,
    locks: seq<Lock>,
    held: seq<Observation>)

  function Initial(balance: real): State {
    State(balance, None, [], NO_WINDOW, FinalMarkToMarket, NO_WINDOW, NEVER, {}, 0, false, None, None, {}, [], [])
  }

  // ----- bars and seconds -----

  /** `searchsorted(..., side="left")`: how many seconds of the index are before `t`. */
  function CountBefore(seconds: seq<Second>, t: int): (n: nat)
    ensures n <= |seconds|
  {
    if seconds == [] then 0
    else CountBefore(seconds[..|seconds| - 1], t) + if seconds[|seconds| - 1].time < t then 1 else 0
  }

  function StartOf(feed: Feed, i: nat): (pos: nat)
    requires i < |feed.signal|
    ensures pos <= |feed.seconds|
  {
    CountBefore(feed.seconds, feed.signal[i].time)
  }

  /** `searchsorted(..., side="right")` of the next bar's time, so that the boundary second belongs to
      both bars. */
  function EndOf(feed: Feed, i: nat): (pos: nat)
    requires i + 1 < |feed.signal|
    ensures pos <= |feed.seconds|
  {
    CountBefore(feed.seconds, feed.signal[i + 1].time + 1)
  }

  /** The running extremes of the bar after one more second. */
  function Higher(high: Option<real>, x: real): real { if high.Some? then Max(high.value, x) else x }

  function Lower(low: Option<real>, x: real): real { if low.Some? then Min(low.value, x) else x }

  function SignalAt(cfg: Config, row: SignalRow, high: real, low: real, close: real): Signal
    requires row.atr.Some?
  {
    if cfg.live then IntrabarSignal(row, high, low, close) else Signal(row, row.atr.value, row.ma5, row.close)
  }

  // ----- external events -----

  function EventsOf(feed: Feed, time: int, side: Side): seq<ExternalEvent> {
    if (time, side) in feed.events then feed.events[(time, side)] else []
  }

  function FirstUnconsumed(events: seq<ExternalEvent>, consumed: set<string>): Option<ExternalEvent> {
    if events == [] then None
    else if events[0].key in consumed then FirstUnconsumed(events[1..], consumed)
    else Some(events[0])
  }

  /** `_external_event_ready`: the first unconsumed event of the list, once it has been touched. */
  function EventReady(events: seq<ExternalEvent>, now: int, consumed: set<string>): Option<ExternalEvent> {
    var first := FirstUnconsumed(events, consumed);
    if first.Some? && first.value.touchTime <= now then first else None
  }

  // ----- a second without a position -----

  /** The bar, the second and what is known there. */
  datatype Here = Here(bar: nat, pos: nat, second: Second, prevClose: Option<real>, sig: Signal)

  /** An external event concerns a side: one waits to be consumed, or a window of the side comes
      from one. */
  predicate Interested(feed: Feed, s: State, time: int, side: Side) {
    || FirstUnconsumed(EventsOf(feed, time, side), s.consumed).Some?
    || (s.zero.side == Some(side) && s.zero.eventKey != "")
    || (s.exit.side == Some(side) && s.exit.eventKey != "")
  }

  function Forced(feed: Feed, s: State, time: int): set<Side> {
    (if Interested(feed, s, time, Long) then {Long} else {}) +
    (if Interested(feed, s, time, Short) then {Short} else {})
  }

  /** What every second updates first: the running extremes, and the forced sides. The live mode works
      the readiness out afresh each second; the other one once a bar, so that a forced side stays ready. */
  function Observe(cfg: Config, feed: Feed, s: State, here: Here): State {
    s.(barHigh := Some(Higher(s.barHigh, here.second.high)),
       barLow := Some(Lower(s.barLow, here.second.low)),
       forced := Forced(feed, s, here.sig.row.time) + if cfg.live then {} else s.forced)
  }

  predicate SideReady(s: State, here: Here, side: Side) {
    RegimeReady(here.sig, side) || side in s.forced
  }

  predicate LockAllowed(cfg: Config, s: State, shape: string, bar: int) {
    shape != T3_SWING || cfg.t3CooldownBars <= 0 || bar - s.lastT3Lock > cfg.t3CooldownBars
  }

  /** The engine's own breakout opens the window of its side. */
  function TryLock(cfg: Config, s: State, here: Here, side: Side): State {
    var breakout := BreakoutOf(here.sig.row, side, Favourable(side, here.second.high, here.second.low), cfg.withT3);
    if s.tradesInBar != 0 || breakout.None? then s
    else
      var shape := breakout.value.shape;
      if cfg.rejectsQuality(side, shape, here.bar, here.pos) || !LockAllowed(cfg, s, shape, here.bar) then s
      else
        var sizing := cfg.sizing(side, shape, here.bar, here.pos);
        if sizing.rejected && cfg.skipLock then s
        else
          s.(lastT3Lock := if shape == T3_SWING then here.bar else s.lastT3Lock,
             lockedThisBar := true,
             zero := Window(Some(side), shape, sizing.multiplier, "", here.bar, here.pos),
             locks := s.locks + [Lock(side, here.bar, here.pos, here.second.time, shape, None)])
  }

  /** An external event opens the window of its side and is consumed. */
  function TryExternal(feed: Feed, s: State, here: Here, side: Side): State {
    var event := EventReady(EventsOf(feed, here.sig.row.time, side), here.second.time, s.consumed);
    if event.None? || s.tradesInBar != 0 || s.lockedThisBar then s
    else
      s.(lockedThisBar := true,
         zero := Window(Some(side), event.value.shape, 1.0, event.value.key, here.bar, here.pos),
         consumed := s.consumed + {event.value.key},
         locks := s.locks + [Lock(side, here.bar, here.pos, here.second.time, event.value.shape, event)])
  }

  predicate WindowOpen(w: Window, side: Side, bar: int) {
    w.side == Some(side) && bar - w.bar <= REENTRY_TIMEOUT
  }

  /** `_reentry_fill_triggered` in reclaim mode. */
  predicate FillTriggered(cfg: Config, here: Here, side: Side, price: Option<real>, triggerSecond: int) {
    price.Some? &&
    if !cfg.strictFill then
      if side == Long then here.second.high >= price.value else here.second.low <= price.value
    else
      here.pos > triggerSecond && here.prevClose.Some? &&
      if side == Long then here.prevClose.value < price.value <= here.second.high
      else here.prevClose.value > price.value >= here.second.low
  }

  lemma FillHasPrice(cfg: Config, here: Here, side: Side, price: Option<real>, triggerSecond: int)
    ensures FillTriggered(cfg, here, side, price, triggerSecond) ==> price.Some?
  {}

  /** `_get_reentry_window_real_order_size` on the schedule of a shape. */
  function OrderShare(cfg: Config, shape: string, tradesInBar: nat): real {
    var schedule := if shape == T3_SWING && cfg.t3Schedule != [] then cfg.t3Schedule else cfg.schedule;
    if schedule == [] then 0.0
    else if tradesInBar < |schedule| then schedule[tradesInBar] else schedule[|schedule| - 1]
  }

  function OverrideFor(shape: string, value: Option<real>, default: real): real {
    if shape == T3_SWING && value.Some? then value.value else default
  }

  function ReentryAtr(cfg: Config, side: Side): real {
    if side == Long then cfg.longReentryAtr else cfg.shortReentryAtr
  }

  /** The notional of an order through a window. */
  function OrderNotional(cfg: Config, balance: real, w: Window, tradesInBar: nat): real {
    balance * (OrderShare(cfg, w.shape, tradesInBar) * w.multiplier)
  }

  /** Opening a position through a window, at the re-entry price. */
  function OpenPosition(cfg: Config, s: State, here: Here, side: Side, raw: real, reason: Reason, w: Window): State {
    var price := EntryPrice(side, raw, cfg.slippage);
    var notional := OrderNotional(cfg, s.balance, w, s.tradesInBar);
    var stop := AtrStop(side, price, here.sig.atr, OverrideFor(w.shape, cfg.overrides.stopLossAtr, cfg.stopLossAtr));
    var balance := s.balance - notional * COMMISSION;
    s.(balance := balance,
       position := Some(Position(side, price, stop, reason == PTReentry, notional, price, w.shape,
                                 here.second.time, w.multiplier, w.eventKey, stop, here.sig.atr)),
       ledger := s.ledger + [Row(here.second.time, if side == Long then Buy else Sell, price, reason, notional,
                                 balance, w.shape, side, here.bar, here.pos, here.sig.atr, w.multiplier)],
       tradesInBar := s.tradesInBar + 1,
       held := [])
  }

  /** The re-entry check of one side. */
  function TryFill(cfg: Config, s: State, here: Here, side: Side): State {
    var afterExit, afterLock := WindowOpen(s.exit, side, here.bar), WindowOpen(s.zero, side, here.bar);
    var price := ReentryPrice(here.sig, side, ReentryAtr(cfg, side));
    var w := if afterExit then s.exit else s.zero;
    if !(afterExit || afterLock) || !FillTriggered(cfg, here, side, price, w.second) then s
    else
      var reason :=
        if !afterExit then ZeroInitialReentry else if s.exitReason == SL then SLReentry else PTReentry;
      var s1 := if s.tradesInBar < cfg.maxTradesPerBar
        then OpenPosition(cfg, s, here, side, price.value, reason, w) else s;
      s1.(exit := if afterExit then Closed(s.exit) else s.exit,
          zero := if afterLock then Closed(s.zero) else s.zero)
  }

  /** A second without a position: breakout, external event, then fill, on the ready side; the long
      side comes first. */
  function FlatStep(cfg: Config, feed: Feed, s: State, here: Here, side: Side): State {
    TryFill(cfg, TryExternal(feed, TryLock(cfg, s, here, side), here, side), here, side)
  }

  // ----- a second with a position -----

  function HeldSeconds(here: Here, p: Position): real { (here.second.time - p.entryTime) as real / 1000.0 }

  predicate AllowedAfter(p: Position, wait: Option<real>, heldSeconds: real) {
    p.shape == T3_SWING && wait.Some? ==> heldSeconds >= wait.value
  }

  /** The exit a second triggers, if any: the stop first, then the protected level, then the time cap. */
  function ExitTrigger(cfg: Config, here: Here, p: Position): Option<(real, Reason)> {
    var adverse := Adverse(p.side, here.second.high, here.second.low);
    var level := if p.side == Long then here.sig.row.prevLow1 else here.sig.row.prevHigh1;
    if AllowedAfter(p, cfg.overrides.minHoldBeforeStop, HeldSeconds(here, p)) && NoWorse(p.side, p.stop, adverse) then
      Some((p.stop, SL))
    else if p.isProtected && level.Some? && NoWorse(p.side, level.value, adverse) then Some((level.value, PT))
    else if p.shape == T3_SWING && cfg.overrides.maxHoldSeconds.Some?
      && HeldSeconds(here, p) >= cfg.overrides.maxHoldSeconds.value then Some((here.second.close, T3TimeCap))
    else None
  }

  function TrailedAt(cfg: Config, p: Position, water: real, atr: real, allowed: bool): real {
    Trailed(p, water, atr, OverrideFor(p.shape, cfg.overrides.trailingAtr, cfg.trailingAtr),
            OverrideFor(p.shape, cfg.overrides.activation, cfg.activation), allowed)
  }

  predicate TrailAllowed(cfg: Config, here: Here, p: Position) {
    AllowedAfter(p, cfg.overrides.minHoldBeforeTrail, HeldSeconds(here, p))
  }

  /** The trailing update before the exit check, at the water mark of the seconds before. */
  function PreCheck(cfg: Config, here: Here, p: Position): Position {
    p.(stop := TrailedAt(cfg, p, p.water, here.sig.atr, TrailAllowed(cfg, here, p)))
  }

  /** The price at which the protected level arms. */
  function ProtectTarget(cfg: Config, p: Position, atr: real): real {
    var distance := OverrideFor(p.shape, cfg.overrides.protectAtr, cfg.protectAtr) * atr;
    if p.side == Long then p.entryPrice + distance else p.entryPrice - distance
  }

  /** Water mark, protection and trailing stop after a second that did not exit. */
  function PostCheck(cfg: Config, here: Here, p: Position): Position {
    var favourable := Favourable(p.side, here.second.high, here.second.low);
    var water := Better(p.side, p.water, favourable);
    p.(water := water,
       isProtected := p.isProtected || NoWorse(p.side, favourable, ProtectTarget(cfg, p, here.sig.atr)),
       stop := TrailedAt(cfg, p, water, here.sig.atr, TrailAllowed(cfg, here, p)))
  }

  /** Booking an exit. */
  function CloseAt(cfg: Config, s: State, p: Position, raw: real, reason: Reason, time: int, bar: int, pos: int): State {
    var price := ExitPrice(p.side, raw, cfg.slippage);
    var balance := s.balance + Pnl(p, price) - p.notional * COMMISSION;
    s.(balance := balance,
       position := None,
       ledger := s.ledger + [Row(time, Exit, price, reason, p.notional, balance, p.shape, p.side, bar, pos, 0.0,
                              0.0)],
       held := [])
  }

  function HoldStep(cfg: Config, s: State, here: Here, p: Position): State {
    var p1 := PreCheck(cfg, here, p);
    var trigger := ExitTrigger(cfg, here, p1);
    if trigger.Some? then
      CloseAt(cfg, s, p1, trigger.value.0, trigger.value.1, here.second.time, here.bar, here.pos)
        .(exit := Window(Some(p.side), p.shape, p.sizeMultiplier, p.eventKey, here.bar, here.pos),
          exitReason := trigger.value.1)
    else
      s.(position := Some(PostCheck(cfg, here, p1)),
         held := s.held + [Observation(here.sig.atr, here.second.high, here.second.low, TrailAllowed(cfg, here, p))])
  }

  // ----- the run -----

  function HereAt(cfg: Config, feed: Feed, i: nat, start: nat, pos: nat, s: State): Here
    requires i < |feed.signal| && pos < |feed.seconds| && feed.signal[i].atr.Some?
  {
    var second := feed.seconds[pos];
    Here(i, pos, second, if pos > start then Some(feed.seconds[pos - 1].close) else None,
         SignalAt(cfg, feed.signal[i], Higher(s.barHigh, second.high), Lower(s.barLow, second.low), second.close))
  }

  /** One second of one bar. */
  function StepSecond(cfg: Config, feed: Feed, i: nat, start: nat, pos: nat, s: State): State
    requires i < |feed.signal| && pos < |feed.seconds| && feed.signal[i].atr.Some?
  {
    var here := HereAt(cfg, feed, i, start, pos, s);
    var s1 := Observe(cfg, feed, s, here);
    if s1.position.Some? then HoldStep(cfg, s1, here, s1.position.value)
    else if SideReady(s1, here, Long) then FlatStep(cfg, feed, s1, here, Long)
    else if SideReady(s1, here, Short) then FlatStep(cfg, feed, s1, here, Short)
    else s1
  }

  /** The seconds of a bar from `start` up to, not including, `pos`. */
  function RunSeconds(cfg: Config, feed: Feed, i: nat, start: nat, pos: nat, s: State): State
    requires i < |feed.signal| && start <= pos <= |feed.seconds| && feed.signal[i].atr.Some?
    decreases pos - start
  {
    if pos == start then s
    else StepSecond(cfg, feed, i, start, pos - 1, RunSeconds(cfg, feed, i, start, pos - 1, s))
  }

  /** A new bar forgets windows older than the timeout and its own counters. */
  function StartBar(s: State, i: nat): State {
    s.(exit := if i - s.exit.bar > REENTRY_TIMEOUT then Closed(s.exit) else s.exit,
       zero := if i - s.zero.bar > REENTRY_TIMEOUT then Closed(s.zero) else s.zero,
       tradesInBar := 0, lockedThisBar := false, barHigh := None, barLow := None, forced := {})
  }

  /** A bar without seconds or without an ATR is skipped. */
  function RunBar(cfg: Config, feed: Feed, i: nat, s: State): State
    requires i + 1 < |feed.signal|
  {
    var start, end := StartOf(feed, i), EndOf(feed, i);
    if start >= end || feed.signal[i].atr.None? then s
    else RunSeconds(cfg, feed, i, start, end, StartBar(s, i))
  }

  function RunBars(cfg: Config, feed: Feed, n: nat, balance: real): State
    requires n == 0 || n < |feed.signal|
  {
    if n == 0 then Initial(balance) else RunBar(cfg, feed, n - 1, RunBars(cfg, feed, n - 1, balance))
  }

  /** A position still open at the end is marked at the last close. */
  function FinalMark(cfg: Config, feed: Feed, s: State): State {
    if s.position.None? || feed.seconds == [] then s
    else
      var last := feed.seconds[|feed.seconds| - 1];
      CloseAt(cfg, s, s.position.value, last.close, FinalMarkToMarket, last.time, |feed.signal|, |feed.seconds|)
  }

  function Replay(cfg: Config, feed: Feed, balance: real): State {
    FinalMark(cfg, feed, RunBars(cfg, feed, if |feed.signal| == 0 then 0 else |feed.signal| - 1, balance))
  }

  // ----- invariants of a run -----

  /** An invariant of the engine in two phases: `before` holds between bars, of the state before bar
      `i`; `during` holds inside bar `i`. */
  ghost predicate PhasesKept(
      cfg: Config, feed: Feed, before: (State, nat) -> bool, during: (State, nat) -> bool, balance: real)
  {
    && before(Initial(balance), 0)
    && (forall s, i: nat :: before(s, i) ==> before(s, i + 1))
    && (forall s, i: nat :: before(s, i) ==> during(StartBar(s, i), i))
    && (forall s, i: nat, start: nat, pos: nat ::
          i < |feed.signal| && start <= pos < |feed.seconds| && feed.signal[i].atr.Some? && during(s, i) ==>
            during(StepSecond(cfg, feed, i, start, pos, s), i))
    && (forall s, i: nat :: during(s, i) ==> before(s, i + 1))
  }

  /** An invariant that every kind of step keeps. */
  ghost predicate Kept(cfg: Config, feed: Feed, inv: (State, nat) -> bool, balance: real) {
    PhasesKept(cfg, feed, inv, inv, balance)
  }

  lemma {:induction false} SecondsKeep(
      cfg: Config, feed: Feed, before: (State, nat) -> bool, during: (State, nat) -> bool, balance: real,
      i: nat, start: nat, pos: nat, s: State)
    requires PhasesKept(cfg, feed, before, during, balance) && during(s, i)
    requires i < |feed.signal| && start <= pos <= |feed.seconds| && feed.signal[i].atr.Some?
    ensures during(RunSeconds(cfg, feed, i, start, pos, s), i)
    decreases pos - start
  {
    hide StepSecond, StartBar, Initial;
    if pos > start {
      SecondsKeep(cfg, feed, before, during, balance, i, start, pos - 1, s);
    }
  }

  lemma StartsKept(
      cfg: Config, feed: Feed, before: (State, nat) -> bool, during: (State, nat) -> bool, balance: real)
    requires PhasesKept(cfg, feed, before, during, balance)
    ensures before(Initial(balance), 0)
  {
    hide StepSecond, StartBar, Initial;
  }

  lemma SkipBar(
      cfg: Config, feed: Feed, before: (State, nat) -> bool, during: (State, nat) -> bool, balance: real, s: State, i: nat)
    requires PhasesKept(cfg, feed, before, during, balance) && before(s, i)
    ensures before(s, i + 1)
  {
    hide StepSecond, StartBar, Initial;
  }

  lemma WholeBar(
      cfg: Config, feed: Feed, before: (State, nat) -> bool, during: (State, nat) -> bool, balance: real,
      s: State, i: nat, start: nat, end: nat)
    requires PhasesKept(cfg, feed, before, during, balance) && before(s, i)
    requires i < |feed.signal| && start <= end <= |feed.seconds| && feed.signal[i].atr.Some?
    ensures before(RunSeconds(cfg, feed, i, start, end, StartBar(s, i)), i + 1)
  {
    hide StepSecond, RunSeconds, StartBar, Initial;
    SecondsKeep(cfg, feed, before, during, balance, i, start, end, StartBar(s, i));
  }

  /** What every step keeps holds after every number of bars. */
  lemma {:induction false} PhasesKeep(
      cfg: Config, feed: Feed, before: (State, nat) -> bool, during: (State, nat) -> bool, balance: real, n: nat)
    requires PhasesKept(cfg, feed, before, during, balance) && (n == 0 || n < |feed.signal|)
    ensures before(RunBars(cfg, feed, n, balance), n)
  {
    hide PhasesKept, RunSeconds, StartBar, Initial, StartOf, EndOf;
    if n == 0 {
      StartsKept(cfg, feed, before, during, balance);
    } else {
      var i, s := n - 1, RunBars(cfg, feed, n - 1, balance);
      PhasesKeep(cfg, feed, before, during, balance, i);
      var start, end := StartOf(feed, i), EndOf(feed, i);
      if start < end && feed.signal[i].atr.Some? {
        WholeBar(cfg, feed, before, during, balance, s, i, start, end);
      } else {
        SkipBar(cfg, feed, before, during, balance, s, i);
      }
    }
  }

  lemma BarsKeep(cfg: Config, feed: Feed, inv: (State, nat) -> bool, balance: real, n: nat)
    requires Kept(cfg, feed, inv, balance) && (n == 0 || n < |feed.signal|)
    ensures inv(RunBars(cfg, feed, n, balance), n)
  {
    hide PhasesKept, RunBars;
    PhasesKeep(cfg, feed, inv, inv, balance, n);
  }
}
