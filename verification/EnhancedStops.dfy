/** The stop of the one-minute engine in closed form, over the minutes since the entry. */
module EnhancedStops {
  import opened EnhancedReplay
  import opened Market
  import opened Options
  import opened Rulebook
  import S = SecondReplay
  import opened Steps
  import opened StopHistory

  // ----- one position -----

  function RuleOf(cfg: Config): Trail {
    Trail(if cfg.trailingAtr.Some? then cfg.trailingAtr.value else 0.0, cfg.activation)
  }

  /** A minute arms the protection at the distance, in ATR: with tiers by the water mark after it, where
      nothing is ahead without an ATR, otherwise by its own extreme. */
  predicate ArmsAt(cfg: Config, t: Trade, water: real, seen: Observation) {
    var distance := cfg.protectAtr * seen.atr;
    if cfg.tiered then if seen.atr > 0.0 then Ahead(t, water) >= distance else cfg.protectAtr <= 0.0
    else
      match t.side
      case Long => seen.high >= t.entryPrice + distance
      case Short => seen.low <= t.entryPrice - distance
  }

  ghost predicate ArmedBy(cfg: Config, t: Trade, held: seq<Observation>) {
    exists j :: 0 <= j < |held| && ArmsAt(cfg, t, WaterAfter(t, held, j + 1), held[j])
  }

  /** The closed form of an open position. */
  ghost predicate InClosedForm(cfg: Config, p: Position, held: seq<Observation>, protectedAtEntry: bool) {
    && p.water == WaterAfter(TradeOf(p), held, |held|)
    && IsBest(TradeOf(p), RuleOf(cfg), held, 2 * |held|, p.stop)
    && (p.isProtected <==> protectedAtEntry || ArmedBy(cfg, TradeOf(p), held))
  }

  /** The engine's trailing update is one evaluation of the trail. */
  lemma TrailEvaluates(cfg: Config, here: S.Here, p: Position, water: real)
    ensures TrailedAt(cfg, p, water, here.sig.atr) ==
      Evaluated(TradeOf(p), RuleOf(cfg), water, SeenAt(cfg, here), p.stop)
  {
    hide ProfitAtr, Ahead, Better;
    if cfg.activation.Some? {
      ProfitIsAhead(TradeOf(p), water, here.sig.atr, cfg.activation.value);
    }
  }

  lemma ArmsEvaluates(cfg: Config, here: S.Here, p: Position, water: real)
    ensures Arms(cfg, here, p, water, Favourable(p.side, here.second.high, here.second.low)) <==>
      ArmsAt(cfg, TradeOf(p), water, SeenAt(cfg, here))
  {
    hide ProfitAtr, Ahead;
    ProfitIsAhead(TradeOf(p), water, here.sig.atr, cfg.protectAtr);
    NegatedProduct(cfg.protectAtr, here.sig.atr);
  }

  lemma NegatedProduct(a: real, b: real)
    ensures -a * b == -(a * b)
  {}

  lemma PreCheckEvaluates(cfg: Config, here: S.Here, p: Position)
    ensures var q := PreCheck(cfg, here, p);
      && q == p.(stop := q.stop)
      && q.stop == Evaluated(TradeOf(p), RuleOf(cfg), p.water, SeenAt(cfg, here), p.stop)
  {
    hide TrailedAt, Evaluated;
    TrailEvaluates(cfg, here, p, p.water);
  }

  lemma PostCheckEvaluates(cfg: Config, here: S.Here, p: Position)
    ensures var q, seen := PostCheck(cfg, here, p), SeenAt(cfg, here);
      && TradeOf(q) == TradeOf(p) && q.entryAtr == p.entryAtr && q.notional == p.notional && q.entryTime == p.entryTime
      && q.water == Better(p.side, p.water, FavourableOf(TradeOf(p), seen))
      && q.stop == Evaluated(TradeOf(p), RuleOf(cfg), q.water, seen, p.stop)
      && (q.isProtected <==> p.isProtected || ArmsAt(cfg, TradeOf(p), q.water, seen))
  {
    hide TrailedAt, Evaluated, Arms, ArmsAt, Better;
    var water := Better(p.side, p.water, Favourable(p.side, here.second.high, here.second.low));
    TrailEvaluates(cfg, here, p, water);
    ArmsEvaluates(cfg, here, p, water);
  }

  lemma ArmedGrows(cfg: Config, t: Trade, held: seq<Observation>, seen: Observation)
    ensures ArmedBy(cfg, t, held + [seen]) <==>
      ArmedBy(cfg, t, held) || ArmsAt(cfg, t, WaterAfter(t, held + [seen], |held| + 1), seen)
  {
    hide ArmsAt, WaterAfter;
    var more := held + [seen];
    forall j | 0 <= j < |held| ensures WaterAfter(t, more, j + 1) == WaterAfter(t, held, j + 1) && more[j] == held[j] {
      WaterPrefix(t, held, seen, j + 1);
    }
    if ArmedBy(cfg, t, held) {
      var j :| 0 <= j < |held| && ArmsAt(cfg, t, WaterAfter(t, held, j + 1), held[j]);
      assert ArmsAt(cfg, t, WaterAfter(t, more, j + 1), more[j]);
    }
    assert more[|held|] == seen;
  }

  /** Water mark, stop and protection after a held minute are in closed form again. */
  lemma HeldInClosedForm(cfg: Config, here: S.Here, p: Position, held: seq<Observation>, protectedAtEntry: bool)
    requires InClosedForm(cfg, p, held, protectedAtEntry)
    ensures InClosedForm(cfg, PostCheck(cfg, here, PreCheck(cfg, here, p)), held + [SeenAt(cfg, here)], protectedAtEntry)
  {
    hide IsBest, WaterAfter, Evaluated, ArmedBy, ArmsAt, SeenAt, PreCheck, PostCheck, RuleOf;
    var p1, seen, rule := PreCheck(cfg, here, p), SeenAt(cfg, here), RuleOf(cfg);
    PreCheckEvaluates(cfg, here, p);
    FirstEvaluation(TradeOf(p), rule, held, seen, p.stop);
    PostCheckEvaluates(cfg, here, p1);
    SecondEvaluation(TradeOf(p), rule, held, seen, p1.stop);
    ArmedGrows(cfg, TradeOf(p), held, seen);
  }

  // ----- what was seen, in terms of the feed -----

  ghost predicate SawStep(cfg: Config, feed: Feed, o: Observation, step: Step) {
    IsStep(feed, step) && o == SeenAt(cfg, HereOf(feed, step))
  }

  /** A position has seen exactly the steps after that of its entry row. */
  ghost predicate HasSeen(cfg: Config, feed: Feed, entry: Row, held: seq<Observation>, steps: seq<Step>) {
    && |held| < |steps| && entry.Trade?
    && entry.bar == steps[|steps| - |held| - 1].bar && entry.minute == steps[|steps| - |held| - 1].second
    && forall j :: 0 <= j < |held| ==> SawStep(cfg, feed, held[j], steps[|steps| - |held| + j])
  }

  /** The position is that of an entry row, and its initial stop the ATR stop of that entry. */
  ghost predicate FromEntry(cfg: Config, p: Position, entry: Row) {
    && entry.Trade? && p.side == entry.side && p.entryPrice == entry.price && p.entryAtr == entry.atr
    && p.notional == entry.notional
    && p.initialStop == FirstStop(p.side, p.entryPrice, cfg.stopLossAtr * p.entryAtr)
  }

  /** An open position is in closed form over the minutes since its entry, the last row. */
  ghost predicate StopsOk(cfg: Config, feed: Feed, s: State, steps: seq<Step>) {
    s.position.Some? ==>
      && s.ledger != [] && FromEntry(cfg, s.position.value, s.ledger[|s.ledger| - 1])
      && InClosedForm(cfg, s.position.value, s.held, s.ledger[|s.ledger| - 1].reason == PTReentry)
      && HasSeen(cfg, feed, s.ledger[|s.ledger| - 1], s.held, steps)
  }

  lemma SeesOneMore(cfg: Config, feed: Feed, entry: Row, held: seq<Observation>, steps: seq<Step>, step: Step)
    requires HasSeen(cfg, feed, entry, held, steps) && IsStep(feed, step)
    ensures HasSeen(cfg, feed, entry, held + [SeenAt(cfg, HereOf(feed, step))], steps + [step])
  {
    hide HereOf, SeenAt, IsStep;
    var more, all := held + [SeenAt(cfg, HereOf(feed, step))], steps + [step];
    forall j | 0 <= j < |more| ensures SawStep(cfg, feed, more[j], all[|all| - |more| + j]) {
      if j < |held| {
        assert SawStep(cfg, feed, held[j], steps[|steps| - |held| + j]);
      }
    }
  }

  lemma HoldKeeps(cfg: Config, feed: Feed, s: State, steps: seq<Step>, step: Step, p: Position)
    requires IsStep(feed, step) && StopsOk(cfg, feed, s, steps) && s.position == Some(p)
    ensures StopsOk(cfg, feed, HoldStep(cfg, s, HereOf(feed, step), p), steps + [step])
  {
    hide InClosedForm, HasSeen, HereOf, PreCheck, PostCheck, ExitTrigger, ExitPrice, BalanceAfter, Trips, Drawdown, SeenAt, IsStep,
         AtrStop, Evaluated, ArmsAt;
    var here := HereOf(feed, step);
    PreCheckEvaluates(cfg, here, p);
    PostCheckEvaluates(cfg, here, PreCheck(cfg, here, p));
    var entry := s.ledger[|s.ledger| - 1];
    HeldInClosedForm(cfg, here, p, s.held, entry.reason == PTReentry);
    SeesOneMore(cfg, feed, entry, s.held, steps, step);
  }

  lemma OpenIsClosedForm(cfg: Config, feed: Feed, s: State, steps: seq<Step>, step: Step, side: Side, raw: real,
                         reason: Reason, afterExit: bool)
    requires IsStep(feed, step)
    ensures StopsOk(cfg, feed, OpenPosition(cfg, s, HereOf(feed, step), side, raw, reason, afterExit), steps + [step])
  {
    hide EntryPrice, OrderNotional, IsBest, WaterAfter;
    var p := OpenPosition(cfg, s, HereOf(feed, step), side, raw, reason, afterExit).position.value;
    NothingHeld(TradeOf(p), RuleOf(cfg));
  }

  lemma FlatKeeps(cfg: Config, feed: Feed, s: State, steps: seq<Step>, step: Step, side: Side)
    requires IsStep(feed, step) && s.position.None?
    ensures StopsOk(cfg, feed, FlatStep(cfg, s, HereOf(feed, step), side), steps + [step])
  {
    hide OpenPosition, FillPrice, ReentryPrice, HereOf, HasSeen, IsStep, InClosedForm, Broke;
    var here := HereOf(feed, step);
    var s1 := TryLock(s, here, side);
    forall raw: real, reason, afterExit
      ensures StopsOk(cfg, feed, OpenPosition(cfg, s1, here, side, raw, reason, afterExit), steps + [step])
    {
      OpenIsClosedForm(cfg, feed, s1, steps, step, side, raw, reason, afterExit);
    }
  }

  lemma StepKeeps(cfg: Config, feed: Feed, s: State, steps: seq<Step>, step: Step)
    requires IsStep(feed, step) && StopsOk(cfg, feed, s, steps)
    ensures StopsOk(cfg, feed, StepOf(cfg, feed, step, s), steps + [step])
  {
    hide FlatStep, HoldStep, RegimeReady, HereAt, InClosedForm, HasSeen, IsStep, Paused;
    if s.position.Some? {
      HoldKeeps(cfg, feed, s, steps, step, s.position.value);
    } else {
      FlatKeeps(cfg, feed, s, steps, step, Long);
      FlatKeeps(cfg, feed, s, steps, step, Short);
    }
  }

  // ----- the run -----

  ghost predicate BeforeBar(cfg: Config, feed: Feed, s: State, i: int) {
    i >= 0 && StopsOk(cfg, feed, s, StepsBefore(feed, i))
  }

  ghost predicate InsideBar(cfg: Config, feed: Feed, s: State, i: int, pos: int) {
    i >= 0 && pos >= 0 && Visited(feed, i) && StopsOk(cfg, feed, s, StepsUpTo(feed, i, pos))
  }

  lemma BarKeeps(cfg: Config, feed: Feed, s: State, i: nat)
    requires BeforeBar(cfg, feed, s, i) && i + 1 < |feed.signal|
    ensures !Visited(feed, i) ==> BeforeBar(cfg, feed, s, i + 1)
    ensures Visited(feed, i) ==> InsideBar(cfg, feed, StartBar(s, i), i, S.StartOf(feed, i))
  {
    hide InClosedForm, HasSeen, Visited, S.StartOf, StepsBefore, StepsUpTo;
    if Visited(feed, i) {
      StepsGrow(feed, i, S.StartOf(feed, i));
    } else {
      SkippedAddsNothing(feed, i);
    }
  }

  lemma MinuteKeeps(cfg: Config, feed: Feed, s: State, i: nat, pos: nat)
    requires InsideBar(cfg, feed, s, i, pos) && IsStep(feed, Step(i, pos))
    ensures InsideBar(cfg, feed, StepOf(cfg, feed, Step(i, pos), s), i, pos + 1)
  {
    hide StopsOk, StepOf, S.StartOf, S.EndOf, StepsUpTo;
    StepsGrow(feed, i, pos);
    StepKeeps(cfg, feed, s, StepsUpTo(feed, i, pos), Step(i, pos));
  }

  lemma InitialStops(cfg: Config, feed: Feed, initial: real)
    ensures BeforeBar(cfg, feed, Initial(initial), 0)
  {}

  lemma StopsKept(cfg: Config, feed: Feed, initial: real)
    ensures RunKept(cfg, feed, (s, i) => BeforeBar(cfg, feed, s, i), (s, i, pos) => InsideBar(cfg, feed, s, i, pos), initial)
  {
    hide StopsOk, StepOf, StartBar, S.StartOf, S.EndOf, StepsUpTo, StepsBefore;
    InitialStops(cfg, feed, initial);
    forall s, i: nat | i + 1 < |feed.signal| && BeforeBar(cfg, feed, s, i)
      ensures !Visited(feed, i) ==> BeforeBar(cfg, feed, s, i + 1)
      ensures Visited(feed, i) ==> InsideBar(cfg, feed, StartBar(s, i), i, S.StartOf(feed, i))
    {
      BarKeeps(cfg, feed, s, i);
    }
    forall s, i: nat, pos: nat | IsStep(feed, Step(i, pos)) && InsideBar(cfg, feed, s, i, pos)
      ensures InsideBar(cfg, feed, StepOf(cfg, feed, Step(i, pos), s), i, pos + 1)
    {
      MinuteKeeps(cfg, feed, s, i, pos);
    }
    forall s, i: nat | Visited(feed, i) && InsideBar(cfg, feed, s, i, S.EndOf(feed, i))
      ensures BeforeBar(cfg, feed, s, i + 1)
    {
      StepsGrow(feed, i, S.EndOf(feed, i));
    }
  }

  /** In every state a run passes through, after any minute of any bar, an open position has seen exactly
      the steps after its entry, and its initial stop is the ATR stop of that entry. Over these steps the
      water mark is the extreme since entry, the stop the best of the initial stop and all trail
      candidates of active evaluations, and the position is protected exactly when it was at entry or
      some minute armed it. */
  lemma StopInClosedForm(cfg: Config, feed: Feed, i: nat, pos: nat, initial: real)
    requires Visited(feed, i) && S.StartOf(feed, i) <= pos <= S.EndOf(feed, i)
    ensures var s := StateAt(cfg, feed, i, pos, initial);
      s.position.Some? ==>
        var p := s.position.value;
        && s.ledger != [] && FromEntry(cfg, p, s.ledger[|s.ledger| - 1])
        && HasSeen(cfg, feed, s.ledger[|s.ledger| - 1], s.held, StepsUpTo(feed, i, pos))
        && IsWater(TradeOf(p), s.held, |s.held|, p.water)
        && IsBest(TradeOf(p), RuleOf(cfg), s.held, 2 * |s.held|, p.stop)
        && (p.isProtected <==> s.ledger[|s.ledger| - 1].reason == PTReentry || ArmedBy(cfg, TradeOf(p), s.held))
  {
    hide StateAt, RunKept, IsWater, IsBest, ArmedBy, HasSeen, S.StartOf, S.EndOf, StepsUpTo;
    StopsKept(cfg, feed, initial);
    RunKeeps(cfg, feed, (s, i) => BeforeBar(cfg, feed, s, i), (s, i, pos) => InsideBar(cfg, feed, s, i, pos), initial, i, pos);
    var s := StateAt(cfg, feed, i, pos, initial);
    if s.position.Some? {
      FoldIsWater(TradeOf(s.position.value), s.held, |s.held|);
    }
  }
}
