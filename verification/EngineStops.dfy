/** The stop of an open position in closed form: the incremental updates of the engine add up to one
    best-of over the seconds since the entry. */
module EngineStops {
  import opened EngineLedger
  import opened FeedView
  import opened Market
  import opened Options
  import opened Reals
  import opened Rulebook
  import opened SecondReplay
  import opened Steps
  import opened StopHistory

  // ----- one position -----

  /** A swing position goes by the override if there is one. */
  function ForShape(shape: string, own: Option<real>, common: real): real {
    match own
    case Some(value) => if shape == T3_SWING then value else common
    case None => common
  }

  function RuleOf(cfg: Config, shape: string): Trail {
    Trail(ForShape(shape, cfg.overrides.trailingAtr, cfg.trailingAtr),
          Some(ForShape(shape, cfg.overrides.activation, cfg.activation)))
  }

  /** A swing position has been held for the seconds it must wait, if it must wait; times are in
      milliseconds. */
  predicate HasWaited(shape: string, wait: Option<real>, since: int, now: int) {
    shape == T3_SWING && wait.Some? ==> (now - since) as real >= 1000.0 * wait.value
  }

  function SeenAt(cfg: Config, here: Here, p: Position): Observation {
    Observation(here.sig.atr, here.second.high, here.second.low,
                HasWaited(p.shape, cfg.overrides.minHoldBeforeTrail, p.entryTime, here.second.time))
  }

  /** How far ahead the protected level arms. */
  function ArmingDistance(cfg: Config, shape: string, atr: real): real {
    ForShape(shape, cfg.overrides.protectAtr, cfg.protectAtr) * atr
  }

  /** A step reaches the distance at which the protected level arms. */
  predicate Reaches(cfg: Config, p: Position, seen: Observation) {
    var distance := ArmingDistance(cfg, p.shape, seen.atr);
    match p.side
    case Long => seen.high >= p.entryPrice + distance
    case Short => seen.low <= p.entryPrice - distance
  }

  /** Some second reached the distance at which the protected level arms. */
  ghost predicate ReachedProtection(cfg: Config, p: Position, held: seq<Observation>) {
    exists j :: 0 <= j < |held| && Reaches(cfg, p, held[j])
  }

  /** The closed form of an open position. */
  ghost predicate InClosedForm(cfg: Config, p: Position, held: seq<Observation>, protectedAtEntry: bool) {
    && p.water == WaterAfter(TradeOf(p), held, |held|)
    && IsBest(TradeOf(p), RuleOf(cfg, p.shape), held, 2 * |held|, p.stop)
    && (p.isProtected <==> protectedAtEntry || ReachedProtection(cfg, p, held))
  }

  /** The parts of a position that a second leaves alone. */
  ghost predicate SameTrade(p: Position, q: Position) {
    && TradeOf(p) == TradeOf(q) && p.shape == q.shape && p.entryTime == q.entryTime && p.entryAtr == q.entryAtr
    && p.notional == q.notional && p.sizeMultiplier == q.sizeMultiplier
  }

  /** The position is that of an entry row, and its initial stop the ATR stop of that entry. */
  ghost predicate FromEntry(cfg: Config, p: Position, entry: Row) {
    && p.side == entry.side && p.entryPrice == entry.price && p.entryAtr == entry.atr && p.shape == entry.shape
    && p.entryTime == entry.time && p.notional == entry.notional && p.sizeMultiplier == entry.sizeMultiplier
    && var distance := ForShape(p.shape, cfg.overrides.stopLossAtr, cfg.stopLossAtr) * p.entryAtr;
       p.initialStop == FirstStop(p.side, p.entryPrice, distance)
  }

  lemma WaitedIsAllowed(p: Position, wait: Option<real>, now: int)
    ensures AllowedAfter(p, wait, (now - p.entryTime) as real / 1000.0) <==> HasWaited(p.shape, wait, p.entryTime, now)
  {
    if wait.Some? {
      ShareAtLeast((now - p.entryTime) as real, 1000.0, wait.value);
    }
  }

  lemma EntryCarries(cfg: Config, p: Position, q: Position, entry: Row)
    requires FromEntry(cfg, p, entry) && SameTrade(p, q)
    ensures FromEntry(cfg, q, entry)
  {}

  /** The engine's trailing update is one evaluation of the trail. */
  lemma TrailEvaluates(cfg: Config, here: Here, p: Position, water: real)
    ensures TrailedAt(cfg, p, water, here.sig.atr, TrailAllowed(cfg, here, p)) ==
      Evaluated(TradeOf(p), RuleOf(cfg, p.shape), water, SeenAt(cfg, here, p), p.stop)
  {
    hide ProfitAtr, AllowedAfter, HasWaited, Ahead, Better;
    WaitedIsAllowed(p, cfg.overrides.minHoldBeforeTrail, here.second.time);
    ProfitIsAhead(TradeOf(p), water, here.sig.atr, RuleOf(cfg, p.shape).activation.value);
  }

  lemma ReachesTarget(cfg: Config, here: Here, p: Position)
    ensures NoWorse(p.side, Favourable(p.side, here.second.high, here.second.low), ProtectTarget(cfg, p, here.sig.atr)) <==>
      Reaches(cfg, p, SeenAt(cfg, here, p))
  {
    hide HasWaited;
  }

  lemma PreCheckEvaluates(cfg: Config, here: Here, p: Position)
    ensures var q := PreCheck(cfg, here, p);
      && q == p.(stop := q.stop)
      && q.stop == Evaluated(TradeOf(p), RuleOf(cfg, p.shape), p.water, SeenAt(cfg, here, p), p.stop)
  {
    hide TrailedAt, TrailAllowed, Evaluated;
    TrailEvaluates(cfg, here, p, p.water);
  }

  lemma PostCheckEvaluates(cfg: Config, here: Here, p: Position)
    ensures var q, seen := PostCheck(cfg, here, p), SeenAt(cfg, here, p);
      && SameTrade(p, q)
      && q.water == Better(p.side, p.water, FavourableOf(TradeOf(p), seen))
      && q.stop == Evaluated(TradeOf(p), RuleOf(cfg, p.shape), q.water, seen, p.stop)
      && (q.isProtected <==> p.isProtected || Reaches(cfg, p, seen))
  {
    hide TrailedAt, TrailAllowed, Evaluated, NoWorse, ProtectTarget, Reaches, Better, HasWaited;
    TrailEvaluates(cfg, here, p, Better(p.side, p.water, Favourable(p.side, here.second.high, here.second.low)));
    ReachesTarget(cfg, here, p);
  }

  lemma ReachesOfTrade(cfg: Config, p: Position, q: Position, seen: Observation)
    requires SameTrade(p, q)
    ensures Reaches(cfg, q, seen) == Reaches(cfg, p, seen)
  {
    hide ArmingDistance;
  }

  lemma ProtectionGrows(cfg: Config, p: Position, q: Position, held: seq<Observation>, seen: Observation)
    requires SameTrade(p, q)
    ensures ReachedProtection(cfg, q, held + [seen]) <==> ReachedProtection(cfg, p, held) || Reaches(cfg, p, seen)
  {
    hide Reaches;
    var more := held + [seen];
    forall o ensures Reaches(cfg, q, o) == Reaches(cfg, p, o) {
      ReachesOfTrade(cfg, p, q, o);
    }
    if ReachedProtection(cfg, p, held) {
      var j :| 0 <= j < |held| && Reaches(cfg, p, held[j]);
      assert more[j] == held[j];
    }
    assert more[|held|] == seen;
  }

  lemma SeenOfTrade(cfg: Config, here: Here, p: Position, q: Position)
    requires SameTrade(p, q)
    ensures SeenAt(cfg, here, p) == SeenAt(cfg, here, q)
  {}

  /** Water mark, stop and protection after a held second are in closed form again. */
  lemma HeldInClosedForm(cfg: Config, here: Here, p: Position, held: seq<Observation>, protectedAtEntry: bool)
    requires InClosedForm(cfg, p, held, protectedAtEntry)
    ensures InClosedForm(cfg, PostCheck(cfg, here, PreCheck(cfg, here, p)), held + [SeenAt(cfg, here, p)], protectedAtEntry)
  {
    hide IsBest, WaterAfter, Evaluated, ReachedProtection, SeenAt, PreCheck, PostCheck, Reaches, RuleOf;
    var p1, seen, rule := PreCheck(cfg, here, p), SeenAt(cfg, here, p), RuleOf(cfg, p.shape);
    var p2 := PostCheck(cfg, here, p1);
    PreCheckEvaluates(cfg, here, p);
    SeenOfTrade(cfg, here, p, p1);
    FirstEvaluation(TradeOf(p), rule, held, seen, p.stop);
    PostCheckEvaluates(cfg, here, p1);
    SecondEvaluation(TradeOf(p), rule, held, seen, p1.stop);
    ReachesOfTrade(cfg, p, p1, seen);
    ProtectionGrows(cfg, p, p2, held, seen);
  }

  // ----- the run -----

  /** An open position is in closed form; the last row of the ledger is its entry, which arms the
      protection when it is a PT-re-entry. */
  ghost predicate StopsOk(cfg: Config, s: State) {
    s.position.Some? ==>
      && s.ledger != [] && FromEntry(cfg, s.position.value, s.ledger[|s.ledger| - 1])
      && InClosedForm(cfg, s.position.value, s.held, s.ledger[|s.ledger| - 1].reason == PTReentry)
  }

  lemma OpenIsClosedForm(cfg: Config, s: State, here: Here, side: Side, raw: real, reason: Reason, w: Window)
    ensures StopsOk(cfg, OpenPosition(cfg, s, here, side, raw, reason, w))
  {
    hide EntryPrice, OrderNotional, IsBest, WaterAfter;
    var p := OpenPosition(cfg, s, here, side, raw, reason, w).position.value;
    NothingHeld(TradeOf(p), RuleOf(cfg, p.shape));
  }

  lemma FlatKeeps(cfg: Config, feed: Feed, s: State, here: Here, side: Side)
    requires s.position.None?
    ensures StopsOk(cfg, FlatStep(cfg, feed, s, here, side))
  {
    hide TryLock, TryExternal, OpenPosition, FillTriggered, InClosedForm;
    var s2 := TryExternal(feed, TryLock(cfg, s, here, side), here, side);
    LocksKeepBooks(cfg, feed, s, here, side);
    forall raw: real, reason, w: Window ensures StopsOk(cfg, OpenPosition(cfg, s2, here, side, raw, reason, w)) {
      OpenIsClosedForm(cfg, s2, here, side, raw, reason, w);
    }
  }

  lemma HoldKeeps(cfg: Config, s: State, here: Here, p: Position)
    requires StopsOk(cfg, s) && s.position == Some(p)
    ensures StopsOk(cfg, HoldStep(cfg, s, here, p))
  {
    hide InClosedForm, PreCheck, PostCheck, ExitTrigger, ExitPrice, Pnl, AllowedAfter, HasWaited, FromEntry, Evaluated, Reaches;
    WaitedIsAllowed(p, cfg.overrides.minHoldBeforeTrail, here.second.time);
    var p1 := PreCheck(cfg, here, p);
    PreCheckEvaluates(cfg, here, p);
    PostCheckEvaluates(cfg, here, p1);
    EntryCarries(cfg, p, PostCheck(cfg, here, p1), s.ledger[|s.ledger| - 1]);
    HeldInClosedForm(cfg, here, p, s.held, s.ledger[|s.ledger| - 1].reason == PTReentry);
  }

  lemma StepKeeps(cfg: Config, feed: Feed, i: nat, start: nat, pos: nat, s: State)
    requires i < |feed.signal| && pos < |feed.seconds| && feed.signal[i].atr.Some?
    requires StopsOk(cfg, s)
    ensures StopsOk(cfg, StepSecond(cfg, feed, i, start, pos, s))
  {
    hide InClosedForm, FlatStep, HoldStep, SideReady, Forced, Higher, Lower;
    var here := HereAt(cfg, feed, i, start, pos, s);
    var s1 := Observe(cfg, feed, s, here);
    if s1.position.Some? {
      HoldKeeps(cfg, s1, here, s1.position.value);
    } else {
      FlatKeeps(cfg, feed, s1, here, Long);
      FlatKeeps(cfg, feed, s1, here, Short);
    }
  }

  // ----- what was seen, in terms of the feed -----

  /** What a position sees at a step, from the feed alone. */
  function SeenOf(cfg: Config, feed: Feed, p: Position, step: Step): Observation
    requires IsStep(feed, step)
  {
    SeenAt(cfg, HereOf(cfg, feed, step), p)
  }

  ghost predicate SawStep(cfg: Config, feed: Feed, p: Position, o: Observation, step: Step) {
    IsStep(feed, step) && o == SeenOf(cfg, feed, p, step)
  }

  /** A position has seen exactly the steps after that of its entry row. */
  ghost predicate HasSeen(cfg: Config, feed: Feed, p: Position, entry: Row, held: seq<Observation>, steps: seq<Step>) {
    && |held| < |steps|
    && entry.bar == steps[|steps| - |held| - 1].bar && entry.second == steps[|steps| - |held| - 1].second
    && forall j :: 0 <= j < |held| ==> SawStep(cfg, feed, p, held[j], steps[|steps| - |held| + j])
  }

  ghost predicate HeldOk(cfg: Config, feed: Feed, s: State, steps: seq<Step>) {
    s.position.Some? ==>
      s.ledger != [] && HasSeen(cfg, feed, s.position.value, s.ledger[|s.ledger| - 1], s.held, steps)
  }

  lemma SeesOneMore(cfg: Config, feed: Feed, p: Position, q: Position, entry: Row, held: seq<Observation>,
                    steps: seq<Step>, step: Step)
    requires HasSeen(cfg, feed, p, entry, held, steps) && IsStep(feed, step) && SameTrade(p, q)
    ensures HasSeen(cfg, feed, q, entry, held + [SeenOf(cfg, feed, p, step)], steps + [step])
  {
    hide HereOf, SeenAt, IsStep;
    var more, all := held + [SeenOf(cfg, feed, p, step)], steps + [step];
    forall j | 0 <= j < |more| ensures SawStep(cfg, feed, q, more[j], all[|all| - |more| + j]) {
      var here := all[|all| - |more| + j];
      if j < |held| {
        assert SawStep(cfg, feed, p, held[j], steps[|steps| - |held| + j]);
      }
      SeenOfTrade(cfg, HereOf(cfg, feed, here), p, q);
    }
  }

  lemma HoldSees(cfg: Config, feed: Feed, s: State, steps: seq<Step>, step: Step, p: Position)
    requires IsStep(feed, step) && HeldOk(cfg, feed, s, steps) && s.position == Some(p)
    ensures HeldOk(cfg, feed, HoldStep(cfg, s, HereOf(cfg, feed, step), p), steps + [step])
  {
    hide HereOf, PreCheck, PostCheck, ExitTrigger, ExitPrice, Pnl, AllowedAfter, HasWaited, Evaluated, IsStep, Reaches, HasSeen;
    WaitedIsAllowed(p, cfg.overrides.minHoldBeforeTrail, HereOf(cfg, feed, step).second.time);
    var here, p1 := HereOf(cfg, feed, step), PreCheck(cfg, HereOf(cfg, feed, step), p);
    PreCheckEvaluates(cfg, here, p);
    PostCheckEvaluates(cfg, here, p1);
    SeesOneMore(cfg, feed, p, PostCheck(cfg, here, p1), s.ledger[|s.ledger| - 1], s.held, steps, step);
  }

  lemma OpenSees(cfg: Config, feed: Feed, s: State, steps: seq<Step>, step: Step, side: Side, raw: real, reason: Reason, w: Window)
    requires IsStep(feed, step)
    ensures HeldOk(cfg, feed, OpenPosition(cfg, s, HereOf(cfg, feed, step), side, raw, reason, w), steps + [step])
  {
    hide AtrStop, EntryPrice, OrderNotional, SignalAt;
  }

  lemma FlatSees(cfg: Config, feed: Feed, s: State, steps: seq<Step>, step: Step, side: Side)
    requires IsStep(feed, step) && s.position.None?
    ensures HeldOk(cfg, feed, FlatStep(cfg, feed, s, HereOf(cfg, feed, step), side), steps + [step])
  {
    hide TryLock, TryExternal, OpenPosition, FillTriggered, HereOf, HasSeen, IsStep;
    var here := HereOf(cfg, feed, step);
    var s2 := TryExternal(feed, TryLock(cfg, s, here, side), here, side);
    LocksKeepBooks(cfg, feed, s, here, side);
    forall raw: real, reason, w: Window
      ensures HeldOk(cfg, feed, OpenPosition(cfg, s2, here, side, raw, reason, w), steps + [step])
    {
      OpenSees(cfg, feed, s2, steps, step, side, raw, reason, w);
    }
  }

  lemma StepSees(cfg: Config, feed: Feed, i: nat, pos: nat, s: State, steps: seq<Step>)
    requires IsStep(feed, Step(i, pos)) && HeldOk(cfg, feed, s, steps) && SeesFeed(cfg, feed, i, pos, s)
    ensures HeldOk(cfg, feed, StepSecond(cfg, feed, i, StartOf(feed, i), pos, s), steps + [Step(i, pos)])
  {
    hide FlatStep, HoldStep, SideReady, Forced, Higher, Lower, HereOf, HereAt, HasSeen, StartOf, EndOf;
    var here := HereOf(cfg, feed, Step(i, pos));
    var s1 := Observe(cfg, feed, s, here);
    if s1.position.Some? {
      HoldSees(cfg, feed, s1, steps, Step(i, pos), s1.position.value);
    } else {
      FlatSees(cfg, feed, s1, steps, Step(i, pos), Long);
      FlatSees(cfg, feed, s1, steps, Step(i, pos), Short);
    }
  }

  // ----- the invariant -----

  ghost predicate BeforeBar(cfg: Config, feed: Feed, s: State, i: int) {
    i >= 0 && StopsOk(cfg, s) && HeldOk(cfg, feed, s, StepsBefore(feed, i))
  }

  ghost predicate InsideBar(cfg: Config, feed: Feed, s: State, i: int, pos: int) {
    i >= 0 && pos >= 0 && Visited(feed, i) && StopsOk(cfg, s) && HeldOk(cfg, feed, s, StepsUpTo(feed, i, pos))
  }

  lemma BarKeeps(cfg: Config, feed: Feed, s: State, i: nat)
    requires BeforeBar(cfg, feed, s, i) && i + 1 < |feed.signal|
    ensures !Visited(feed, i) ==> BeforeBar(cfg, feed, s, i + 1)
    ensures Visited(feed, i) ==> InsideBar(cfg, feed, StartBar(s, i), i, StartOf(feed, i))
  {
    hide InClosedForm, HasSeen, Visited, StartOf, StepsBefore, StepsUpTo;
    if Visited(feed, i) {
      StepsGrow(feed, i, StartOf(feed, i));
    } else {
      SkippedAddsNothing(feed, i);
    }
  }

  lemma SecondKeeps(cfg: Config, feed: Feed, s: State, i: nat, pos: nat)
    requires InsideBar(cfg, feed, s, i, pos) && IsStep(feed, Step(i, pos)) && SeesFeed(cfg, feed, i, pos, s)
    ensures InsideBar(cfg, feed, StepSecond(cfg, feed, i, StartOf(feed, i), pos, s), i, pos + 1)
  {
    hide StopsOk, HeldOk, StepSecond, StartOf, EndOf, HereAt, HereOf, StepsUpTo;
    StepsGrow(feed, i, pos);
    StepKeeps(cfg, feed, i, StartOf(feed, i), pos, s);
    StepSees(cfg, feed, i, pos, s, StepsUpTo(feed, i, pos));
  }

  lemma StopsKept(cfg: Config, feed: Feed, initial: real)
    ensures RunKept(cfg, feed, (s, i) => BeforeBar(cfg, feed, s, i), (s, i, pos) => InsideBar(cfg, feed, s, i, pos), initial)
  {
    hide StopsOk, HeldOk, StepSecond, StartBar, StartOf, EndOf, HereAt, HereOf, StepsUpTo, StepsBefore;
    InitialStops(cfg, feed, initial);
    forall s, i: nat | i + 1 < |feed.signal| && BeforeBar(cfg, feed, s, i)
      ensures !Visited(feed, i) ==> BeforeBar(cfg, feed, s, i + 1)
      ensures Visited(feed, i) ==> InsideBar(cfg, feed, StartBar(s, i), i, StartOf(feed, i))
    {
      BarKeeps(cfg, feed, s, i);
    }
    forall s, i: nat, pos: nat
      | IsStep(feed, Step(i, pos)) && InsideBar(cfg, feed, s, i, pos) && SeesFeed(cfg, feed, i, pos, s)
      ensures InsideBar(cfg, feed, StepSecond(cfg, feed, i, StartOf(feed, i), pos, s), i, pos + 1)
    {
      SecondKeeps(cfg, feed, s, i, pos);
    }
    forall s, i: nat | Visited(feed, i) && InsideBar(cfg, feed, s, i, EndOf(feed, i))
      ensures BeforeBar(cfg, feed, s, i + 1)
    {
      StepsGrow(feed, i, EndOf(feed, i));
    }
  }

  lemma InitialStops(cfg: Config, feed: Feed, initial: real)
    ensures BeforeBar(cfg, feed, Initial(initial), 0)
  {}

  lemma StopsInside(cfg: Config, feed: Feed, i: nat, pos: nat, initial: real)
    requires Visited(feed, i) && StartOf(feed, i) <= pos <= EndOf(feed, i)
    ensures InsideBar(cfg, feed, StateAt(cfg, feed, i, pos, initial), i, pos)
  {
    hide InsideBar, RunKept, StateAt, StartOf, EndOf;
    StopsKept(cfg, feed, initial);
    RunKeeps(cfg, feed, (s, i) => BeforeBar(cfg, feed, s, i), (s, i, pos) => InsideBar(cfg, feed, s, i, pos), initial, i, pos);
  }

  /** In every state a replay passes through, after any second of any bar, an open position has seen
      exactly the steps after its entry, as the feed shows them, and its initial stop is the ATR stop of
      that entry. Over these steps the water mark is the extreme since entry, the stop the best of the
      initial stop and all trail candidates of active evaluations, and the position is protected exactly
      when it was at entry or some second reached the distance. */
  lemma StopInClosedForm(cfg: Config, feed: Feed, i: nat, pos: nat, initial: real)
    requires Visited(feed, i) && StartOf(feed, i) <= pos <= EndOf(feed, i)
    ensures var s := StateAt(cfg, feed, i, pos, initial);
      && HeldOk(cfg, feed, s, StepsUpTo(feed, i, pos))
      && (s.position.Some? ==>
            var p := s.position.value;
            && IsWater(TradeOf(p), s.held, |s.held|, p.water)
            && IsBest(TradeOf(p), RuleOf(cfg, p.shape), s.held, 2 * |s.held|, p.stop)
            && s.ledger != [] && FromEntry(cfg, p, s.ledger[|s.ledger| - 1])
            && (p.isProtected <==> s.ledger[|s.ledger| - 1].reason == PTReentry || ReachedProtection(cfg, p, s.held)))
  {
    hide StateAt, IsWater, IsBest, ReachedProtection, HeldOk, StartOf, EndOf, StepsUpTo;
    StopsInside(cfg, feed, i, pos, initial);
    var s := StateAt(cfg, feed, i, pos, initial);
    if s.position.Some? {
      FoldIsWater(TradeOf(s.position.value), s.held, |s.held|);
    }
  }
}
