/** Tiered protection: the more profit a position has shown, the tighter the level that protects it. */
module Tiers {
  import opened EnhancedReplay
  import opened Market
  import opened Options
  import opened Reals
  import S = SecondReplay
  import opened Steps

  /** Positions of the same trade, the second with a water mark at least as far ahead. */
  ghost predicate Ahead(p: Position, q: Position) {
    q.side == p.side && q.entryPrice == p.entryPrice && NoWorse(p.side, q.water, p.water)
  }

  lemma ProfitGrows(p: Position, q: Position, atr: real)
    requires Ahead(p, q)
    ensures ProfitAtr(p.side, p.entryPrice, p.water, atr) <= ProfitAtr(q.side, q.entryPrice, q.water, atr)
  {
    if atr > 0.0 {
      var a := if p.side == Long then p.water - p.entryPrice else p.entryPrice - p.water;
      var b := if p.side == Long then q.water - q.entryPrice else q.entryPrice - q.water;
      DivMonotone(a, b, atr);
    }
  }

  /** A profit of so many ATR puts the water mark that far ahead of the entry. */
  lemma WaterAhead(side: Side, entry: real, water: real, atr: real, n: real)
    requires n > 0.0 && ProfitAtr(side, entry, water, atr) >= n
    ensures atr > 0.0 && (if side == Long then water - entry else entry - water) >= n * atr
  {
    var ahead := if side == Long then water - entry else entry - water;
    MulMonotone(n, ahead / atr, atr);
    assert ahead / atr * atr == ahead;
  }

  /** The level of the highest tier is at least as good as that of the middle one. */
  lemma TopTierIsBest(side: Side, entry: real, water: real, atr: real)
    requires ProfitAtr(side, entry, water, atr) >= 3.0
    ensures NoWorse(side, TrailStop(side, water, atr, 1.5), TrailStop(side, entry, atr, -0.5))
  {
    WaterAhead(side, entry, water, atr, 3.0);
  }

  lemma BetterKeepsOrder(side: Side, level: real, a: real, b: real)
    requires NoWorse(side, b, a)
    ensures NoWorse(side, Better(side, level, b), Better(side, level, a)) && NoWorse(side, Better(side, level, a), level)
  {}

  lemma TrailFollows(side: Side, a: real, b: real, atr: real)
    requires NoWorse(side, b, a)
    ensures NoWorse(side, TrailStop(side, b, atr, 1.5), TrailStop(side, a, atr, 1.5))
  {}

  /** More profit never loosens the protected level. */
  lemma TiersTighten(cfg: Config, here: S.Here, p: Position, q: Position)
    requires Ahead(p, q)
    ensures var a, b := ProtectedLevel(cfg, here, p).0, ProtectedLevel(cfg, here, q).0;
      && (a.Some? <==> b.Some?)
      && (a.Some? ==> NoWorse(p.side, b.value, a.value))
  {
    hide ProfitAtr, TrailStop, Better;
    var atr, level := here.sig.atr, if p.side == Long then here.sig.row.prevLow1 else here.sig.row.prevHigh1;
    var low, high := ProfitAtr(p.side, p.entryPrice, p.water, atr), ProfitAtr(q.side, q.entryPrice, q.water, atr);
    ProfitGrows(p, q, atr);
    if level.Some? && cfg.tiered {
      var middle, top := TrailStop(q.side, q.entryPrice, atr, -0.5), TrailStop(q.side, q.water, atr, 1.5);
      if high >= 3.0 {
        TopTierIsBest(q.side, q.entryPrice, q.water, atr);
        TrailFollows(p.side, p.water, q.water, atr);
        BetterKeepsOrder(p.side, level.value, TrailStop(p.side, p.water, atr, 1.5), top);
        BetterKeepsOrder(p.side, level.value, middle, top);
        NoWorseTransitive(p.side, Better(p.side, level.value, top), Better(p.side, level.value, middle), level.value);
      } else if high >= 2.0 {
        BetterKeepsOrder(p.side, level.value, middle, middle);
      }
    }
  }

  /** The tiered level is at least as good as the plain one. */
  lemma TieredLevel(cfg: Config, here: S.Here, p: Position)
    ensures var plain, tiered := ProtectedLevel(cfg.(tiered := false), here, p).0, ProtectedLevel(cfg.(tiered := true), here, p).0;
      && (plain.Some? <==> tiered.Some?)
      && (plain.Some? ==> NoWorse(p.side, tiered.value, plain.value))
  {
    hide ProfitAtr, TrailStop;
  }

  /** In one minute, for the same position: when the rule without tiers leaves, the one with tiers does,
      at a raw price that is no worse. */
  lemma TieredExitsNoLater(cfg: Config, here: S.Here, p: Position)
    ensures var plain, tiered := ExitTrigger(cfg.(tiered := false), here, p), ExitTrigger(cfg.(tiered := true), here, p);
      plain.Some? ==> tiered.Some? && NoWorse(p.side, tiered.value.0, plain.value.0)
  {
    hide ProtectedLevel;
    TieredLevel(cfg, here, p);
  }

  // ----- a whole holding -----

  /** A position held over some minutes, or none once it has left. */
  function Held(cfg: Config, heres: seq<S.Here>, p: Position): Option<Position> {
    if heres == [] then Some(p)
    else
      var here, before := heres[|heres| - 1], Held(cfg, heres[..|heres| - 1], p);
      if before.None? then None
      else
        var q := PreCheck(cfg, here, before.value);
        if ExitTrigger(cfg, here, q).Some? then None else Some(PostCheck(cfg, here, q))
  }

  /** Positions that differ in their protection only, where the second may be the better protected one. */
  ghost predicate NoLessProtected(p: Position, q: Position) {
    q == p.(isProtected := q.isProtected) && (p.isProtected ==> q.isProtected)
  }

  /** With a positive ATR, what arms the plain protection arms the tiered one. */
  lemma ArmsWithTiers(cfg: Config, here: S.Here, p: Position, water: real, favourable: real)
    requires here.sig.atr > 0.0 && NoWorse(p.side, water, favourable)
    requires Arms(cfg.(tiered := false), here, p, water, favourable)
    ensures Arms(cfg.(tiered := true), here, p, water, favourable)
  {
    var atr, ahead := here.sig.atr, if p.side == Long then water - p.entryPrice else p.entryPrice - water;
    DivMonotone(cfg.protectAtr * atr, ahead, atr);
    DivUndoesMul(cfg.protectAtr, atr);
  }

  lemma ProtectionDoesNotTrail(cfg: Config, p: Position, q: Position, water: real, atr: real)
    requires q == p.(isProtected := q.isProtected)
    ensures TrailedAt(cfg.(tiered := true), q, water, atr) == TrailedAt(cfg.(tiered := false), p, water, atr)
  {}

  lemma SameLevel(cfg: Config, here: S.Here, p: Position, q: Position)
    requires q == p.(isProtected := q.isProtected)
    ensures ProtectedLevel(cfg, here, q) == ProtectedLevel(cfg, here, p)
  {
    hide TrailStop, ProfitAtr;
  }

  /** Whatever the ATR: when the plain rule leaves, so does the tiered one, if it is no less protected. */
  lemma LeavesWithTiers(cfg: Config, here: S.Here, p: Position, q: Position)
    requires NoLessProtected(p, q)
    ensures var plain, tiered := cfg.(tiered := false), cfg.(tiered := true);
      var p1, q1 := PreCheck(plain, here, p), PreCheck(tiered, here, q);
      && NoLessProtected(p1, q1)
      && (ExitTrigger(plain, here, p1).Some? ==> ExitTrigger(tiered, here, q1).Some?)
  {
    hide TrailedAt, ProtectedLevel;
    var plain, tiered := cfg.(tiered := false), cfg.(tiered := true);
    var p1, q1 := PreCheck(plain, here, p), PreCheck(tiered, here, q);
    ProtectionDoesNotTrail(cfg, p, q, p.water, here.sig.atr);
    TieredLevel(cfg, here, p1);
    SameLevel(tiered, here, p1, q1);
  }

  /** With a positive ATR it stays no less protected. */
  lemma HoldsWithTiers(cfg: Config, here: S.Here, p: Position, q: Position)
    requires here.sig.atr > 0.0 && NoLessProtected(p, q)
    ensures NoLessProtected(PostCheck(cfg.(tiered := false), here, p), PostCheck(cfg.(tiered := true), here, q))
  {
    hide TrailedAt, Arms;
    var plain, tiered := cfg.(tiered := false), cfg.(tiered := true);
    var favourable := Favourable(p.side, here.second.high, here.second.low);
    var water := Better(p.side, p.water, favourable);
    ProtectionDoesNotTrail(cfg, p, q, water, here.sig.atr);
    ArmsOfTrade(tiered, here, p, q, water, favourable);
    if Arms(plain, here, p, water, favourable) {
      ArmsWithTiers(cfg, here, p, water, favourable);
    }
  }

  lemma ArmsOfTrade(cfg: Config, here: S.Here, p: Position, q: Position, water: real, favourable: real)
    requires q == p.(isProtected := q.isProtected)
    ensures Arms(cfg, here, q, water, favourable) == Arms(cfg, here, p, water, favourable)
  {}

  /** From the same entry on, over any minutes with positive ATRs: when the position without tiers has
      left, so has the one with tiers; while both are held their stops and water marks are the same. */
  lemma {:induction false} TieredLeavesNoLater(cfg: Config, heres: seq<S.Here>, p: Position)
    requires forall k :: 0 <= k < |heres| ==> heres[k].sig.atr > 0.0
    ensures var plain, tiered := Held(cfg.(tiered := false), heres, p), Held(cfg.(tiered := true), heres, p);
      && (plain.None? ==> tiered.None?)
      && (tiered.Some? ==> NoLessProtected(plain.value, tiered.value))
  {
    hide PreCheck, PostCheck, ExitTrigger;
    if heres != [] {
      var init, here := heres[..|heres| - 1], heres[|heres| - 1];
      TieredLeavesNoLater(cfg, init, p);
      var plain, tiered := Held(cfg.(tiered := false), init, p), Held(cfg.(tiered := true), init, p);
      if tiered.Some? {
        LeavesWithTiers(cfg, here, plain.value, tiered.value);
        HoldsWithTiers(cfg, here, PreCheck(cfg.(tiered := false), here, plain.value),
                       PreCheck(cfg.(tiered := true), here, tiered.value));
      }
    }
  }

  // ----- exactly when -----

  /** The minutes have these ATRs. */
  ghost predicate WithAtrs(heres: seq<S.Here>, atrs: seq<real>) {
    |heres| == |atrs| && forall k :: 0 <= k < |heres| ==> heres[k].sig.atr == atrs[k]
  }

  ghost predicate NoLater(cfg: Config, heres: seq<S.Here>, p: Position) {
    Held(cfg.(tiered := false), heres, p).None? ==> Held(cfg.(tiered := true), heres, p).None?
  }

  /** Every ATR but the last one is positive. */
  predicate PositiveButLast(atrs: seq<real>) {
    forall k :: 0 <= k < |atrs| - 1 ==> atrs[k] > 0.0
  }

  lemma NoLaterThen(cfg: Config, heres: seq<S.Here>, p: Position, atrs: seq<real>)
    requires WithAtrs(heres, atrs) && PositiveButLast(atrs)
    ensures NoLater(cfg, heres, p)
  {
    hide PreCheck, PostCheck, ExitTrigger;
    if heres != [] {
      var init := heres[..|heres| - 1];
      TieredLeavesNoLater(cfg, init, p);
      var plain, tiered := Held(cfg.(tiered := false), init, p), Held(cfg.(tiered := true), init, p);
      if tiered.Some? {
        LeavesWithTiers(cfg, heres[|heres| - 1], plain.value, tiered.value);
      }
    }
  }

  const PLAIN := Config(false, false, 0.0, 10.0, None, None, 1.0, 0.1, 0.0, 2, [0.2, 0.1], false, None, 6)

  /** A long position at 100 with its stop at 90. */
  function Standing(isProtected: bool): Position {
    Position(Long, 100.0, 90.0, isProtected, 1.0, 100.0, "", 0, 1.0, "", 90.0, 1.0)
  }

  /** A minute that does not rise above 100, over a previous low of 96. */
  function MinuteAt(low: real, atr: real): S.Here {
    var row := SignalRow(0, Some(atr), None, 100.0, None, None, None, Some(96.0), None, None, None, None, None, None);
    S.Here(0, 0, S.Second(0, 100.0, low, low), None, Signal(row, atr, None, 100.0))
  }

  function QuietMinutes(atrs: seq<real>): (heres: seq<S.Here>)
    ensures |heres| == |atrs|
  {
    if atrs == [] then [] else QuietMinutes(atrs[..|atrs| - 1]) + [MinuteAt(100.0, atrs[|atrs| - 1])]
  }

  lemma {:induction false} QuietAtrs(atrs: seq<real>)
    ensures WithAtrs(QuietMinutes(atrs), atrs)
  {
    if atrs != [] {
      QuietAtrs(atrs[..|atrs| - 1]);
    }
  }

  predicate Stands(p: Position, isProtected: bool) {
    p.side == Long && p.entryPrice == 100.0 && p.stop == 90.0 && p.water == 100.0 && p.isProtected == isProtected
  }

  predicate IsMinute(here: S.Here, low: real) {
    here.second.high == 100.0 && here.second.low == low && here.sig.row.prevLow1 == Some(96.0)
  }

  /** A quiet minute arms the plain protection exactly without a positive ATR, and never the tiered one. */
  lemma QuietMinute(here: S.Here, p: Position)
    requires IsMinute(here, 100.0) && Stands(p, p.isProtected)
    ensures PreCheck(PLAIN, here, p) == p && ExitTrigger(PLAIN, here, p).None?
    ensures PostCheck(PLAIN, here, p) == p.(isProtected := p.isProtected || here.sig.atr <= 0.0)
    ensures var tiered := PLAIN.(tiered := true);
      !p.isProtected ==>
        PreCheck(tiered, here, p) == p && ExitTrigger(tiered, here, p).None? && PostCheck(tiered, here, p) == p
  {
    if here.sig.atr > 0.0 {
      assert (100.0 - 100.0) / here.sig.atr == 0.0;
    }
  }

  /** Some ATR is not positive. */
  predicate SomeNotPositive(atrs: seq<real>) { exists k :: 0 <= k < |atrs| && atrs[k] <= 0.0 }

  lemma {:induction false} QuietHolding(atrs: seq<real>)
    ensures Held(PLAIN, QuietMinutes(atrs), Standing(false)) == Some(Standing(SomeNotPositive(atrs)))
    ensures Held(PLAIN.(tiered := true), QuietMinutes(atrs), Standing(false)) == Some(Standing(false))
  {
    hide PreCheck, PostCheck, ExitTrigger;
    if atrs != [] {
      var init, last := atrs[..|atrs| - 1], atrs[|atrs| - 1];
      QuietHolding(init);
      QuietMinute(MinuteAt(100.0, last), Standing(SomeNotPositive(init)));
      QuietMinute(MinuteAt(100.0, last), Standing(false));
      assert QuietMinutes(atrs)[..|atrs| - 1] == QuietMinutes(init);
      assert SomeNotPositive(atrs) <==> SomeNotPositive(init) || last <= 0.0 by {
        if SomeNotPositive(init) {
          var k :| 0 <= k < |init| && init[k] <= 0.0;
          assert atrs[k] <= 0.0;
        }
      }
    }
  }

  /** A dip to 95 takes the protected position out and leaves the other one. */
  lemma Dip(here: S.Here, p: Position, q: Position)
    requires IsMinute(here, 95.0) && Stands(p, true) && Stands(q, false)
    ensures ExitTrigger(PLAIN, here, PreCheck(PLAIN, here, p)).Some?
    ensures var tiered := PLAIN.(tiered := true); ExitTrigger(tiered, here, PreCheck(tiered, here, q)).None?
  {}

  /** Quiet minutes, one of them without a positive ATR, then the dip: the plain position has left, the
      tiered one is still held. */
  lemma PlainLeavesFirst(atrs: seq<real>)
    requires !PositiveButLast(atrs)
    ensures var heres := QuietMinutes(atrs[..|atrs| - 1]) + [MinuteAt(95.0, atrs[|atrs| - 1])];
      WithAtrs(heres, atrs) && !NoLater(PLAIN, heres, Standing(false))
  {
    hide PreCheck, PostCheck, ExitTrigger;
    var init, last := atrs[..|atrs| - 1], atrs[|atrs| - 1];
    var heres := QuietMinutes(init) + [MinuteAt(95.0, last)];
    var k :| 0 <= k < |atrs| - 1 && atrs[k] <= 0.0;
    assert init[k] <= 0.0;
    assert heres[..|heres| - 1] == QuietMinutes(init);
    QuietAtrs(init);
    QuietHolding(init);
    Dip(MinuteAt(95.0, last), Standing(true), Standing(false));
  }

  /** Over any list of ATRs: the tiered position has always left when the plain one has, for all
      parameters, minutes with these ATRs and positions, if and only if every ATR but the last is
      positive. */
  lemma NoLaterExactly(atrs: seq<real>)
    ensures AlwaysNoLater(atrs) <==> PositiveButLast(atrs)
  {
    hide NoLater, WithAtrs;
    if PositiveButLast(atrs) {
      forall cfg, heres, p | WithAtrs(heres, atrs) ensures NoLater(cfg, heres, p) {
        NoLaterThen(cfg, heres, p, atrs);
      }
    } else {
      PlainLeavesFirst(atrs);
    }
  }

  ghost predicate AlwaysNoLater(atrs: seq<real>) {
    forall cfg, heres, p :: WithAtrs(heres, atrs) ==> NoLater(cfg, heres, p)
  }

  // ----- a run in which it does -----

  const ENTRY_ROW := SignalRow(0, Some(1.0), Some(50.0), 100.0, Some(50.0), Some(60.0), None, Some(99.9), None, None,
                               None, None, None, None)

  const ZERO_ROW := SignalRow(60000, Some(0.0), None, 0.0, None, None, None, Some(96.0), None, None, None, None, None, None)

  /** An entry, a quiet minute in a bar with an ATR of zero, and a dip in the next bar. */
  const DIP_FEED: Feed := S.Feed(
    [S.Second(0, 100.0, 100.0, 100.0), S.Second(61000, 100.0, 100.0, 100.0), S.Second(121000, 100.0, 95.0, 95.0)],
    [ENTRY_ROW, ZERO_ROW, ZERO_ROW.(time := 120000), ZERO_ROW.(time := 180000)], map[])

  lemma OneMinuteBars(i: nat)
    requires i < 3
    ensures S.StartOf(DIP_FEED, i) == i && S.EndOf(DIP_FEED, i) == i + 1
  {
    CountThree(DIP_FEED.seconds, DIP_FEED.signal[i].time);
    CountThree(DIP_FEED.seconds, DIP_FEED.signal[i + 1].time + 1);
  }

  lemma OneMinuteRun(cfg: Config, i: nat)
    requires i < 3
    ensures RunBars(cfg, DIP_FEED, i + 1, 1000.0) ==
      StepMinute(cfg, DIP_FEED, i, i, i, StartBar(RunBars(cfg, DIP_FEED, i, 1000.0), i))
  {
    hide StepMinute, StartBar, S.StartOf, S.EndOf;
    OneMinuteBars(i);
    var s := StartBar(RunBars(cfg, DIP_FEED, i, 1000.0), i);
    assert RunMinutes(cfg, DIP_FEED, i, i, i, s) == s;
  }

  lemma EntersAtHundred(cfg: Config)
    requires cfg == PLAIN || cfg == PLAIN.(tiered := true)
    ensures var s := RunBars(cfg, DIP_FEED, 1, 1000.0); s.position.Some? && Stands(s.position.value, false)
  {
    hide S.StartOf, S.EndOf;
    OneMinuteRun(cfg, 0);
    var s := StartBar(Initial(1000.0), 0);
    assert RunBars(cfg, DIP_FEED, 0, 1000.0) == Initial(1000.0);
    var here := HereAt(DIP_FEED, 0, 0, 0);
    assert RegimeReady(here.sig, Long) && Broke(here, Long);
    assert ReentryPrice(here.sig, Long, 0.1) == Some(100.0);
    assert FillPrice(cfg, here, Long, Some(100.0)) == Some(100.0);
  }

  /** A minute that changes no stop and triggers no exit. */
  lemma Waits(cfg: Config, here: S.Here, s: State, p: Position)
    requires PreCheck(cfg, here, p) == p && ExitTrigger(cfg, here, p).None?
    ensures HoldStep(cfg, s, here, p).position == Some(PostCheck(cfg, here, p))
  {
    hide PreCheck, ExitTrigger, PostCheck;
  }

  lemma LeavesFlat(cfg: Config, here: S.Here, s: State, p: Position)
    requires ExitTrigger(cfg, here, PreCheck(cfg, here, p)).Some?
    ensures HoldStep(cfg, s, here, p).position.None?
  {
    hide ExitTrigger, PreCheck, ExitPrice, BalanceAfter, Trips, Drawdown;
  }

  lemma StaysHeld(cfg: Config, here: S.Here, s: State, p: Position)
    requires ExitTrigger(cfg, here, PreCheck(cfg, here, p)).None?
    ensures HoldStep(cfg, s, here, p).position.Some?
  {
    hide ExitTrigger, PreCheck, PostCheck;
  }

  /** The quiet bar. */
  lemma QuietBar(cfg: Config)
    requires cfg == PLAIN || cfg == PLAIN.(tiered := true)
    ensures var s := RunBars(cfg, DIP_FEED, 2, 1000.0); s.position.Some? && Stands(s.position.value, !cfg.tiered)
  {
    hide RunBars, PreCheck, PostCheck, ExitTrigger, S.StartOf, S.EndOf, HoldStep;
    EntersAtHundred(cfg);
    OneMinuteRun(cfg, 1);
    var s, here := StartBar(RunBars(cfg, DIP_FEED, 1, 1000.0), 1), HereAt(DIP_FEED, 1, 1, 1);
    QuietMinute(here, s.position.value);
    Waits(cfg, here, s, s.position.value);
  }

  /** Over this feed the run without tiers is flat after three bars, the one with tiers is not. */
  lemma RunLeavesFirst()
    ensures RunBars(PLAIN, DIP_FEED, 3, 1000.0).position.None?
    ensures RunBars(PLAIN.(tiered := true), DIP_FEED, 3, 1000.0).position.Some?
  {
    hide RunBars, PreCheck, ExitTrigger, S.StartOf, S.EndOf, HoldStep, Stands;
    var tiered := PLAIN.(tiered := true);
    QuietBar(PLAIN);
    QuietBar(tiered);
    OneMinuteRun(PLAIN, 2);
    OneMinuteRun(tiered, 2);
    var here := HereAt(DIP_FEED, 2, 2, 2);
    var s, t := StartBar(RunBars(PLAIN, DIP_FEED, 2, 1000.0), 2), StartBar(RunBars(tiered, DIP_FEED, 2, 1000.0), 2);
    Dip(here, s.position.value, t.position.value);
    LeavesFlat(PLAIN, here, s, s.position.value);
    StaysHeld(tiered, here, t, t.position.value);
  }
}
