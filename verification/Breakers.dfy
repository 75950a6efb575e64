/** The drawdown breaker over a whole run: what the peak is, when it trips, and how long it pauses. */
module Breakers {
  import opened EnhancedReplay
  import opened Market
  import opened Options
  import S = SecondReplay
  import opened Steps

  // ----- the peak -----

  /** An exit of a position within a bar; the final mark is not one. */
  predicate IsExit(row: Row) { row.Trade? && row.kind == S.Exit && row.reason != FinalMarkToMarket }

  /** The highest balance after an exit, or the initial one if that is higher. */
  function PeakOf(initial: real, ledger: seq<Row>): real {
    if ledger == [] then initial
    else
      var before, last := PeakOf(initial, ledger[..|ledger| - 1]), ledger[|ledger| - 1];
      if IsExit(last) then Max(last.balance, before) else before
  }

  lemma PeakSnoc(initial: real, ledger: seq<Row>, row: Row)
    ensures PeakOf(initial, ledger + [row]) ==
      if IsExit(row) then Max(row.balance, PeakOf(initial, ledger)) else PeakOf(initial, ledger)
  {
    assert (ledger + [row])[..|ledger|] == ledger;
  }

  /** The peak bounds the initial balance and every balance after an exit, and is one of them. */
  lemma {:induction false} PeakIsMaximum(initial: real, ledger: seq<Row>)
    ensures PeakOf(initial, ledger) >= initial
    ensures forall j :: 0 <= j < |ledger| && IsExit(ledger[j]) ==> PeakOf(initial, ledger) >= ledger[j].balance
    ensures PeakOf(initial, ledger) == initial ||
      exists j :: 0 <= j < |ledger| && IsExit(ledger[j]) && PeakOf(initial, ledger) == ledger[j].balance
  {
    if ledger != [] {
      var init := ledger[..|ledger| - 1];
      PeakIsMaximum(initial, init);
      if PeakOf(initial, ledger) == PeakOf(initial, init) && PeakOf(initial, init) != initial {
        var j :| 0 <= j < |init| && IsExit(init[j]) && PeakOf(initial, init) == init[j].balance;
        assert ledger[j] == init[j];
      }
    }
  }

  // ----- trips -----

  /** The balance is below the peak by more than the limit's share of it. */
  predicate TooDeep(cfg: Config, peak: real, balance: real) {
    cfg.maxDrawdown.Some? && peak > 0.0 && balance < peak * (1.0 - cfg.maxDrawdown.value)
  }

  /** The engine trips exactly then, and the drawdown it records is the share of the peak that is gone. */
  lemma TripIsTooDeep(cfg: Config, peak: real, balance: real)
    ensures Trips(cfg, peak, balance) <==> TooDeep(cfg, peak, balance)
    ensures peak > 0.0 ==> peak * (1.0 - Drawdown(peak, balance)) == balance
  {
    if peak > 0.0 {
      var d := (peak - balance) / peak;
      assert d * peak == peak - balance;
      assert peak * (1.0 - d) == peak - d * peak;
      if cfg.maxDrawdown.Some? {
        var limit := cfg.maxDrawdown.value;
        assert peak * (1.0 - limit) == peak - limit * peak;
        if d > limit {
          assert (d - limit) * peak > 0.0;
        } else {
          assert (limit - d) * peak >= 0.0;
        }
      }
    }
  }

  /** The exit at `j` leaves too deep a drawdown from the peak so far. */
  ghost predicate TripsAt(cfg: Config, initial: real, ledger: seq<Row>, j: nat)
    requires j < |ledger|
  {
    IsExit(ledger[j]) && TooDeep(cfg, PeakOf(initial, ledger[..j + 1]), ledger[j].balance)
  }

  /** A row is a trip of the breaker exactly when the one before is an exit that calls for it, and
      then it records that exit's time, bar and balance, and as drawdown the share of the peak lost. */
  ghost predicate TripsExactly(cfg: Config, initial: real, ledger: seq<Row>) {
    && (forall j :: 0 <= j < |ledger| && ledger[j].Breaker? ==> Recorded(cfg, initial, ledger, j))
    && (forall j :: 0 <= j < |ledger| && TripsAt(cfg, initial, ledger, j) ==> Followed(ledger, j))
  }

  ghost predicate Recorded(cfg: Config, initial: real, ledger: seq<Row>, j: nat)
    requires j < |ledger| && ledger[j].Breaker?
  {
    && j > 0 && TripsAt(cfg, initial, ledger, j - 1)
    && ledger[j].time == ledger[j - 1].time && ledger[j].bar == ledger[j - 1].bar
    && ledger[j].balance == ledger[j - 1].balance
    && PeakOf(initial, ledger[..j]) * (1.0 - ledger[j].drawdown) == ledger[j].balance
  }

  ghost predicate Followed(ledger: seq<Row>, j: nat) {
    j + 1 < |ledger| && ledger[j + 1].Breaker?
  }

  lemma TripsPrefix(cfg: Config, initial: real, ledger: seq<Row>, row: Row, j: nat)
    requires j < |ledger|
    ensures TripsAt(cfg, initial, ledger + [row], j) == TripsAt(cfg, initial, ledger, j)
    ensures ledger[j].Breaker? && j > 0 ==> Recorded(cfg, initial, ledger + [row], j) == Recorded(cfg, initial, ledger, j)
    ensures Followed(ledger, j) ==> Followed(ledger + [row], j)
  {
    hide PeakOf, TooDeep, Drawdown;
    var more := ledger + [row];
    assert more[..j + 1] == ledger[..j + 1] && more[..j] == ledger[..j];
    assert j > 0 ==> more[..j - 1 + 1] == ledger[..j - 1 + 1];
  }

  /** Appending a trade that calls for no trip. */
  lemma AppendTrade(cfg: Config, initial: real, ledger: seq<Row>, row: Row)
    requires TripsExactly(cfg, initial, ledger) && row.Trade?
    requires IsExit(row) ==> !TooDeep(cfg, PeakOf(initial, ledger + [row]), row.balance)
    ensures TripsExactly(cfg, initial, ledger + [row])
  {
    hide TripsAt, Recorded, TooDeep;
    var more := ledger + [row];
    forall j | 0 <= j < |ledger|
      ensures more[j].Breaker? ==> Recorded(cfg, initial, more, j)
      ensures TripsAt(cfg, initial, more, j) ==> Followed(more, j)
    {
      TripsPrefix(cfg, initial, ledger, row, j);
      if ledger[j].Breaker? {
        NotFirst(cfg, initial, ledger, j);
      }
    }
    LastTrips(cfg, initial, ledger, row);
  }

  lemma NotFirst(cfg: Config, initial: real, ledger: seq<Row>, j: nat)
    requires j < |ledger| && ledger[j].Breaker? && Recorded(cfg, initial, ledger, j)
    ensures j > 0
  {}

  lemma LastTrips(cfg: Config, initial: real, ledger: seq<Row>, row: Row)
    ensures TripsAt(cfg, initial, ledger + [row], |ledger|) ==
      (IsExit(row) && TooDeep(cfg, PeakOf(initial, ledger + [row]), row.balance))
  {
    hide PeakOf, TooDeep;
    assert (ledger + [row])[..|ledger| + 1] == ledger + [row];
  }

  /** Appending an exit that calls for a trip together with the trip. */
  lemma AppendTrip(cfg: Config, initial: real, ledger: seq<Row>, exit: Row)
    requires TripsExactly(cfg, initial, ledger) && IsExit(exit)
    requires TooDeep(cfg, PeakOf(initial, ledger + [exit]), exit.balance)
    ensures var peak := PeakOf(initial, ledger + [exit]);
      TripsExactly(cfg, initial, ledger + [exit] + [Breaker(exit.time, Drawdown(peak, exit.balance), exit.balance, exit.bar)])
  {
    hide TripsAt, Recorded, TooDeep, PeakOf, Drawdown;
    var closed := ledger + [exit];
    var peak := PeakOf(initial, closed);
    TripNeedsLimit(cfg, peak, exit.balance);
    var trip := Breaker(exit.time, Drawdown(peak, exit.balance), exit.balance, exit.bar);
    var more := closed + [trip];
    forall j | 0 <= j < |ledger|
      ensures more[j].Breaker? ==> Recorded(cfg, initial, more, j)
      ensures TripsAt(cfg, initial, more, j) ==> Followed(more, j)
    {
      TripsPrefix(cfg, initial, ledger, exit, j);
      TripsPrefix(cfg, initial, closed, trip, j);
      if ledger[j].Breaker? {
        NotFirst(cfg, initial, ledger, j);
      }
    }
    LastTrips(cfg, initial, ledger, exit);
    TripsPrefix(cfg, initial, closed, trip, |ledger|);
    LastTrips(cfg, initial, closed, trip);
    LastIsRecorded(cfg, initial, ledger, exit, trip);
  }

  lemma LastIsRecorded(cfg: Config, initial: real, ledger: seq<Row>, exit: Row, trip: Row)
    requires IsExit(exit) && TooDeep(cfg, PeakOf(initial, ledger + [exit]), exit.balance)
    requires trip == Breaker(exit.time, Drawdown(PeakOf(initial, ledger + [exit]), exit.balance), exit.balance, exit.bar)
    ensures Recorded(cfg, initial, ledger + [exit] + [trip], |ledger| + 1)
  {
    hide PeakOf, TooDeep, Drawdown;
    var more := ledger + [exit] + [trip];
    var peak := PeakOf(initial, ledger + [exit]);
    TripNeedsLimit(cfg, peak, exit.balance);
    TripIsTooDeep(cfg, peak, exit.balance);
    assert more[..|ledger| + 1] == ledger + [exit];
  }

  // ----- the pause -----

  /** Row `j` is a trip whose cooldown covers `bar`. */
  predicate Covers(cfg: Config, ledger: seq<Row>, j: nat, bar: int)
    requires j < |ledger|
  {
    ledger[j].Breaker? && bar < ledger[j].bar + cfg.cooldownBars
  }

  /** Rows are no later than the bar, and the pause ends with the cooldown of the last trip. */
  ghost predicate PauseOk(cfg: Config, s: State, i: int) {
    && (forall j :: 0 <= j < |s.ledger| ==> s.ledger[j].bar <= i)
    && (forall j :: 0 <= j < |s.ledger| && s.ledger[j].Breaker? ==> s.ledger[j].bar + cfg.cooldownBars <= s.breakerUntil)
    && (s.breakerUntil == S.NEVER || EndsTheLast(cfg, s))
    && (cfg.maxDrawdown.None? ==> forall j :: 0 <= j < |s.ledger| ==> s.ledger[j].Trade?)
  }

  ghost predicate EndsTheLast(cfg: Config, s: State) {
    exists j :: 0 <= j < |s.ledger| && s.ledger[j].Breaker? && s.breakerUntil == s.ledger[j].bar + cfg.cooldownBars
  }

  /** No entry falls into the cooldown of an earlier trip. */
  ghost predicate NoEntryInCooldown(cfg: Config, ledger: seq<Row>) {
    forall j, k :: 0 <= j < k < |ledger| && IsEntry(ledger[k]) ==> !Covers(cfg, ledger, j, ledger[k].bar)
  }

  ghost predicate BreakerOk(cfg: Config, initial: real, s: State, i: int) {
    && s.peak == PeakOf(initial, s.ledger)
    && TripsExactly(cfg, initial, s.ledger)
    && PauseOk(cfg, s, i)
    && NoEntryInCooldown(cfg, s.ledger)
  }

  lemma PauseCovers(cfg: Config, s: State, i: nat)
    requires PauseOk(cfg, s, i)
    ensures Paused(cfg, s, i) <==> exists j :: 0 <= j < |s.ledger| && Covers(cfg, s.ledger, j, i)
  {
    if Paused(cfg, s, i) {
      var j :| 0 <= j < |s.ledger| && s.ledger[j].Breaker? && s.breakerUntil == s.ledger[j].bar + cfg.cooldownBars;
      assert Covers(cfg, s.ledger, j, i);
    }
  }

  // ----- the steps -----

  /** The breaker looks at the peak, the ledger and the end of the pause only. */
  ghost predicate SameBreaker(s: State, t: State) {
    s.peak == t.peak && s.ledger == t.ledger && s.breakerUntil == t.breakerUntil
  }

  lemma BreakerCarries(cfg: Config, initial: real, s: State, t: State, i: int)
    requires BreakerOk(cfg, initial, s, i) && SameBreaker(s, t)
    ensures BreakerOk(cfg, initial, t, i)
  {
    hide TripsExactly, NoEntryInCooldown, PeakOf;
  }

  lemma PauseSnoc(cfg: Config, s: State, t: State, row: Row, i: int)
    requires PauseOk(cfg, s, i) && row.bar == i && row.Trade?
    requires t.ledger == s.ledger + [row] && t.breakerUntil == s.breakerUntil
    ensures PauseOk(cfg, t, i)
  {
    if EndsTheLast(cfg, s) {
      var j :| 0 <= j < |s.ledger| && s.ledger[j].Breaker? && s.breakerUntil == s.ledger[j].bar + cfg.cooldownBars;
      assert t.ledger[j] == s.ledger[j];
    }
  }

  lemma CooldownSnoc(cfg: Config, ledger: seq<Row>, row: Row)
    requires NoEntryInCooldown(cfg, ledger)
    requires IsEntry(row) ==> forall j :: 0 <= j < |ledger| ==> !Covers(cfg, ledger, j, row.bar)
    ensures NoEntryInCooldown(cfg, ledger + [row])
  {
    var more := ledger + [row];
    forall j, k | 0 <= j < k < |more| && IsEntry(more[k]) ensures !Covers(cfg, more, j, more[k].bar) {
      assert Covers(cfg, more, j, more[k].bar) == Covers(cfg, ledger, j, more[k].bar);
    }
  }

  lemma OpenKeeps(cfg: Config, initial: real, s: State, here: S.Here, side: Side, raw: real, reason: Reason, afterExit: bool)
    requires BreakerOk(cfg, initial, s, here.bar) && !Paused(cfg, s, here.bar)
    ensures BreakerOk(cfg, initial, OpenPosition(cfg, s, here, side, raw, reason, afterExit), here.bar)
  {
    hide TripsExactly, NoEntryInCooldown, PeakOf, OrderNotional, EntryPrice, AtrStop, PauseOk;
    var t := OpenPosition(cfg, s, here, side, raw, reason, afterExit);
    var row := t.ledger[|s.ledger|];
    PeakSnoc(initial, s.ledger, row);
    AppendTrade(cfg, initial, s.ledger, row);
    PauseSnoc(cfg, s, t, row, here.bar);
    PauseCovers(cfg, s, here.bar);
    CooldownSnoc(cfg, s.ledger, row);
  }

  lemma FillKeeps(cfg: Config, initial: real, s: State, here: S.Here, side: Side)
    requires BreakerOk(cfg, initial, s, here.bar) && !Paused(cfg, s, here.bar)
    ensures BreakerOk(cfg, initial, TryFill(cfg, s, here, side), here.bar)
  {
    hide BreakerOk, OpenPosition, FillPrice, ReentryPrice, Paused;
    forall raw: real, reason, afterExit
      ensures BreakerOk(cfg, initial, OpenPosition(cfg, s, here, side, raw, reason, afterExit), here.bar)
    {
      OpenKeeps(cfg, initial, s, here, side, raw, reason, afterExit);
    }
    forall t: State, u: State | BreakerOk(cfg, initial, t, here.bar) && SameBreaker(t, u)
      ensures BreakerOk(cfg, initial, u, here.bar)
    {
      BreakerCarries(cfg, initial, t, u, here.bar);
    }
  }

  lemma FlatKeeps(cfg: Config, initial: real, s: State, here: S.Here, side: Side)
    requires BreakerOk(cfg, initial, s, here.bar) && !Paused(cfg, s, here.bar)
    ensures BreakerOk(cfg, initial, FlatStep(cfg, s, here, side), here.bar)
  {
    hide BreakerOk, TryFill, Broke;
    var s1 := TryLock(s, here, side);
    BreakerCarries(cfg, initial, s, s1, here.bar);
    FillKeeps(cfg, initial, s1, here, side);
  }

  /** An exit row, and the trip if it calls for one. */
  lemma SettleKeeps(cfg: Config, initial: real, s: State, closed: State, row: Row, i: int)
    requires BreakerOk(cfg, initial, s, i) && IsExit(row) && row.bar == i
    requires closed.ledger == s.ledger + [row] && closed.balance == row.balance
    requires closed.peak == s.peak && closed.breakerUntil == s.breakerUntil
    ensures BreakerOk(cfg, initial, Settle(cfg, closed, row.time, i), i)
  {
    hide TripsExactly, NoEntryInCooldown, PeakOf, Trips, TooDeep, Drawdown, PauseOk;
    PeakSnoc(initial, s.ledger, row);
    PauseSnoc(cfg, s, closed, row, i);
    CooldownSnoc(cfg, s.ledger, row);
    var peak := PeakOf(initial, closed.ledger);
    var t := Settle(cfg, closed, row.time, i);
    assert t.peak == peak;
    TripIsTooDeep(cfg, peak, row.balance);
    if Trips(cfg, peak, row.balance) {
      TripNeedsLimit(cfg, peak, row.balance);
      var trip := Breaker(row.time, Drawdown(peak, row.balance), row.balance, i);
      PeakSnoc(initial, closed.ledger, trip);
      AppendTrip(cfg, initial, s.ledger, row);
      CooldownSnoc(cfg, closed.ledger, trip);
      PauseTrip(cfg, closed, t, trip, i);
    } else {
      AppendTrade(cfg, initial, s.ledger, row);
      SamePause(cfg, closed, t, i);
    }
  }

  lemma TripNeedsLimit(cfg: Config, peak: real, balance: real)
    requires TooDeep(cfg, peak, balance)
    ensures cfg.maxDrawdown.Some? && peak > 0.0
  {}

  lemma SamePause(cfg: Config, s: State, t: State, i: int)
    requires PauseOk(cfg, s, i) && s.ledger == t.ledger && s.breakerUntil == t.breakerUntil
    ensures PauseOk(cfg, t, i)
  {}

  lemma PauseTrip(cfg: Config, s: State, t: State, trip: Row, i: int)
    requires PauseOk(cfg, s, i) && cfg.maxDrawdown.Some? && trip.Breaker? && trip.bar == i
    requires t.ledger == s.ledger + [trip] && t.breakerUntil == i + cfg.cooldownBars
    ensures PauseOk(cfg, t, i)
  {
    assert t.ledger[|s.ledger|] == trip;
  }

  lemma HoldKeeps(cfg: Config, initial: real, s: State, here: S.Here, p: Position)
    requires BreakerOk(cfg, initial, s, here.bar) && s.position == Some(p)
    ensures BreakerOk(cfg, initial, HoldStep(cfg, s, here, p), here.bar)
  {
    hide BreakerOk, PreCheck, PostCheck, ExitTrigger, Settle, ExitPrice, BalanceAfter;
    var p1 := PreCheck(cfg, here, p);
    var trigger := ExitTrigger(cfg, here, p1);
    TriggerReason(cfg, here, p1);
    if trigger.Some? {
      var closed := CloseAt(cfg, s, p1, trigger.value.0, trigger.value.1, here.second.time, here.bar, here.pos)
        .(exitSide := Some(p.side), exitBar := here.bar, exitReason := trigger.value.1);
      SettleKeeps(cfg, initial, s, closed, closed.ledger[|s.ledger|], here.bar);
    } else {
      BreakerCarries(cfg, initial, s, HoldStep(cfg, s, here, p), here.bar);
    }
  }

  lemma StepKeeps(cfg: Config, feed: Feed, i: nat, start: nat, pos: nat, s: State, initial: real)
    requires i < |feed.signal| && pos < |feed.seconds| && feed.signal[i].atr.Some?
    requires BreakerOk(cfg, initial, s, i)
    ensures BreakerOk(cfg, initial, StepMinute(cfg, feed, i, start, pos, s), i)
  {
    hide BreakerOk, HoldStep, FlatStep, RegimeReady, Paused;
    var here := HereAt(feed, i, start, pos);
    if s.position.Some? {
      HoldKeeps(cfg, initial, s, here, s.position.value);
    } else if !Paused(cfg, s, i) {
      FlatKeeps(cfg, initial, s, here, Long);
      FlatKeeps(cfg, initial, s, here, Short);
    }
  }

  lemma NextBar(cfg: Config, initial: real, s: State, i: nat)
    requires BreakerOk(cfg, initial, s, i)
    ensures BreakerOk(cfg, initial, s, i + 1) && BreakerOk(cfg, initial, StartBar(s, i), i)
  {
    hide TripsExactly, NoEntryInCooldown, PeakOf;
  }

  lemma BreakerKept(cfg: Config, feed: Feed, initial: real)
    ensures RunKept(cfg, feed, (s, i) => BreakerOk(cfg, initial, s, i), (s, i, pos) => BreakerOk(cfg, initial, s, i), initial)
  {
    hide BreakerOk, StepMinute, StartBar, S.StartOf, S.EndOf;
    InitialBreaker(cfg, initial);
    forall s, i: nat | BreakerOk(cfg, initial, s, i)
      ensures BreakerOk(cfg, initial, s, i + 1) && BreakerOk(cfg, initial, StartBar(s, i), i)
    {
      NextBar(cfg, initial, s, i);
    }
    forall s, i: nat, pos: nat | IsStep(feed, Step(i, pos)) && BreakerOk(cfg, initial, s, i)
      ensures BreakerOk(cfg, initial, StepOf(cfg, feed, Step(i, pos), s), i)
    {
      StepKeeps(cfg, feed, i, S.StartOf(feed, i), pos, s, initial);
    }
  }

  lemma InitialBreaker(cfg: Config, initial: real)
    ensures BreakerOk(cfg, initial, Initial(initial), 0)
  {}

  /** After every number of bars: the peak is the maximum of the initial balance and the balances
      after exits, trips follow exactly the exits that call for them, no entry falls into a cooldown,
      and the engine pauses exactly during cooldowns. */
  lemma BreakerOfBars(cfg: Config, feed: Feed, n: nat, initial: real)
    requires n == 0 || n < |feed.signal|
    ensures BreakerOk(cfg, initial, RunBars(cfg, feed, n, initial), n)
  {
    hide BreakerOk, RunBars, RunKept;
    BreakerKept(cfg, feed, initial);
    KeptBars(cfg, feed, (s, i) => BreakerOk(cfg, initial, s, i), (s, i, pos) => BreakerOk(cfg, initial, s, i), initial, n);
  }

  /** The ledger of a whole replay, final mark included. */
  lemma BreakerOfReplay(cfg: Config, feed: Feed, initial: real)
    ensures var s := Replay(cfg, feed, initial);
      && s.peak == PeakOf(initial, s.ledger)
      && TripsExactly(cfg, initial, s.ledger)
      && NoEntryInCooldown(cfg, s.ledger)
  {
    hide RunBars, TripsExactly, NoEntryInCooldown, PeakOf, ExitPrice, BalanceAfter, PauseOk;
    var n := if |feed.signal| == 0 then 0 else |feed.signal| - 1;
    BreakerOfBars(cfg, feed, n, initial);
    var s, t := RunBars(cfg, feed, n, initial), Replay(cfg, feed, initial);
    if t != s {
      var row := t.ledger[|s.ledger|];
      PeakSnoc(initial, s.ledger, row);
      AppendTrade(cfg, initial, s.ledger, row);
      CooldownSnoc(cfg, s.ledger, row);
    }
  }

  /** In every state a run passes through, before and inside every bar, the engine is paused exactly when
      the cooldown of some trip covers the bar. */
  lemma PausedExactly(cfg: Config, feed: Feed, i: nat, pos: nat, initial: real)
    requires Visited(feed, i) && S.StartOf(feed, i) <= pos <= S.EndOf(feed, i)
    ensures var s := StateAt(cfg, feed, i, pos, initial);
      && BreakerOk(cfg, initial, s, i)
      && (Paused(cfg, s, i) <==> exists j :: 0 <= j < |s.ledger| && Covers(cfg, s.ledger, j, i))
  {
    hide RunKept, StateAt, S.StartOf, S.EndOf, PauseOk, TripsExactly, NoEntryInCooldown, PeakOf, Paused;
    BreakerKept(cfg, feed, initial);
    RunKeeps(cfg, feed, (s, i) => BreakerOk(cfg, initial, s, i), (s, i, pos) => BreakerOk(cfg, initial, s, i), initial, i, pos);
    PauseCovers(cfg, StateAt(cfg, feed, i, pos, initial), i);
  }
}
