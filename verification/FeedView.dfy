/** What a second of a run sees depends on the feed alone; and invariants that follow a run second by
    second. */
module FeedView {
  import opened Market
  import opened Options
  import opened SecondReplay
  import opened Steps

  // ----- the running extremes -----

  /** The highest high of the seconds from `start` up to, not including, `pos`. */
  function RunningHigh(feed: Feed, start: nat, pos: nat): Option<real>
    requires pos <= |feed.seconds|
    decreases pos
  {
    if pos <= start then None else Some(Higher(RunningHigh(feed, start, pos - 1), feed.seconds[pos - 1].high))
  }

  function RunningLow(feed: Feed, start: nat, pos: nat): Option<real>
    requires pos <= |feed.seconds|
    decreases pos
  {
    if pos <= start then None else Some(Lower(RunningLow(feed, start, pos - 1), feed.seconds[pos - 1].low))
  }

  ghost predicate SameExtremes(s: State, t: State) { s.barHigh == t.barHigh && s.barLow == t.barLow }

  lemma StepsKeepExtremes(cfg: Config, feed: Feed, s: State, here: Here, side: Side)
    ensures SameExtremes(s, FlatStep(cfg, feed, s, here, side))
    ensures s.position.Some? ==> SameExtremes(s, HoldStep(cfg, s, here, s.position.value))
  {
    hide BreakoutOf, LockAllowed, EventReady, FillTriggered, ReentryPrice, AtrStop, OrderNotional, PreCheck, PostCheck,
         ExitTrigger, Pnl, ExitPrice;
  }

  lemma StepExtremes(cfg: Config, feed: Feed, i: nat, start: nat, pos: nat, s: State)
    requires i < |feed.signal| && pos < |feed.seconds| && feed.signal[i].atr.Some?
    ensures var t, second := StepSecond(cfg, feed, i, start, pos, s), feed.seconds[pos];
      t.barHigh == Some(Higher(s.barHigh, second.high)) && t.barLow == Some(Lower(s.barLow, second.low))
  {
    hide Higher, Lower, Forced, SideReady, FlatStep, HoldStep;
    var here := HereAt(cfg, feed, i, start, pos, s);
    var s1 := Observe(cfg, feed, s, here);
    StepsKeepExtremes(cfg, feed, s1, here, Long);
    StepsKeepExtremes(cfg, feed, s1, here, Short);
  }

  /** The running extremes of the state are those of the bar's seconds so far. */
  lemma {:induction false} RunExtremes(cfg: Config, feed: Feed, i: nat, start: nat, pos: nat, s: State)
    requires i < |feed.signal| && start <= pos <= |feed.seconds| && feed.signal[i].atr.Some?
    requires s.barHigh.None? && s.barLow.None?
    ensures var t := RunSeconds(cfg, feed, i, start, pos, s);
      t.barHigh == RunningHigh(feed, start, pos) && t.barLow == RunningLow(feed, start, pos)
    decreases pos - start
  {
    hide StepSecond, Higher, Lower;
    if pos > start {
      RunExtremes(cfg, feed, i, start, pos - 1, s);
      StepExtremes(cfg, feed, i, start, pos - 1, RunSeconds(cfg, feed, i, start, pos - 1, s));
    }
  }

  // ----- the steps of a run -----

  /** What a step sees, from the feed alone. */
  function HereOf(cfg: Config, feed: Feed, step: Step): Here
    requires IsStep(feed, step)
  {
    var i, pos, start := step.bar, step.second, StartOf(feed, step.bar);
    var second := feed.seconds[pos];
    Here(i, pos, second, if pos > start then Some(feed.seconds[pos - 1].close) else None,
         SignalAt(cfg, feed.signal[i], Higher(RunningHigh(feed, start, pos), second.high),
                  Lower(RunningLow(feed, start, pos), second.low), second.close))
  }

  // ----- invariants of a run, second by second -----

  predicate SeesFeed(cfg: Config, feed: Feed, i: nat, pos: nat, s: State)
    requires IsStep(feed, Step(i, pos))
  {
    HereAt(cfg, feed, i, StartOf(feed, i), pos, s) == HereOf(cfg, feed, Step(i, pos))
  }

  /** `before` holds of the state before bar `i`, `during` inside bar `i` before second `pos`. */
  ghost predicate RunKept(
      cfg: Config, feed: Feed, before: (State, nat) -> bool, during: (State, nat, nat) -> bool, balance: real)
  {
    && before(Initial(balance), 0)
    && (forall s, i: nat :: i + 1 < |feed.signal| && !Visited(feed, i) && before(s, i) ==> before(s, i + 1))
    && (forall s, i: nat :: Visited(feed, i) && before(s, i) ==> during(StartBar(s, i), i, StartOf(feed, i)))
    && (forall s, i: nat, pos: nat ::
          IsStep(feed, Step(i, pos)) && during(s, i, pos) && SeesFeed(cfg, feed, i, pos, s) ==>
            during(StepSecond(cfg, feed, i, StartOf(feed, i), pos, s), i, pos + 1))
    && (forall s, i: nat :: Visited(feed, i) && during(s, i, EndOf(feed, i)) ==> before(s, i + 1))
  }

  /** The state of a run inside bar `i`, before second `pos`. */
  function StateAt(cfg: Config, feed: Feed, i: nat, pos: nat, balance: real): State
    requires Visited(feed, i) && StartOf(feed, i) <= pos <= EndOf(feed, i)
  {
    RunSeconds(cfg, feed, i, StartOf(feed, i), pos, StartBar(RunBars(cfg, feed, i, balance), i))
  }

  lemma StartHasNoExtremes(s: State, i: nat)
    ensures StartBar(s, i).barHigh.None? && StartBar(s, i).barLow.None?
  {}

  /** Every second of a run sees what the feed shows there. */
  lemma SeesTheFeed(cfg: Config, feed: Feed, i: nat, pos: nat, balance: real)
    requires IsStep(feed, Step(i, pos))
    ensures SeesFeed(cfg, feed, i, pos, StateAt(cfg, feed, i, pos, balance))
  {
    hide RunSeconds, RunBars, StartBar, StartOf, EndOf, RunningHigh, RunningLow;
    StartHasNoExtremes(RunBars(cfg, feed, i, balance), i);
    RunExtremes(cfg, feed, i, StartOf(feed, i), pos, StartBar(RunBars(cfg, feed, i, balance), i));
  }

  lemma KeptStep(cfg: Config, feed: Feed, before: (State, nat) -> bool, during: (State, nat, nat) -> bool, balance: real,
                 i: nat, pos: nat)
    requires RunKept(cfg, feed, before, during, balance)
    requires IsStep(feed, Step(i, pos)) && during(StateAt(cfg, feed, i, pos, balance), i, pos)
    ensures during(StateAt(cfg, feed, i, pos + 1, balance), i, pos + 1)
  {
    hide StepSecond, HereAt, HereOf, StartBar, RunBars, Initial, StartOf, EndOf;
    SeesTheFeed(cfg, feed, i, pos, balance);
  }

  lemma KeptStart(cfg: Config, feed: Feed, before: (State, nat) -> bool, during: (State, nat, nat) -> bool, balance: real,
                  i: nat)
    requires RunKept(cfg, feed, before, during, balance) && Visited(feed, i)
    requires before(RunBars(cfg, feed, i, balance), i)
    ensures during(StateAt(cfg, feed, i, StartOf(feed, i), balance), i, StartOf(feed, i))
  {
    hide StepSecond, HereAt, HereOf, StartBar, RunBars, Initial, StartOf, EndOf;
  }

  lemma {:induction false} KeptInside(cfg: Config, feed: Feed, before: (State, nat) -> bool, during: (State, nat, nat) -> bool,
                                      balance: real, i: nat, pos: nat)
    requires RunKept(cfg, feed, before, during, balance) && Visited(feed, i)
    requires StartOf(feed, i) <= pos <= EndOf(feed, i) && before(RunBars(cfg, feed, i, balance), i)
    ensures during(StateAt(cfg, feed, i, pos, balance), i, pos)
    decreases pos
  {
    hide RunKept, StateAt, StartOf, EndOf;
    if pos == StartOf(feed, i) {
      KeptStart(cfg, feed, before, during, balance, i);
    } else {
      KeptInside(cfg, feed, before, during, balance, i, pos - 1);
      KeptStep(cfg, feed, before, during, balance, i, pos - 1);
    }
  }

  lemma KeptNext(cfg: Config, feed: Feed, before: (State, nat) -> bool, during: (State, nat, nat) -> bool, balance: real,
                 i: nat)
    requires RunKept(cfg, feed, before, during, balance) && i + 1 < |feed.signal|
    requires before(RunBars(cfg, feed, i, balance), i)
    ensures before(RunBars(cfg, feed, i + 1, balance), i + 1)
  {
    hide StepSecond, HereAt, HereOf, StartBar, RunSeconds, Initial, StartOf, EndOf;
    if Visited(feed, i) {
      KeptInside(cfg, feed, before, during, balance, i, EndOf(feed, i));
    }
  }

  lemma {:induction false} KeptBars(cfg: Config, feed: Feed, before: (State, nat) -> bool, during: (State, nat, nat) -> bool,
                                    balance: real, n: nat)
    requires RunKept(cfg, feed, before, during, balance) && (n == 0 || n < |feed.signal|)
    ensures before(RunBars(cfg, feed, n, balance), n)
  {
    hide StepSecond, HereAt, HereOf, StartBar, RunBar, Initial, StartOf, EndOf;
    if n > 0 {
      KeptBars(cfg, feed, before, during, balance, n - 1);
      KeptNext(cfg, feed, before, during, balance, n - 1);
    }
  }

  /** What a run keeps second by second holds inside every bar. */
  lemma RunKeeps(cfg: Config, feed: Feed, before: (State, nat) -> bool, during: (State, nat, nat) -> bool, balance: real,
                 i: nat, pos: nat)
    requires RunKept(cfg, feed, before, during, balance) && Visited(feed, i)
    requires StartOf(feed, i) <= pos <= EndOf(feed, i)
    ensures during(StateAt(cfg, feed, i, pos, balance), i, pos)
  {
    hide RunKept, StateAt, StartOf, EndOf, RunBars;
    KeptBars(cfg, feed, before, during, balance, i);
    KeptInside(cfg, feed, before, during, balance, i, pos);
  }

  lemma NextState(cfg: Config, feed: Feed, i: nat, pos: nat, initial: real)
    requires IsStep(feed, Step(i, pos))
    ensures StateAt(cfg, feed, i, pos + 1, initial) ==
      StepSecond(cfg, feed, i, StartOf(feed, i), pos, StateAt(cfg, feed, i, pos, initial))
  {
    hide StepSecond, StartOf, EndOf, RunBars, StartBar;
  }

  lemma HereShows(cfg: Config, feed: Feed, step: Step)
    requires IsStep(feed, step)
    ensures var here := HereOf(cfg, feed, step);
      && here.bar == step.bar && here.pos == step.second
      && here.second == feed.seconds[step.second] && here.sig.row == feed.signal[step.bar]
  {
    hide Higher, Lower, RunningHigh, RunningLow, StartOf, EndOf;
  }
}
