/** The steps of a run: which seconds of which signal bars it visits, and in which order. */
module Steps {
  import opened Options
  import opened SecondReplay

  /** A second of a signal bar. */
  datatype Step = Step(bar: nat, second: nat)

  /** A bar that a run does not skip. */
  predicate Visited(feed: Feed, i: nat) {
    i + 1 < |feed.signal| && feed.signal[i].atr.Some? && StartOf(feed, i) < EndOf(feed, i)
  }

  predicate IsStep(feed: Feed, step: Step) {
    Visited(feed, step.bar) && StartOf(feed, step.bar) <= step.second < EndOf(feed, step.bar)
  }

  function StepsIn(bar: nat, start: nat, pos: nat): seq<Step>
    decreases pos
  {
    if pos <= start then [] else StepsIn(bar, start, pos - 1) + [Step(bar, pos - 1)]
  }

  /** The steps of the first `n` bars, in order; a boundary second is a step of both its bars. */
  function StepsBefore(feed: Feed, n: nat): seq<Step> {
    if n == 0 then []
    else StepsBefore(feed, n - 1) + if Visited(feed, n - 1) then StepsIn(n - 1, StartOf(feed, n - 1), EndOf(feed, n - 1)) else []
  }

  function StepsUpTo(feed: Feed, i: nat, pos: nat): seq<Step>
    requires Visited(feed, i)
  {
    StepsBefore(feed, i) + StepsIn(i, StartOf(feed, i), pos)
  }

  lemma StepsGrow(feed: Feed, i: nat, pos: nat)
    requires Visited(feed, i)
    ensures StepsUpTo(feed, i, StartOf(feed, i)) == StepsBefore(feed, i)
    ensures StartOf(feed, i) <= pos ==> StepsUpTo(feed, i, pos + 1) == StepsUpTo(feed, i, pos) + [Step(i, pos)]
    ensures StepsBefore(feed, i + 1) == StepsUpTo(feed, i, EndOf(feed, i))
  {
    hide StartOf, EndOf;
  }

  lemma SkippedAddsNothing(feed: Feed, i: nat)
    requires !Visited(feed, i)
    ensures StepsBefore(feed, i + 1) == StepsBefore(feed, i)
  {
    hide Visited;
  }

  lemma CountThree(seconds: seq<Second>, t: int)
    requires |seconds| == 3
    ensures CountBefore(seconds, t) ==
      (if seconds[0].time < t then 1 else 0) + (if seconds[1].time < t then 1 else 0) + (if seconds[2].time < t then 1 else 0)
  {
    assert seconds[..2][..1] == seconds[..1] && seconds[..1][..0] == [];
    assert CountBefore(seconds[..1], t) == if seconds[0].time < t then 1 else 0;
    assert CountBefore(seconds[..2], t) == CountBefore(seconds[..1], t) + if seconds[1].time < t then 1 else 0;
  }
}
