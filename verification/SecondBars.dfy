/** One-second bars: the streamed summaries, and the bars filled in for the seconds without a trade. */
module SecondBars {
  import opened Options
  import opened TickGroups
  import opened TickStream

  const SECOND := 1000

  datatype Bar = Bar(second: int, open: real, high: real, low: real, close: real, volume: real)

  function MaxPrice(ticks: seq<Tick>): real {
    if ticks == [] then 0.0
    else if |ticks| == 1 then ticks[0].price
    else
      var rest, p := MaxPrice(ticks[..|ticks| - 1]), ticks[|ticks| - 1].price;
      if p > rest then p else rest
  }

  function MinPrice(ticks: seq<Tick>): real {
    if ticks == [] then 0.0
    else if |ticks| == 1 then ticks[0].price
    else
      var rest, p := MinPrice(ticks[..|ticks| - 1]), ticks[|ticks| - 1].price;
      if p < rest then p else rest
  }

  function Volume(ticks: seq<Tick>): real {
    if ticks == [] then 0.0 else Volume(ticks[..|ticks| - 1]) + ticks[|ticks| - 1].qty
  }

  /** The aggregation of one group; groups are never empty. */
  function BarOf(group: seq<Tick>): Bar {
    if group == [] then Bar(0, 0.0, 0.0, 0.0, 0.0, 0.0)
    else
      Bar(Bucket(group[0].time, SECOND), group[0].price, MaxPrice(group), MinPrice(group),
          group[|group| - 1].price, Volume(group))
  }

  function BarsOf(groups: seq<seq<Tick>>): seq<Bar> {
    if groups == [] then [] else BarsOf(groups[..|groups| - 1]) + [BarOf(groups[|groups| - 1])]
  }

  lemma {:induction false} BarsOfAppend(a: seq<seq<Tick>>, b: seq<seq<Tick>>)
    ensures BarsOf(a + b) == BarsOf(a) + BarsOf(b)
  {
    hide BarOf;
    if b == [] {
      assert a + b == a;
    } else {
      assert (a + b)[..|a + b| - 1] == a + b[..|b| - 1];
      BarsOfAppend(a, b[..|b| - 1]);
    }
  }

  // ----- reading -----

  method ReadFile(pending0: seq<Tick>, summaries0: seq<Bar>, chunks: seq<seq<Tick>>, start: int, end: int,
      ghost finished0: seq<seq<Tick>>)
    returns (pending: seq<Tick>, summaries: seq<Bar>, ghost finished: seq<seq<Tick>>)
    requires summaries0 == BarsOf(finished0)
    ensures Carry(pending, finished) == ReadChunks(Carry(pending0, finished0), chunks, start, end, SECOND)
    ensures summaries == BarsOf(finished)
  {
    hide GroupBy, Those, Kept, BarsOf, Bucket;
    pending, summaries, finished := pending0, summaries0, finished0;
    ghost var whole := ReadChunks(Carry(pending, finished), chunks, start, end, SECOND);
    var i := 0;
    while i < |chunks|
      invariant 0 <= i <= |chunks|
      invariant ReadChunks(Carry(pending, finished), chunks[i..], start, end, SECOND) == whole
      invariant summaries == BarsOf(finished)
    {
      var chunk := chunks[i];
      assert chunks[i..][1..] == chunks[i + 1..];
      i := i + 1;
      if chunk == [] {
        continue;
      }
      if chunk[0].time > end {
        return;
      }
      if chunk[|chunk| - 1].time < start {
        continue;
      }
      chunk := Kept(chunk, Some(start), Some(end));
      if chunk == [] {
        continue;
      }
      chunk := pending + chunk;
      var lastSecond := Bucket(chunk[|chunk| - 1].time, SECOND);
      pending := Those(chunk, SECOND, lastSecond, true);
      var complete := Those(chunk, SECOND, lastSecond, false);
      BarsOfAppend(finished, GroupBy(complete, SECOND));
      finished := finished + GroupBy(complete, SECOND);
      if complete == [] {
        NoGroups(SECOND);
        continue;
      }
      summaries := summaries + BarsOf(GroupBy(complete, SECOND));
    }
  }

  lemma NoGroups(width: int)
    requires width > 0
    ensures GroupBy([], width) == [] && forall s: seq<Bar> :: s + BarsOf([]) == s
  {}

  /** The reading half of `build_continuous_second_bars`. */
  method ReadSecondBars(files: seq<seq<seq<Tick>>>, start: int, end: int) returns (summaries: seq<Bar>)
    ensures summaries == BarsOf(Finish(ReadFiles(NOTHING_READ, files, start, end, SECOND), SECOND))
  {
    hide GroupBy, ReadChunks, BarsOf;
    var pending: seq<Tick> := [];
    ghost var finished: seq<seq<Tick>> := [];
    NoBars();
    summaries := [];
    for i := 0 to |files|
      invariant summaries == BarsOf(finished)
      invariant ReadFiles(Carry(pending, finished), files[i..], start, end, SECOND) ==
        ReadFiles(NOTHING_READ, files, start, end, SECOND)
    {
      assert files[i..][1..] == files[i + 1..];
      pending, summaries, finished := ReadFile(pending, summaries, files[i], start, end, finished);
    }
    if pending != [] {
      BarsOfAppend(finished, GroupBy(pending, SECOND));
      summaries := summaries + BarsOf(GroupBy(pending, SECOND));
    }
  }

  lemma NoBars()
    ensures BarsOf([]) == []
  {}

  // ----- filling the gaps -----

  datatype Candle = Candle(time: int, open: real, high: real, low: real, close: real, volume: real)

  function BarAt(bars: seq<Bar>, t: int): Option<Bar> {
    if bars == [] then None
    else if bars[|bars| - 1].second == t then Some(bars[|bars| - 1])
    else BarAt(bars[..|bars| - 1], t)
  }

  /** The number of whole seconds from the start that are not after the end. */
  function GridSize(start: int, end: int): nat {
    if end < start then 0 else (end - start) / SECOND + 1
  }

  /** The forward-filled close at the `k`-th second of the grid. */
  function CloseUpTo(bars: seq<Bar>, start: int, k: nat): Option<real> {
    var bar := BarAt(bars, start + SECOND * k);
    if bar.Some? then Some(bar.value.close)
    else if k == 0 then None
    else CloseUpTo(bars, start, k - 1)
  }

  /** The close of the first bar that falls on the grid, from its `k`-th second on. */
  function FirstClose(bars: seq<Bar>, start: int, n: nat, k: nat): Option<real>
    decreases n - k
  {
    if k >= n then None
    else
      var bar := BarAt(bars, start + SECOND * k);
      if bar.Some? then Some(bar.value.close) else FirstClose(bars, start, n, k + 1)
  }

  function CandleAt(bars: seq<Bar>, start: int, k: nat, firstClose: real): Candle {
    var t := start + SECOND * k;
    var carried := CloseUpTo(bars, start, k);
    var close := if carried.Some? then carried.value else firstClose;
    var bar := BarAt(bars, t);
    if bar.Some? then Candle(t, bar.value.open, bar.value.high, bar.value.low, close, bar.value.volume)
    else Candle(t, close, close, close, close, 0.0)
  }

  function Candles(bars: seq<Bar>, start: int, n: nat, firstClose: real): seq<Candle> {
    if n == 0 then [] else Candles(bars, start, n - 1, firstClose) + [CandleAt(bars, start, n - 1, firstClose)]
  }

  /** The filling half: an error if there is no bar at all, or none on the grid of seconds that
      begins at the start. */
  function GapFilled(bars: seq<Bar>, start: int, end: int): Option<seq<Candle>> {
    var n := GridSize(start, end);
    var firstClose := FirstClose(bars, start, n, 0);
    if bars == [] || firstClose.None? then None else Some(Candles(bars, start, n, firstClose.value))
  }

  method BuildContinuousSecondBars(files: seq<seq<seq<Tick>>>, start: int, end: int)
    returns (secondBars: Option<seq<Candle>>)
    ensures secondBars ==
      GapFilled(BarsOf(Finish(ReadFiles(NOTHING_READ, files, start, end, SECOND), SECOND)), start, end)
  {
    var summaries := ReadSecondBars(files, start, end);
    if summaries == [] {
      return None;
    }
    secondBars := GapFilled(summaries, start, end);
  }
}
