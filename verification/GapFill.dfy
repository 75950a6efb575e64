/** What the gap-filled second bars mean in terms of the ticks alone. */
module GapFill {
  import opened Options
  import opened SecondBars
  import opened TickGroups
  import opened TickStream

  // ----- bars and ticks -----

  lemma {:induction false} BarAtKeys(ticks: seq<Tick>, keys: seq<int>, t: int)
    requires forall j :: 0 <= j < |keys| ==> Group(ticks, SECOND, keys[j]) != []
    ensures BarAt(BarsOf(Groups(ticks, SECOND, keys)), t) ==
      if t in keys then Some(BarOf(Group(ticks, SECOND, t))) else None
  {
    hide Bucket, Group;
    if keys != [] {
      var init, k := keys[..|keys| - 1], keys[|keys| - 1];
      BarAtKeys(ticks, init, t);
      GroupIsInBucket(ticks, SECOND, k);
      assert t in keys <==> t in init || t == k;
    }
  }

  /** The bar of a second is the aggregation of that second's ticks, and is there exactly when there
      are any. */
  lemma BarAtIsGroup(ticks: seq<Tick>, t: int)
    ensures var group := Group(ticks, SECOND, t);
      BarAt(BarsOf(GroupBy(ticks, SECOND)), t) == if group == [] then None else Some(BarOf(group))
  {
    hide Group, Groups, Keys, BarAt, BarsOf, BarOf;
    var keys := Keys(ticks, SECOND);
    forall j | 0 <= j < |keys| ensures Group(ticks, SECOND, keys[j]) != [] {
      assert keys[j] in keys;
      KeysHaveTicks(ticks, SECOND, keys[j]);
    }
    BarAtKeys(ticks, keys, t);
    KeysHaveTicks(ticks, SECOND, t);
  }

  // ----- the ticks before an instant -----

  function Before(ticks: seq<Tick>, t: int): seq<Tick> {
    if ticks == [] then []
    else
      var last := ticks[|ticks| - 1];
      Before(ticks[..|ticks| - 1], t) + if last.time < t then [last] else []
  }

  lemma {:induction false} BeforeAll(ticks: seq<Tick>, t: int)
    requires forall i :: 0 <= i < |ticks| ==> ticks[i].time < t
    ensures Before(ticks, t) == ticks
  {
    if ticks != [] {
      BeforeAll(ticks[..|ticks| - 1], t);
      assert ticks == ticks[..|ticks| - 1] + [ticks[|ticks| - 1]];
    }
  }

  lemma {:induction false} BeforeNone(ticks: seq<Tick>, t: int)
    requires forall i :: 0 <= i < |ticks| ==> t <= ticks[i].time
    ensures Before(ticks, t) == []
  {
    if ticks != [] {
      BeforeNone(ticks[..|ticks| - 1], t);
    }
  }

  lemma AlignedBucket(time: int, t: int)
    requires t % SECOND == 0
    ensures Bucket(time, SECOND) == t <==> t <= time < t + SECOND
  {}

  /** One aligned second further, exactly that second's ticks are added at the end. */
  lemma {:induction false} BeforeStep(ticks: seq<Tick>, t: int)
    requires Sorted(ticks) && t % SECOND == 0
    ensures Before(ticks, t + SECOND) == Before(ticks, t) + Group(ticks, SECOND, t)
  {
    hide Bucket, Sorted;
    if ticks != [] {
      var init, last := ticks[..|ticks| - 1], ticks[|ticks| - 1];
      SortedInit(ticks);
      BeforeStep(init, t);
      AlignedBucket(last.time, t);
      if last.time < t {
        forall i | 0 <= i < |init| ensures Bucket(init[i].time, SECOND) != t {
          AlignedBucket(init[i].time, t);
        }
        GroupOutside(init, SECOND, t);
        assert Before(init, t) + [] == Before(init, t);
      }
    }
  }

  // ----- the grid -----

  /** What is known of the kept ticks on a range of aligned seconds. */
  ghost predicate OnGrid(ticks: seq<Tick>, start: int, end: int) {
    Sorted(ticks) && forall i :: 0 <= i < |ticks| ==> start <= ticks[i].time <= end
  }

  function Grid(start: int, k: nat): int { start + SECOND * k }

  /** The grid goes from the start to the end and no further. */
  lemma GridCovers(start: int, end: int)
    requires start <= end
    ensures GridSize(start, end) > 0
    ensures Grid(start, GridSize(start, end) - 1) <= end < Grid(start, GridSize(start, end))
  {}

  /** Up to the `k`-th second of the grid, forward filling carries the price of the last tick. */
  lemma {:induction false} CarriedClose(ticks: seq<Tick>, start: int, end: int, k: nat)
    requires OnGrid(ticks, start, end) && start % SECOND == 0
    ensures var seen := Before(ticks, Grid(start, k) + SECOND);
      CloseUpTo(BarsOf(GroupBy(ticks, SECOND)), start, k) ==
        if seen == [] then None else Some(seen[|seen| - 1].price)
  {
    hide Before, Group, GroupBy, BarsOf, BarAt, Sorted;
    var t := Grid(start, k);
    BeforeStep(ticks, t);
    BarAtIsGroup(ticks, t);
    if Group(ticks, SECOND, t) == [] {
      if k == 0 {
        BeforeNone(ticks, start);
      } else {
        CarriedClose(ticks, start, end, k - 1);
        assert Before(ticks, t) + [] == Before(ticks, t);
      }
    }
  }

  /** Volume adds up, and a single tick trades its own quantity. */
  lemma {:induction false} VolumeAppend(a: seq<Tick>, b: seq<Tick>)
    ensures Volume(a + b) == Volume(a) + Volume(b)
    ensures |b| == 1 ==> Volume(b) == b[0].qty
  {
    if b == [] {
      assert a + b == a;
    } else {
      assert (a + b)[..|a + b| - 1] == a + b[..|b| - 1];
      VolumeAppend(a, b[..|b| - 1]);
    }
  }

  function CandleVolume(candles: seq<Candle>): real {
    if candles == [] then 0.0 else CandleVolume(candles[..|candles| - 1]) + candles[|candles| - 1].volume
  }

  lemma {:induction false} VolumeSoFar(ticks: seq<Tick>, start: int, end: int, n: nat, firstClose: real)
    requires OnGrid(ticks, start, end) && start % SECOND == 0
    ensures CandleVolume(Candles(BarsOf(GroupBy(ticks, SECOND)), start, n, firstClose)) ==
      Volume(Before(ticks, Grid(start, n)))
  {
    hide Before, Group, GroupBy, BarsOf, BarAt, Volume, CloseUpTo;
    if n == 0 {
      BeforeNone(ticks, start);
      NoVolume();
    } else {
      var t := Grid(start, n - 1);
      VolumeSoFar(ticks, start, end, n - 1, firstClose);
      BeforeStep(ticks, t);
      BarAtIsGroup(ticks, t);
      VolumeAppend(Before(ticks, t), Group(ticks, SECOND, t));
      NoVolume();
      SnocCandles(BarsOf(GroupBy(ticks, SECOND)), start, n, firstClose);
    }
  }

  lemma NoVolume()
    ensures Volume([]) == 0.0
  {}

  lemma SnocCandles(bars: seq<Bar>, start: int, n: nat, firstClose: real)
    requires n > 0
    ensures var all := Candles(bars, start, n, firstClose);
      && |all| > 0 && all[..|all| - 1] == Candles(bars, start, n - 1, firstClose)
      && all[|all| - 1] == CandleAt(bars, start, n - 1, firstClose)
  {
    hide CandleAt;
  }

  lemma {:induction false} CandlesAt(bars: seq<Bar>, start: int, n: nat, firstClose: real)
    ensures |Candles(bars, start, n, firstClose)| == n
    ensures forall k :: 0 <= k < n ==> Candles(bars, start, n, firstClose)[k] == CandleAt(bars, start, k, firstClose)
  {
    hide CandleAt;
    if n > 0 {
      CandlesAt(bars, start, n - 1, firstClose);
    }
  }

  // ----- when filling succeeds -----

  lemma {:induction false} NoBarOffGrid(ticks: seq<Tick>, start: int, n: nat, k: nat)
    requires k <= n && start % SECOND != 0
    ensures FirstClose(BarsOf(GroupBy(ticks, SECOND)), start, n, k) == None
    decreases n - k
  {
    hide Group, GroupBy, BarsOf, BarAt;
    if k < n {
      BarAtIsGroup(ticks, start + SECOND * k);
      OffGridGroup(ticks, start + SECOND * k);
      NoBarOffGrid(ticks, start, n, k + 1);
    }
  }

  lemma {:induction false} OffGridGroup(ticks: seq<Tick>, t: int)
    requires t % SECOND != 0
    ensures Group(ticks, SECOND, t) == []
  {
    if ticks != [] {
      OffGridGroup(ticks[..|ticks| - 1], t);
    }
  }

  /** The first close on an aligned grid is the close of the second of the first tick. */
  lemma {:induction false} FirstCloseFound(ticks: seq<Tick>, start: int, end: int, n: nat, k: nat)
    requires OnGrid(ticks, start, end) && ticks != [] && start % SECOND == 0
    requires k <= n && Before(ticks, Grid(start, k)) == [] && Before(ticks, Grid(start, n)) == ticks
    ensures var second := Group(ticks, SECOND, Bucket(ticks[0].time, SECOND));
      && second != []
      && FirstClose(BarsOf(GroupBy(ticks, SECOND)), start, n, k) == Some(second[|second| - 1].price)
    decreases n - k
  {
    hide Before, Group, GroupBy, BarsOf, BarAt;
    var t := Grid(start, k);
    assert k < n;
    BeforeStep(ticks, t);
    BarAtIsGroup(ticks, t);
    var group := Group(ticks, SECOND, t);
    assert [] + group == group;
    if group == [] {
      FirstCloseFound(ticks, start, end, n, k + 1);
    } else {
      FirstTickInGroup(ticks, t);
    }
  }

  lemma {:induction false} FirstTickInGroup(ticks: seq<Tick>, t: int)
    requires Sorted(ticks) && ticks != [] && t % SECOND == 0
    requires Before(ticks, t) == [] && Group(ticks, SECOND, t) != []
    ensures Bucket(ticks[0].time, SECOND) == t
  {
    hide Bucket, Sorted;
    NotBefore(ticks, t, 0);
    if |ticks| > 1 && Group(ticks[..|ticks| - 1], SECOND, t) != [] {
      SortedInit(ticks);
      FirstTickInGroup(ticks[..|ticks| - 1], t);
    } else {
      var last := ticks[|ticks| - 1];
      AlignedBucket(last.time, t);
      AlignedBucket(ticks[0].time, t);
      FirstIsLeast(ticks);
    }
  }

  lemma FirstIsLeast(ticks: seq<Tick>)
    requires Sorted(ticks) && ticks != []
    ensures ticks[0].time <= ticks[|ticks| - 1].time
  {}

  lemma {:induction false} NotBefore(ticks: seq<Tick>, t: int, i: nat)
    requires Before(ticks, t) == [] && i < |ticks|
    ensures t <= ticks[i].time
  {
    if i < |ticks| - 1 {
      NotBefore(ticks[..|ticks| - 1], t, i);
    }
  }

  // ----- the bars of a whole run -----

  /** The highest and the lowest price of a group are prices of the group and bound all others. */
  lemma {:induction false} ExtremesAreExtreme(ticks: seq<Tick>)
    requires ticks != []
    ensures exists i :: 0 <= i < |ticks| && ticks[i].price == MaxPrice(ticks)
    ensures exists i :: 0 <= i < |ticks| && ticks[i].price == MinPrice(ticks)
    ensures forall i :: 0 <= i < |ticks| ==> MinPrice(ticks) <= ticks[i].price <= MaxPrice(ticks)
  {
    if |ticks| == 1 {
      assert ticks[0].price == MaxPrice(ticks) == MinPrice(ticks);
    } else {
      var init := ticks[..|ticks| - 1];
      ExtremesAreExtreme(init);
      var i :| 0 <= i < |init| && init[i].price == MaxPrice(init);
      var j :| 0 <= j < |init| && init[j].price == MinPrice(init);
      assert ticks[i].price == MaxPrice(init) && ticks[j].price == MinPrice(init);
      assert MaxPrice(ticks) == MaxPrice(init) || MaxPrice(ticks) == ticks[|ticks| - 1].price;
      assert MinPrice(ticks) == MinPrice(init) || MinPrice(ticks) == ticks[|ticks| - 1].price;
    }
  }

  /** What a candle says of the ticks: its own second's prices and volume if there was a trade, and
      otherwise the price of the last trade before, or of the first traded second if there is none. */
  ghost predicate Shows(c: Candle, ticks: seq<Tick>, t: int)
    requires ticks != []
  {
    var second, seen := Group(ticks, SECOND, t), Before(ticks, t + SECOND);
    var first := Group(ticks, SECOND, Bucket(ticks[0].time, SECOND));
    && c.time == t && c.volume == Volume(second)
    && (seen != [] ==> c.close == seen[|seen| - 1].price)
    && (seen == [] ==> first != [] && c.close == first[|first| - 1].price)
    && (second != [] ==> c.open == second[0].price && c.high == MaxPrice(second) && c.low == MinPrice(second))
    && (second == [] ==> c.open == c.high == c.low == c.close)
  }

  lemma CandleShows(ticks: seq<Tick>, start: int, end: int, k: nat, firstClose: real)
    requires OnGrid(ticks, start, end) && ticks != [] && start % SECOND == 0
    requires var first := Group(ticks, SECOND, Bucket(ticks[0].time, SECOND));
      first != [] && firstClose == first[|first| - 1].price
    ensures Shows(CandleAt(BarsOf(GroupBy(ticks, SECOND)), start, k, firstClose), ticks, Grid(start, k))
  {
    hide Before, Group, GroupBy, BarsOf, BarAt, CloseUpTo, Volume, MaxPrice, MinPrice, Sorted;
    BarAtIsGroup(ticks, Grid(start, k));
    CarriedClose(ticks, start, end, k);
    NoVolume();
  }

  /** On an aligned range the filling succeeds, conserves the volume, and shows every second. */
  lemma AlignedFill(ticks: seq<Tick>, start: int, end: int)
    requires OnGrid(ticks, start, end) && ticks != [] && start % SECOND == 0
    ensures var out := GapFilled(BarsOf(GroupBy(ticks, SECOND)), start, end);
      && out.Some? && CandleVolume(out.value) == Volume(ticks) && |out.value| == GridSize(start, end)
      && forall k :: 0 <= k < |out.value| ==> Shows(out.value[k], ticks, Grid(start, k))
  {
    hide Before, Group, GroupBy, BarsOf, BarAt, Volume, Candles, CandleAt, Shows, FirstClose, Sorted, GridSize;
    var bars, n := BarsOf(GroupBy(ticks, SECOND)), GridSize(start, end);
    assert start <= ticks[0].time <= end;
    GridCovers(start, end);
    BeforeNone(ticks, start);
    BeforeAll(ticks, Grid(start, n));
    FirstCloseFound(ticks, start, end, n, 0);
    var firstClose := FirstClose(bars, start, n, 0).value;
    assert bars != [] by { NoBarsNoFirst(start, n); }
    VolumeSoFar(ticks, start, end, n, firstClose);
    CandlesAt(bars, start, n, firstClose);
    forall k | 0 <= k < n ensures Shows(Candles(bars, start, n, firstClose)[k], ticks, Grid(start, k)) {
      CandleShows(ticks, start, end, k, firstClose);
    }
  }

  lemma NoBarsNoFirst(start: int, n: nat)
    ensures FirstClose([], start, n, 0) == None
  {
    NoBarsNoFirstFrom(start, n, 0);
  }

  lemma {:induction false} NoBarsNoFirstFrom(start: int, n: nat, k: nat)
    requires k <= n
    ensures FirstClose([], start, n, k) == None
    decreases n - k
  {
    if k < n {
      NoBarsNoFirstFrom(start, n, k + 1);
    }
  }

  lemma NoTicksNoBars()
    ensures BarsOf(GroupBy([], SECOND)) == []
  {}

  /** For time-ordered ticks, however they are cut into files and chunks: the second bars exist
      exactly when some tick is in range and the start is a whole second; then there is one for every
      second from the start to the end, they conserve the traded volume, and each one shows what the
      ticks say of its second. */
  lemma SecondBarsExact(files: seq<seq<seq<Tick>>>, start: int, end: int)
    requires Sorted(FlatFiles(files))
    ensures var kept := Kept(FlatFiles(files), Some(start), Some(end));
      var out := GapFilled(BarsOf(Finish(ReadFiles(NOTHING_READ, files, start, end, SECOND), SECOND)), start, end);
      && (forall t :: Times(kept, t) == if start <= t.time <= end then Times(FlatFiles(files), t) else 0)
      && (out.Some? <==> kept != [] && start % SECOND == 0)
      && (out.Some? ==> |out.value| > 0 && Grid(start, |out.value| - 1) <= end < Grid(start, |out.value|))
      && (out.Some? ==> CandleVolume(out.value) == Volume(kept) && |out.value| == GridSize(start, end))
      && (out.Some? ==> forall k :: 0 <= k < |out.value| ==> Shows(out.value[k], kept, Grid(start, k)))
  {
    hide FlatFiles, Kept, ReadFiles, Finish, GroupBy, BarsOf, GapFilled, Volume, Shows, Sorted, GridSize;
    var ticks := FlatFiles(files);
    var kept := Kept(ticks, Some(start), Some(end));
    ChunksDoNotMatter(files, start, end, SECOND);
    KeptSorted(ticks, Some(start), Some(end));
    KeptInRange(ticks, Some(start), Some(end));
    forall t ensures Times(kept, t) == if start <= t.time <= end then Times(ticks, t) else 0 {
      KeptExactly(ticks, Some(start), Some(end), t);
    }
    if start <= end {
      GridCovers(start, end);
    }
    if kept == [] {
      NoTicksNoBars();
      NoBarsNoFill(start, end);
    } else if start % SECOND != 0 {
      NoBarOffGrid(kept, start, GridSize(start, end), 0);
      NoFirstNoFill(BarsOf(GroupBy(kept, SECOND)), start, end);
    } else {
      assert start <= kept[0].time <= end;
      AlignedFill(kept, start, end);
    }
  }

  lemma NoBarsNoFill(start: int, end: int)
    ensures GapFilled([], start, end) == None
  {}

  lemma NoFirstNoFill(bars: seq<Bar>, start: int, end: int)
    requires FirstClose(bars, start, GridSize(start, end), 0) == None
    ensures GapFilled(bars, start, end) == None
  {}
}
