/** Reading ticks in chunks: however a time-ordered stream is cut into files and chunks, the
    buckets come out as from one batch grouping of the ticks in range. */
module TickStream {
  import opened Options
  import opened TickGroups

  predicate InRange(t: int, from: Option<int>, to: Option<int>) {
    (from.Some? ==> from.value <= t) && (to.Some? ==> t <= to.value)
  }

  /** The ticks within the closed range; a missing bound does not restrict. */
  function Kept(ticks: seq<Tick>, from: Option<int>, to: Option<int>): seq<Tick> {
    if ticks == [] then []
    else
      var last := ticks[|ticks| - 1];
      Kept(ticks[..|ticks| - 1], from, to) + if InRange(last.time, from, to) then [last] else []
  }

  function Flat<T>(parts: seq<seq<T>>): seq<T> {
    if parts == [] then [] else parts[0] + Flat(parts[1..])
  }

  // ----- the carried bucket -----

  /** Ticks held back because their bucket may continue, and the groups finished so far. */
  datatype Carry = Carry(pending: seq<Tick>, finished: seq<seq<Tick>>)

  const NOTHING_READ := Carry([], [])

  function Absorb(c: Carry, kept: seq<Tick>, width: int): Carry
    requires width > 0
  {
    if kept == [] then c
    else
      var chunk := c.pending + kept;
      var k := Bucket(chunk[|chunk| - 1].time, width);
      Carry(Those(chunk, width, k, true), c.finished + GroupBy(Those(chunk, width, k, false), width))
  }

  function Finish(c: Carry, width: int): seq<seq<Tick>>
    requires width > 0
  {
    if c.pending == [] then c.finished else c.finished + GroupBy(c.pending, width)
  }

  /** The chunk loop of `build_continuous_second_bars` over one file. */
  function ReadChunks(c: Carry, chunks: seq<seq<Tick>>, start: int, end: int, width: int): Carry
    requires width > 0
    decreases chunks
  {
    if chunks == [] then c
    else
      var chunk := chunks[0];
      if chunk == [] then ReadChunks(c, chunks[1..], start, end, width)
      else if chunk[0].time > end then c
      else if chunk[|chunk| - 1].time < start then ReadChunks(c, chunks[1..], start, end, width)
      else ReadChunks(Absorb(c, Kept(chunk, Some(start), Some(end)), width), chunks[1..], start, end, width)
  }

  function ReadFiles(c: Carry, files: seq<seq<seq<Tick>>>, start: int, end: int, width: int): Carry
    requires width > 0
    decreases files
  {
    if files == [] then c else ReadFiles(ReadChunks(c, files[0], start, end, width), files[1..], start, end, width)
  }

  /** The chunk loop of `_build_tick_event_stream`: one file, optional bounds, and the upper bound
      is applied only to the chunk that crosses it, which is also the last one read. */
  function ReadTickChunks(c: Carry, chunks: seq<seq<Tick>>, from: Option<int>, to: Option<int>, width: int): Carry
    requires width > 0
    decreases chunks
  {
    if chunks == [] then c
    else
      var chunk := chunks[0];
      if to.Some? && chunk != [] && chunk[0].time > to.value then c
      else if from.Some? && chunk != [] && chunk[|chunk| - 1].time < from.value then
        ReadTickChunks(c, chunks[1..], from, to, width)
      else
        var reachedEnd := to.Some? && chunk != [] && chunk[|chunk| - 1].time > to.value;
        var kept := Kept(Kept(chunk, None, if reachedEnd then to else None), from, None);
        var next := Absorb(c, kept, width);
        if reachedEnd then next else ReadTickChunks(next, chunks[1..], from, to, width)
  }

  // ----- ranges and order -----

  lemma {:induction false} KeptAppend(a: seq<Tick>, b: seq<Tick>, from: Option<int>, to: Option<int>)
    ensures Kept(a + b, from, to) == Kept(a, from, to) + Kept(b, from, to)
  {
    if b == [] {
      assert a + b == a;
    } else {
      assert (a + b)[..|a + b| - 1] == a + b[..|b| - 1];
      KeptAppend(a, b[..|b| - 1], from, to);
    }
  }

  lemma {:induction false} KeptNone(ticks: seq<Tick>, from: Option<int>, to: Option<int>)
    requires forall i :: 0 <= i < |ticks| ==> !InRange(ticks[i].time, from, to)
    ensures Kept(ticks, from, to) == []
  {
    if ticks != [] {
      KeptNone(ticks[..|ticks| - 1], from, to);
    }
  }

  lemma {:induction false} KeptTwice(ticks: seq<Tick>, from: Option<int>, to: Option<int>, applied: Option<int>)
    requires applied == to || (applied == None && forall i :: 0 <= i < |ticks| ==> InRange(ticks[i].time, None, to))
    ensures Kept(Kept(ticks, None, applied), from, None) == Kept(ticks, from, to)
  {
    if ticks != [] {
      var init, last := ticks[..|ticks| - 1], ticks[|ticks| - 1];
      KeptTwice(init, from, to, applied);
      var before := Kept(init, None, applied);
      assert (before + [last])[..|before|] == before;
      assert applied == to || InRange(last.time, None, to);
      if InRange(last.time, None, applied) {
        assert Kept(ticks, None, applied) == before + [last];
      } else {
        assert Kept(ticks, None, applied) == before;
      }
    }
  }

  lemma {:induction false} KeptInRange(ticks: seq<Tick>, from: Option<int>, to: Option<int>)
    ensures forall i :: 0 <= i < |Kept(ticks, from, to)| ==> InRange(Kept(ticks, from, to)[i].time, from, to)
  {
    hide InRange;
    if ticks != [] {
      KeptInRange(ticks[..|ticks| - 1], from, to);
    }
  }

  lemma {:induction false} KeptNotAfter(ticks: seq<Tick>, from: Option<int>, to: Option<int>, t: int)
    requires forall i :: 0 <= i < |ticks| ==> ticks[i].time <= t
    ensures forall i :: 0 <= i < |Kept(ticks, from, to)| ==> Kept(ticks, from, to)[i].time <= t
  {
    hide InRange;
    if ticks != [] {
      KeptNotAfter(ticks[..|ticks| - 1], from, to, t);
    }
  }

  /** How often a tick occurs. */
  function Times(ticks: seq<Tick>, t: Tick): nat { multiset(ticks)[t] }

  /** A tick is kept, as often as it was read, if its time is neither before the start nor after the end,
      and otherwise not at all. */
  lemma {:induction false} KeptExactly(ticks: seq<Tick>, from: Option<int>, to: Option<int>, t: Tick)
    ensures Times(Kept(ticks, from, to), t) ==
      if (from.Some? && t.time < from.value) || (to.Some? && t.time > to.value) then 0 else Times(ticks, t)
  {
    if ticks != [] {
      var init, last := ticks[..|ticks| - 1], ticks[|ticks| - 1];
      KeptExactly(init, from, to, t);
      assert ticks == init + [last];
    }
  }

  /** What is kept of a time-ordered stream is in time order. */
  lemma {:induction false} KeptSorted(ticks: seq<Tick>, from: Option<int>, to: Option<int>)
    requires Sorted(ticks)
    ensures Sorted(Kept(ticks, from, to))
  {
    hide InRange, Sorted, Kept;
    if ticks == [] {
      KeptNone(ticks, from, to);
      NothingIsSorted();
    } else {
      var init, last := ticks[..|ticks| - 1], ticks[|ticks| - 1];
      SortedInit(ticks);
      KeptSorted(init, from, to);
      KeptNotAfter(init, from, to, last.time);
      SortedSnoc(Kept(init, from, to), last);
      KeptUnfold(ticks, from, to);
    }
  }

  lemma SortedInit(ticks: seq<Tick>)
    requires Sorted(ticks) && ticks != []
    ensures var init := ticks[..|ticks| - 1];
      Sorted(init) && forall i :: 0 <= i < |init| ==> init[i].time <= ticks[|ticks| - 1].time
  {}

  lemma KeptUnfold(ticks: seq<Tick>, from: Option<int>, to: Option<int>)
    requires ticks != []
    ensures var before, last := Kept(ticks[..|ticks| - 1], from, to), ticks[|ticks| - 1];
      Kept(ticks, from, to) == if InRange(last.time, from, to) then before + [last] else before
  {
    hide InRange;
  }

  lemma NothingIsSorted()
    ensures Sorted([])
  {}

  lemma SortedSnoc(ticks: seq<Tick>, last: Tick)
    requires Sorted(ticks) && (ticks != [] ==> ticks[|ticks| - 1].time <= last.time)
    ensures Sorted(ticks + [last])
  {
    forall i | 0 <= i < |ticks| ensures ticks[i].time <= last.time {
      assert ticks[i].time <= ticks[|ticks| - 1].time;
    }
  }

  lemma SortedParts(a: seq<Tick>, b: seq<Tick>)
    requires Sorted(a + b)
    ensures Sorted(a) && Sorted(b)
    ensures forall i, j :: 0 <= i < |a| && 0 <= j < |b| ==> a[i].time <= b[j].time
  {
    forall i, j | 0 <= i < j < |a| ensures a[i].time <= a[j].time {
      assert (a + b)[i] == a[i] && (a + b)[j] == a[j];
    }
    forall i, j | 0 <= i < j < |b| ensures b[i].time <= b[j].time {
      assert (a + b)[|a| + i] == b[i] && (a + b)[|a| + j] == b[j];
    }
    forall i, j | 0 <= i < |a| && 0 <= j < |b| ensures a[i].time <= b[j].time {
      assert (a + b)[i] == a[i] && (a + b)[|a| + j] == b[j];
    }
  }

  // ----- what the carry stands for -----

  ghost predicate AllBelow(ticks: seq<Tick>, width: int, k: int)
    requires width > 0
  {
    forall i :: 0 <= i < |ticks| ==> Bucket(ticks[i].time, width) < k
  }

  ghost predicate AllFrom(ticks: seq<Tick>, width: int, k: int)
    requires width > 0
  {
    forall i :: 0 <= i < |ticks| ==> k <= Bucket(ticks[i].time, width)
  }

  ghost predicate AllAt(ticks: seq<Tick>, width: int, k: int)
    requires width > 0
  {
    forall i :: 0 <= i < |ticks| ==> Bucket(ticks[i].time, width) == k
  }

  lemma BelowAppend(a: seq<Tick>, b: seq<Tick>, width: int, k: int, l: int)
    requires width > 0 && AllBelow(a, width, k) && AllBelow(b, width, l) && k <= l
    ensures AllBelow(a + b, width, l)
  {
    hide Bucket;
  }

  /** The carry after the ticks `before + c.pending`: the finished groups are the batch grouping of
      `before`, and the pending ticks are those of the last bucket. */
  ghost predicate StandsFor(c: Carry, before: seq<Tick>, width: int)
    requires width > 0
  {
    && c.finished == GroupBy(before, width)
    && (if c.pending == [] then before == [] else
          AllBelow(before, width, Bucket(c.pending[0].time, width)) &&
          AllAt(c.pending, width, Bucket(c.pending[0].time, width)))
  }

  /** In time order, buckets lie between those of the first and the last tick. */
  lemma BucketsBetween(ticks: seq<Tick>, width: int)
    requires width > 0 && Sorted(ticks) && ticks != []
    ensures AllFrom(ticks, width, Bucket(ticks[0].time, width))
    ensures AllBelow(ticks, width, Bucket(ticks[|ticks| - 1].time, width) + 1)
  {
    hide Bucket;
    forall i | 0 <= i < |ticks|
      ensures Bucket(ticks[0].time, width) <= Bucket(ticks[i].time, width) <= Bucket(ticks[|ticks| - 1].time, width)
    {
      BucketMonotone(ticks[0].time, ticks[i].time, width);
      BucketMonotone(ticks[i].time, ticks[|ticks| - 1].time, width);
    }
  }

  /** Grouping is independent on the two sides of a bucket boundary. */
  lemma GroupByCut(a: seq<Tick>, b: seq<Tick>, width: int, mid: int)
    requires width > 0 && AllBelow(a, width, mid) && AllFrom(b, width, mid)
    requires Sorted(a) && Sorted(b)
    ensures GroupBy(a + b, width) == GroupBy(a, width) + GroupBy(b, width)
  {
    hide Bucket, GroupBy;
    var low := if a == [] then mid else Bucket(a[0].time, width);
    var high := if b == [] then mid else Bucket(b[|b| - 1].time, width) + 1;
    if a != [] {
      BucketsBetween(a, width);
    }
    if b != [] {
      BucketsBetween(b, width);
    }
    GroupByApart(a, b, width, low, mid, high);
  }

  lemma LastIsThere(chunk: seq<Tick>, width: int, k: int)
    requires width > 0 && chunk != [] && k == Bucket(chunk[|chunk| - 1].time, width)
    ensures Those(chunk, width, k, true) != []
  {
    hide Bucket;
  }

  /** Cutting a time-ordered chunk before its last bucket. */
  lemma CutChunk(chunk: seq<Tick>, width: int) returns (complete: seq<Tick>, last: seq<Tick>, k: int)
    requires width > 0 && chunk != [] && Sorted(chunk)
    ensures k == Bucket(chunk[|chunk| - 1].time, width)
    ensures complete == Those(chunk, width, k, false) && last == Those(chunk, width, k, true)
    ensures chunk == complete + last && last != []
    ensures AllFrom(complete, width, Bucket(chunk[0].time, width)) && AllBelow(complete, width, k)
    ensures AllAt(last, width, k) && Bucket(chunk[0].time, width) <= k
  {
    hide Bucket;
    k := Bucket(chunk[|chunk| - 1].time, width);
    BucketsBetween(chunk, width);
    LastBucketIsSuffix(chunk, width, k);
    complete, last := Those(chunk, width, k, false), Those(chunk, width, k, true);
    assert forall i :: 0 <= i < |complete| ==> complete[i] == chunk[i];
    LastIsThere(chunk, width, k);
  }

  /** Absorbing a chunk moves the boundary to the start of the last bucket. */
  lemma AbsorbStandsFor(c: Carry, before: seq<Tick>, kept: seq<Tick>, width: int) returns (before': seq<Tick>)
    requires width > 0 && StandsFor(c, before, width) && Sorted(before + (c.pending + kept))
    ensures StandsFor(Absorb(c, kept, width), before', width)
    ensures before' + Absorb(c, kept, width).pending == before + (c.pending + kept)
  {
    hide Bucket, GroupBy, Those;
    if kept == [] {
      assert c.pending + kept == c.pending;
      before' := before;
    } else {
      var chunk := c.pending + kept;
      SortedParts(before, chunk);
      var complete, last, k := CutChunk(chunk, width);
      SortedParts(complete, last);
      AbsorbBoundary(c, before, kept, width);
      GroupByCut(before, complete, width, Bucket(chunk[0].time, width));
      BelowAppend(before, complete, width, Bucket(chunk[0].time, width), k);
      before' := before + complete;
      assert before + (complete + last) == before + complete + last;
    }
  }

  lemma AbsorbBoundary(c: Carry, before: seq<Tick>, kept: seq<Tick>, width: int)
    requires width > 0 && StandsFor(c, before, width) && kept != []
    ensures AllBelow(before, width, Bucket((c.pending + kept)[0].time, width))
  {
    hide Bucket, GroupBy;
  }

  lemma FinishIsBatch(c: Carry, before: seq<Tick>, width: int)
    requires width > 0 && StandsFor(c, before, width) && Sorted(before + c.pending)
    ensures Finish(c, width) == GroupBy(before + c.pending, width)
  {
    hide Bucket, GroupBy;
    if c.pending == [] {
      assert before + c.pending == before;
    } else {
      SortedParts(before, c.pending);
      GroupByCut(before, c.pending, width, Bucket(c.pending[0].time, width));
    }
  }

  // ----- whole streams -----

  /** The carry stands for what is kept of the raw ticks read so far. */
  ghost predicate Reached(c: Carry, raw: seq<Tick>, from: Option<int>, to: Option<int>, width: int)
    requires width > 0
  {
    exists before :: StandsFor(c, before, width) && before + c.pending == Kept(raw, from, to)
  }

  lemma AbsorbReached(c: Carry, raw: seq<Tick>, chunk: seq<Tick>, from: Option<int>, to: Option<int>, width: int)
    requires width > 0 && Reached(c, raw, from, to, width) && Sorted(raw + chunk)
    ensures Reached(Absorb(c, Kept(chunk, from, to), width), raw + chunk, from, to, width)
  {
    hide StandsFor, Kept, Absorb;
    var before :| StandsFor(c, before, width) && before + c.pending == Kept(raw, from, to);
    var kept := Kept(chunk, from, to);
    KeptAppend(raw, chunk, from, to);
    KeptSorted(raw + chunk, from, to);
    assert before + (c.pending + kept) == before + c.pending + kept;
    var before' := AbsorbStandsFor(c, before, kept, width);
  }

  /** Raw ticks of which nothing is kept change nothing. */
  lemma SkipReached(c: Carry, raw: seq<Tick>, skipped: seq<Tick>, from: Option<int>, to: Option<int>, width: int)
    requires width > 0 && Reached(c, raw, from, to, width)
    requires forall i :: 0 <= i < |skipped| ==> !InRange(skipped[i].time, from, to)
    ensures Reached(c, raw + skipped, from, to, width)
  {
    hide StandsFor, Kept, InRange;
    KeptAppend(raw, skipped, from, to);
    KeptNone(skipped, from, to);
    assert Kept(raw, from, to) + [] == Kept(raw, from, to);
  }

  lemma AllAfter(ticks: seq<Tick>, from: Option<int>, to: int)
    requires Sorted(ticks) && ticks != [] && ticks[0].time > to
    ensures forall i :: 0 <= i < |ticks| ==> !InRange(ticks[i].time, from, Some(to))
  {}

  lemma AllEarly(ticks: seq<Tick>, from: int, to: Option<int>)
    requires Sorted(ticks) && ticks != [] && ticks[|ticks| - 1].time < from
    ensures forall i :: 0 <= i < |ticks| ==> !InRange(ticks[i].time, Some(from), to)
  {}

  lemma AllUpTo(ticks: seq<Tick>, to: int)
    requires Sorted(ticks) && ticks != [] && ticks[|ticks| - 1].time <= to
    ensures forall i :: 0 <= i < |ticks| ==> InRange(ticks[i].time, None, Some(to))
  {}

  lemma FlatFirst<T>(parts: seq<seq<T>>)
    requires parts != []
    ensures Flat(parts) == parts[0] + Flat(parts[1..])
  {}

  lemma {:induction false} ReadChunksReached(
      c: Carry, raw: seq<Tick>, chunks: seq<seq<Tick>>, start: int, end: int, width: int)
    requires width > 0 && Reached(c, raw, Some(start), Some(end), width) && Sorted(raw + Flat(chunks))
    ensures Reached(ReadChunks(c, chunks, start, end, width), raw + Flat(chunks), Some(start), Some(end), width)
    decreases chunks
  {
    hide Flat, Reached, Absorb, Kept, Sorted, InRange;
    if chunks == [] {
      assert Flat(chunks) == [] by { FlatNothing<Tick>(); }
      assert raw + [] == raw;
    } else {
      var chunk, rest := chunks[0], Flat(chunks[1..]);
      FlatFirst(chunks);
      assert raw + (chunk + rest) == raw + chunk + rest;
      SortedParts(raw, chunk + rest);
      SortedParts(raw + chunk, rest);
      SortedParts(chunk, rest);
      if chunk == [] {
        assert raw + chunk == raw;
        ReadChunksReached(c, raw, chunks[1..], start, end, width);
      } else if chunk[0].time > end {
        AllAfter(chunk + rest, Some(start), end);
        SkipReached(c, raw, chunk + rest, Some(start), Some(end), width);
      } else if chunk[|chunk| - 1].time < start {
        AllEarly(chunk, start, Some(end));
        SkipReached(c, raw, chunk, Some(start), Some(end), width);
        ReadChunksReached(c, raw + chunk, chunks[1..], start, end, width);
      } else {
        AbsorbReached(c, raw, chunk, Some(start), Some(end), width);
        ReadChunksReached(Absorb(c, Kept(chunk, Some(start), Some(end)), width), raw + chunk,
                          chunks[1..], start, end, width);
      }
    }
  }

  lemma FlatNothing<T>()
    ensures Flat<T>([]) == []
  {}

  function FlatFiles(files: seq<seq<seq<Tick>>>): seq<Tick> {
    if files == [] then [] else Flat(files[0]) + FlatFiles(files[1..])
  }

  lemma {:induction false} ReadFilesReached(
      c: Carry, raw: seq<Tick>, files: seq<seq<seq<Tick>>>, start: int, end: int, width: int)
    requires width > 0 && Reached(c, raw, Some(start), Some(end), width) && Sorted(raw + FlatFiles(files))
    ensures Reached(ReadFiles(c, files, start, end, width), raw + FlatFiles(files), Some(start), Some(end), width)
    decreases files
  {
    hide Flat, Reached, ReadChunks, Sorted;
    if files == [] {
      assert raw + [] == raw;
    } else {
      var ticks, rest := Flat(files[0]), FlatFiles(files[1..]);
      assert raw + (ticks + rest) == raw + ticks + rest;
      SortedParts(raw + ticks, rest);
      ReadChunksReached(c, raw, files[0], start, end, width);
      ReadFilesReached(ReadChunks(c, files[0], start, end, width), raw + ticks, files[1..], start, end, width);
    }
  }

  lemma NothingReached(from: Option<int>, to: Option<int>, width: int)
    requires width > 0
    ensures Reached(NOTHING_READ, [], from, to, width)
  {
    assert StandsFor(NOTHING_READ, [], width);
    assert [] + NOTHING_READ.pending == Kept([], from, to);
  }

  lemma FinishReached(c: Carry, raw: seq<Tick>, from: Option<int>, to: Option<int>, width: int)
    requires width > 0 && Reached(c, raw, from, to, width) && Sorted(raw)
    ensures Finish(c, width) == GroupBy(Kept(raw, from, to), width)
  {
    hide StandsFor, Kept, Finish, GroupBy;
    var before :| StandsFor(c, before, width) && before + c.pending == Kept(raw, from, to);
    KeptSorted(raw, from, to);
    FinishIsBatch(c, before, width);
  }

  /** For time-ordered ticks, however they are cut into files and chunks, the streamed groups are
      the batch grouping of the ticks in range. */
  lemma ChunksDoNotMatter(files: seq<seq<seq<Tick>>>, start: int, end: int, width: int)
    requires width > 0 && Sorted(FlatFiles(files))
    ensures Finish(ReadFiles(NOTHING_READ, files, start, end, width), width) ==
      GroupBy(Kept(FlatFiles(files), Some(start), Some(end)), width)
  {
    hide Flat, FlatFiles, Reached, ReadFiles, Finish, GroupBy, Kept;
    NothingReached(Some(start), Some(end), width);
    assert [] + FlatFiles(files) == FlatFiles(files);
    ReadFilesReached(NOTHING_READ, [], files, start, end, width);
    FinishReached(ReadFiles(NOTHING_READ, files, start, end, width), FlatFiles(files), Some(start), Some(end), width);
  }

  lemma {:induction false} ReadTickChunksReached(
      c: Carry, raw: seq<Tick>, chunks: seq<seq<Tick>>, from: Option<int>, to: Option<int>, width: int)
    requires width > 0 && Reached(c, raw, from, to, width) && Sorted(raw + Flat(chunks))
    ensures Reached(ReadTickChunks(c, chunks, from, to, width), raw + Flat(chunks), from, to, width)
    decreases chunks, 1
  {
    hide Flat, Reached, Absorb, Kept, Sorted, InRange;
    if chunks == [] {
      FlatNothing<Tick>();
      assert raw + [] == raw;
    } else {
      var chunk, rest := chunks[0], Flat(chunks[1..]);
      FlatFirst(chunks);
      assert raw + (chunk + rest) == raw + chunk + rest;
      SortedParts(raw, chunk + rest);
      SortedParts(raw + chunk, rest);
      SortedParts(chunk, rest);
      if to.Some? && chunk != [] && chunk[0].time > to.value {
        AllAfter(chunk + rest, from, to.value);
        SkipReached(c, raw, chunk + rest, from, to, width);
      } else if from.Some? && chunk != [] && chunk[|chunk| - 1].time < from.value {
        AllEarly(chunk, from.value, to);
        SkipReached(c, raw, chunk, from, to, width);
        ReadTickChunksReached(c, raw + chunk, chunks[1..], from, to, width);
      } else {
        ReadTickChunkReached(c, raw, chunk, rest, chunks[1..], from, to, width);
      }
    }
  }

  lemma UnboundedAbove(ticks: seq<Tick>)
    ensures forall i :: 0 <= i < |ticks| ==> InRange(ticks[i].time, None, None)
  {}

  lemma ReadTickChunkReached(c: Carry, raw: seq<Tick>, chunk: seq<Tick>, rest: seq<Tick>, chunks: seq<seq<Tick>>,
      from: Option<int>, to: Option<int>, width: int)
    requires width > 0 && Reached(c, raw, from, to, width) && Sorted(raw + chunk + rest) && Flat(chunks) == rest
    requires Sorted(raw + chunk) && Sorted(chunk) && Sorted(rest)
    ensures var reachedEnd := to.Some? && chunk != [] && chunk[|chunk| - 1].time > to.value;
      var kept := Kept(Kept(chunk, None, if reachedEnd then to else None), from, None);
      var next := Absorb(c, kept, width);
      Reached(if reachedEnd then next else ReadTickChunks(next, chunks, from, to, width),
              raw + (chunk + rest), from, to, width)
    decreases chunks, 2
  {
    hide Flat, Reached, Absorb, Kept, Sorted, InRange;
    var reachedEnd := to.Some? && chunk != [] && chunk[|chunk| - 1].time > to.value;
    if to.Some? && chunk != [] && !reachedEnd {
      AllUpTo(chunk, to.value);
    } else if to.None? {
      UnboundedAbove(chunk);
    }
    KeptTwice(chunk, from, to, if reachedEnd then to else None);
    AbsorbReached(c, raw, chunk, from, to, width);
    var next := Absorb(c, Kept(chunk, from, to), width);
    assert raw + (chunk + rest) == raw + chunk + rest;
    if reachedEnd {
      RestIsLater(chunk, raw, rest, from, to.value);
      SkipReached(next, raw + chunk, rest, from, to, width);
    } else {
      ReadTickChunksReached(next, raw + chunk, chunks, from, to, width);
    }
  }

  lemma RestIsLater(chunk: seq<Tick>, raw: seq<Tick>, rest: seq<Tick>, from: Option<int>, to: int)
    requires Sorted(raw + chunk + rest) && chunk != [] && chunk[|chunk| - 1].time > to
    ensures forall i :: 0 <= i < |rest| ==> !InRange(rest[i].time, from, Some(to))
  {
    SortedParts(raw + chunk, rest);
    assert (raw + chunk)[|raw + chunk| - 1] == chunk[|chunk| - 1];
  }

  /** The same for the minute summaries of one tick file, with or without bounds. */
  lemma TickChunksDoNotMatter(chunks: seq<seq<Tick>>, from: Option<int>, to: Option<int>, width: int)
    requires width > 0 && Sorted(Flat(chunks))
    ensures Finish(ReadTickChunks(NOTHING_READ, chunks, from, to, width), width) ==
      GroupBy(Kept(Flat(chunks), from, to), width)
  {
    hide Flat, Reached, ReadTickChunks, Finish, GroupBy, Kept;
    NothingReached(from, to, width);
    assert [] + Flat(chunks) == Flat(chunks);
    ReadTickChunksReached(NOTHING_READ, [], chunks, from, to, width);
    FinishReached(ReadTickChunks(NOTHING_READ, chunks, from, to, width), Flat(chunks), from, to, width);
  }
}
