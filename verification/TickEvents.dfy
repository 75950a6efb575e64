/** The tick event stream: of every traded minute its open, high, low and close ticks, in the order
    in which they were traded. */
module TickEvents {
  import opened Options
  import opened TickGroups
  import opened TickStream

  const MINUTE := 60000

  // ----- one minute -----

  /** The first tick at the highest price. */
  function HighTick(ticks: seq<Tick>): Tick
    requires ticks != []
  {
    if |ticks| == 1 then ticks[0]
    else
      var best, last := HighTick(ticks[..|ticks| - 1]), ticks[|ticks| - 1];
      if last.price > best.price then last else best
  }

  /** The first tick at the lowest price. */
  function LowTick(ticks: seq<Tick>): Tick
    requires ticks != []
  {
    if |ticks| == 1 then ticks[0]
    else
      var best, last := LowTick(ticks[..|ticks| - 1]), ticks[|ticks| - 1];
      if last.price < best.price then last else best
  }

  datatype Summary = Summary(
    minute: int, open: real, high: real, low: real, close: real, firstTs: int, lastTs: int, highTs: int, lowTs: int)

  /** The summary of one group; groups are never empty. */
  function SummaryOf(group: seq<Tick>): Summary {
    if group == [] then Summary(0, 0.0, 0.0, 0.0, 0.0, 0, 0, 0, 0)
    else
      var first, last, high, low := group[0], group[|group| - 1], HighTick(group), LowTick(group);
      Summary(Bucket(first.time, MINUTE), first.price, high.price, low.price, last.price,
              first.time, last.time, high.time, low.time)
  }

  function Summaries(groups: seq<seq<Tick>>): seq<Summary> {
    if groups == [] then [] else Summaries(groups[..|groups| - 1]) + [SummaryOf(groups[|groups| - 1])]
  }

  datatype Corner = Open | High | Low | Close

  datatype Point = Point(corner: Corner, time: int, price: real)

  /** The four points of a minute: the earlier extreme first. */
  function Points(m: Summary): seq<Point> {
    if m.highTs <= m.lowTs then
      [Point(Open, m.firstTs, m.open), Point(High, m.highTs, m.high), Point(Low, m.lowTs, m.low), Point(Close, m.lastTs, m.close)]
    else
      [Point(Open, m.firstTs, m.open), Point(Low, m.lowTs, m.low), Point(High, m.highTs, m.high), Point(Close, m.lastTs, m.close)]
  }

  predicate SameTick(p: Point, q: Point) { p.time == q.time && p.price == q.price }

  /** A point at the time and price of the one kept before it is dropped. */
  function Deduped(points: seq<Point>): seq<Point> {
    if points == [] then []
    else
      var kept, p := Deduped(points[..|points| - 1]), points[|points| - 1];
      if kept != [] && SameTick(kept[|kept| - 1], p) then kept else kept + [p]
  }

  datatype Event = Event(time: int, rank: nat, price: real, corner: Corner, minute: int)

  function Numbered(points: seq<Point>, minute: int): seq<Event> {
    if points == [] then []
    else
      var n := |points| - 1;
      Numbered(points[..n], minute) + [Event(points[n].time, n, points[n].price, points[n].corner, minute)]
  }

  function EventsOf(m: Summary): seq<Event> { Numbered(Deduped(Points(m)), m.minute) }

  function Stream(minutes: seq<Summary>): seq<Event> {
    if minutes == [] then [] else Stream(minutes[..|minutes| - 1]) + EventsOf(minutes[|minutes| - 1])
  }

  /** By time, then by rank within the minute. */
  predicate NotAfter(a: Event, b: Event) {
    a.time < b.time || (a.time == b.time && a.rank <= b.rank)
  }

  function Insert(events: seq<Event>, e: Event): seq<Event> {
    if events != [] && !NotAfter(events[|events| - 1], e)
    then Insert(events[..|events| - 1], e) + [events[|events| - 1]]
    else events + [e]
  }

  /** The stable sort at the end. */
  function SortEvents(events: seq<Event>): seq<Event> {
    if events == [] then [] else Insert(SortEvents(events[..|events| - 1]), events[|events| - 1])
  }

  // ----- the program -----

  lemma {:induction false} SummariesAppend(a: seq<seq<Tick>>, b: seq<seq<Tick>>)
    ensures Summaries(a + b) == Summaries(a) + Summaries(b)
  {
    hide SummaryOf;
    if b == [] {
      assert a + b == a;
    } else {
      assert (a + b)[..|a + b| - 1] == a + b[..|b| - 1];
      SummariesAppend(a, b[..|b| - 1]);
    }
  }

  /** The chunk loop of `_build_tick_event_stream`, and the summary of the carried minute. */
  method Summarize(chunks: seq<seq<Tick>>, from: Option<int>, to: Option<int>) returns (summaries: seq<Summary>)
    ensures summaries == Summaries(Finish(ReadTickChunks(NOTHING_READ, chunks, from, to, MINUTE), MINUTE))
  {
    hide GroupBy, Those, Kept, Summaries, Bucket;
    var pending: seq<Tick> := [];
    ghost var finished: seq<seq<Tick>> := [];
    ghost var whole := ReadTickChunks(NOTHING_READ, chunks, from, to, MINUTE);
    NoSummaries();
    summaries := [];
    var i, reachedEnd := 0, false;
    while i < |chunks| && !reachedEnd
      invariant 0 <= i <= |chunks|
      invariant if reachedEnd then Carry(pending, finished) == whole
                else ReadTickChunks(Carry(pending, finished), chunks[i..], from, to, MINUTE) == whole
      invariant summaries == Summaries(finished)
    {
      var chunk := chunks[i];
      assert chunks[i..][1..] == chunks[i + 1..];
      i := i + 1;
      if to.Some? && chunk != [] && chunk[0].time > to.value {
        reachedEnd := true;
        break;
      }
      if from.Some? && chunk != [] && chunk[|chunk| - 1].time < from.value {
        continue;
      }
      if to.Some? && chunk != [] && chunk[|chunk| - 1].time > to.value {
        reachedEnd := true;
      }
      chunk := Kept(Kept(chunk, None, if reachedEnd then to else None), from, None);
      if chunk == [] {
        continue;
      }
      chunk := pending + chunk;
      var lastMinute := Bucket(chunk[|chunk| - 1].time, MINUTE);
      pending := Those(chunk, MINUTE, lastMinute, true);
      var complete := Those(chunk, MINUTE, lastMinute, false);
      SummariesAppend(finished, GroupBy(complete, MINUTE));
      finished := finished + GroupBy(complete, MINUTE);
      summaries := summaries + Summaries(GroupBy(complete, MINUTE));
    }
    assert Carry(pending, finished) == whole;
    if pending != [] {
      SummariesAppend(finished, GroupBy(pending, MINUTE));
      summaries := summaries + Summaries(GroupBy(pending, MINUTE));
    }
  }

  lemma NoSummaries()
    ensures Summaries([]) == []
  {}

  /** The events of one minute, as the program builds them. */
  method MinuteEvents(m: Summary) returns (events: seq<Event>)
    ensures events == EventsOf(m)
  {
    var ordered := Points(m);
    var deduped: seq<Point> := [];
    for k := 0 to |ordered|
      invariant deduped == Deduped(ordered[..k])
    {
      assert ordered[..k + 1][..k] == ordered[..k];
      if deduped != [] && SameTick(deduped[|deduped| - 1], ordered[k]) {
        continue;
      }
      deduped := deduped + [ordered[k]];
    }
    assert ordered[..|ordered|] == ordered;
    events := [];
    for rank := 0 to |deduped|
      invariant events == Numbered(deduped[..rank], m.minute)
    {
      assert deduped[..rank + 1][..rank] == deduped[..rank];
      events := events + [Event(deduped[rank].time, rank, deduped[rank].price, deduped[rank].corner, m.minute)];
    }
    assert deduped[..|deduped|] == deduped;
  }

  /** `_build_tick_event_stream` */
  method BuildTickEventStream(chunks: seq<seq<Tick>>, from: Option<int>, to: Option<int>) returns (events: seq<Event>)
    ensures events ==
      SortEvents(Stream(Summaries(Finish(ReadTickChunks(NOTHING_READ, chunks, from, to, MINUTE), MINUTE))))
  {
    hide EventsOf;
    var minutes := Summarize(chunks, from, to);
    events := [];
    for k := 0 to |minutes|
      invariant events == Stream(minutes[..k])
    {
      assert minutes[..k + 1][..k] == minutes[..k];
      var more := MinuteEvents(minutes[k]);
      events := events + more;
    }
    assert minutes[..|minutes|] == minutes;
    events := SortEvents(events);
  }

  // ----- one minute, exactly -----

  /** The first of the highest ticks: it is there, no tick is higher, and all before it are lower. */
  lemma {:induction false} HighIsFirst(ticks: seq<Tick>) returns (i: nat)
    requires ticks != []
    ensures i < |ticks| && HighTick(ticks) == ticks[i]
    ensures forall j :: 0 <= j < |ticks| ==> ticks[j].price <= ticks[i].price
    ensures forall j :: 0 <= j < i ==> ticks[j].price < ticks[i].price
  {
    i := 0;
    if |ticks| > 1 {
      i := HighIsFirst(ticks[..|ticks| - 1]);
      if ticks[|ticks| - 1].price > ticks[i].price {
        i := |ticks| - 1;
      }
    }
  }

  lemma {:induction false} LowIsFirst(ticks: seq<Tick>) returns (i: nat)
    requires ticks != []
    ensures i < |ticks| && LowTick(ticks) == ticks[i]
    ensures forall j :: 0 <= j < |ticks| ==> ticks[j].price >= ticks[i].price
    ensures forall j :: 0 <= j < i ==> ticks[j].price > ticks[i].price
  {
    i := 0;
    if |ticks| > 1 {
      i := LowIsFirst(ticks[..|ticks| - 1]);
      if ticks[|ticks| - 1].price < ticks[i].price {
        i := |ticks| - 1;
      }
    }
  }

  ghost predicate InTime(points: seq<Point>) {
    forall j, k :: 0 <= j < k < |points| ==> points[j].time <= points[k].time
  }

  /** Some point of the list is at the same time and price. */
  ghost predicate StandsIn(p: Point, kept: seq<Point>) {
    exists k :: 0 <= k < |kept| && SameTick(p, kept[k])
  }

  /** What is dropped stands in what is kept. */
  lemma {:induction false} DedupLosesNothing(points: seq<Point>, j: nat)
    requires j < |points|
    ensures StandsIn(points[j], Deduped(points))
  {
    var init := points[..|points| - 1];
    var before, kept := Deduped(init), Deduped(points);
    if j < |init| {
      DedupLosesNothing(init, j);
      var k :| 0 <= k < |before| && SameTick(init[j], before[k]);
      assert kept[k] == before[k];
    } else {
      assert SameTick(points[j], kept[|kept| - 1]);
    }
  }

  lemma {:induction false} DedupInventsNothing(points: seq<Point>)
    ensures forall p :: p in Deduped(points) ==> p in points
  {
    if points != [] {
      DedupInventsNothing(points[..|points| - 1]);
    }
  }

  /** The ends stay, and no two neighbours are at the same time and price. */
  lemma {:induction false} DedupEnds(points: seq<Point>)
    requires points != []
    ensures var kept := Deduped(points);
      && kept != [] && SameTick(kept[0], points[0]) && SameTick(kept[|kept| - 1], points[|points| - 1])
      && (forall k :: 0 < k < |kept| ==> !SameTick(kept[k - 1], kept[k]))
  {
    var init := points[..|points| - 1];
    if init != [] {
      DedupEnds(init);
    } else {
      assert Deduped(init) == [];
    }
  }

  lemma {:induction false} DedupInTime(points: seq<Point>)
    requires InTime(points)
    ensures InTime(Deduped(points))
  {
    if points != [] {
      var init, p := points[..|points| - 1], points[|points| - 1];
      DedupInTime(init);
      DedupInventsNothing(init);
      var before := Deduped(init);
      forall k | 0 <= k < |before| ensures before[k].time <= p.time {
        assert before[k] in init;
      }
    }
  }

  lemma {:induction false} NumberedAt(points: seq<Point>, minute: int)
    ensures var events := Numbered(points, minute);
      |events| == |points| && forall k :: 0 <= k < |points| ==>
        events[k] == Event(points[k].time, k, points[k].price, points[k].corner, minute)
  {
    if points != [] {
      NumberedAt(points[..|points| - 1], minute);
    }
  }

  /** By time, and at one time by rank. */
  ghost predicate InOrder(events: seq<Event>) {
    forall j, k :: 0 <= j < k < |events| ==>
      events[j].time < events[k].time || (events[j].time == events[k].time && events[j].rank <= events[k].rank)
  }

  ghost predicate InMinute(events: seq<Event>, k: int) {
    forall j :: 0 <= j < |events| ==> Bucket(events[j].time, MINUTE) == k
  }

  /** The tick is what its corner says: the first or the last of its group, or the first of the highest or
      of the lowest. */
  ghost predicate Cornered(corner: Corner, group: seq<Tick>, i: nat)
    requires i < |group|
  {
    match corner
    case Open => i == 0
    case Close => i == |group| - 1
    case High => forall j :: 0 <= j < |group| ==> group[j].price < group[i].price || (group[j].price == group[i].price && i <= j)
    case Low => forall j :: 0 <= j < |group| ==> group[j].price > group[i].price || (group[j].price == group[i].price && i <= j)
  }

  /** An event is the tick of the group that its corner names, in its minute. */
  ghost predicate IsTick(e: Event, group: seq<Tick>) {
    exists i :: 0 <= i < |group| && Cornered(e.corner, group, i) && e.time == group[i].time && e.price == group[i].price
      && e.minute <= group[i].time < e.minute + MINUTE && e.minute % MINUTE == 0
  }

  /** The events of a group: ticks of it, in order, from its first to its last, whose prices bound
      all others of the group. */
  ghost predicate Shows(events: seq<Event>, group: seq<Tick>) {
    && events != [] && InOrder(events) && (forall k :: 0 <= k < |events| ==> events[k].rank == k)
    && (forall k :: 0 <= k < |events| ==> IsTick(events[k], group))
    && events[0].time == group[0].time && events[0].price == group[0].price
    && events[|events| - 1].time == group[|group| - 1].time && events[|events| - 1].price == group[|group| - 1].price
    && (forall i :: 0 <= i < |group| ==> exists k :: 0 <= k < |events| && group[i].price <= events[k].price)
    && (forall i :: 0 <= i < |group| ==> exists k :: 0 <= k < |events| && events[k].price <= group[i].price)
  }

  lemma GroupTimes(group: seq<Tick>, k: int)
    requires group != [] && Sorted(group)
    requires AllAt(group, MINUTE, k)
    ensures InTime(Points(SummaryOf(group)))
    ensures forall j :: 0 <= j < 4 ==> PointIsTick(Points(SummaryOf(group))[j], group)
  {
    hide Bucket, HighTick, LowTick, Cornered;
    var h := HighIsFirst(group);
    var l := LowIsFirst(group);
    assert group[0].time <= group[h].time <= group[|group| - 1].time;
    assert group[0].time <= group[l].time <= group[|group| - 1].time;
    CornersAre(group, h, l);
    assert PointIsTick(Point(Open, group[0].time, group[0].price), group);
    assert PointIsTick(Point(High, group[h].time, group[h].price), group);
    assert PointIsTick(Point(Low, group[l].time, group[l].price), group);
    assert PointIsTick(Point(Close, group[|group| - 1].time, group[|group| - 1].price), group);
  }

  lemma CornersAre(group: seq<Tick>, h: nat, l: nat)
    requires h < |group| && l < |group|
    requires forall j :: 0 <= j < |group| ==> group[j].price <= group[h].price
    requires forall j :: 0 <= j < h ==> group[j].price < group[h].price
    requires forall j :: 0 <= j < |group| ==> group[j].price >= group[l].price
    requires forall j :: 0 <= j < l ==> group[j].price > group[l].price
    ensures Cornered(Open, group, 0) && Cornered(Close, group, |group| - 1)
    ensures Cornered(High, group, h) && Cornered(Low, group, l)
  {}

  ghost predicate PointIsTick(p: Point, group: seq<Tick>) {
    exists i :: 0 <= i < |group| && Cornered(p.corner, group, i) && p.time == group[i].time && p.price == group[i].price
  }

  lemma MinuteOf(time: int)
    ensures var minute := Bucket(time, MINUTE); minute <= time < minute + MINUTE && minute % MINUTE == 0
  {}

  /** The extreme that was traded earlier comes first, the high when both were at one instant. */
  lemma EarlierExtremeFirst(group: seq<Tick>) returns (h: nat, l: nat)
    requires group != []
    ensures h < |group| && l < |group| && Cornered(High, group, h) && Cornered(Low, group, l)
    ensures var points := Points(SummaryOf(group));
      && |points| == 4 && points[0].corner == Open && points[3].corner == Close
      && (if group[h].time <= group[l].time then points[1].corner == High && points[2].corner == Low
          else points[1].corner == Low && points[2].corner == High)
  {
    h := HighIsFirst(group);
    l := LowIsFirst(group);
  }

  /** An extreme of the group is one of its points. */
  lemma ExtremesArePoints(group: seq<Tick>, i: nat)
    requires i < |group|
    ensures var points := Points(SummaryOf(group));
      && (exists j :: 0 <= j < 4 && points[j].price >= group[i].price)
      && (exists j :: 0 <= j < 4 && points[j].price <= group[i].price)
  {
    var h := HighIsFirst(group);
    var l := LowIsFirst(group);
    var points := Points(SummaryOf(group));
    var j := if points[1].corner == High then 1 else 2;
    assert points[j].price >= group[i].price && points[3 - j].price <= group[i].price;
  }

  /** An event of a minute is a tick of its group. */
  lemma EventIsTick(group: seq<Tick>, k: int, j: nat)
    requires group != [] && Sorted(group)
    requires AllAt(group, MINUTE, k)
    requires j < |EventsOf(SummaryOf(group))|
    ensures var e := EventsOf(SummaryOf(group))[j]; IsTick(e, group) && Bucket(e.time, MINUTE) == k
  {
    hide Points, Deduped, Numbered, HighTick, LowTick, Bucket;
    var m := SummaryOf(group);
    var points, kept := Points(m), Deduped(Points(m));
    FourPoints(m);
    GroupTimes(group, k);
    DedupInventsNothing(points);
    NumberedAt(kept, m.minute);
    assert kept[j] in points;
    var p :| 0 <= p < |points| && kept[j] == points[p];
    assert PointIsTick(points[p], group);
    var i :| 0 <= i < |group| && Cornered(points[p].corner, group, i)
      && points[p].time == group[i].time && points[p].price == group[i].price;
    MinuteOf(group[i].time);
    assert Bucket(group[i].time, MINUTE) == k == Bucket(group[0].time, MINUTE);
  }

  /** Prices of a group lie between those of its events. */
  lemma EventsBound(group: seq<Tick>, i: nat)
    requires i < |group|
    ensures var events := EventsOf(SummaryOf(group));
      && (exists k :: 0 <= k < |events| && group[i].price <= events[k].price)
      && (exists k :: 0 <= k < |events| && events[k].price <= group[i].price)
  {
    hide Points, Deduped, Numbered, HighTick, LowTick, Bucket;
    var m := SummaryOf(group);
    var points, kept, events := Points(m), Deduped(Points(m)), EventsOf(m);
    FourPoints(m);
    NumberedAt(kept, m.minute);
    ExtremesArePoints(group, i);
    var high :| 0 <= high < 4 && points[high].price >= group[i].price;
    var low :| 0 <= low < 4 && points[low].price <= group[i].price;
    DedupLosesNothing(points, high);
    DedupLosesNothing(points, low);
    var a :| 0 <= a < |kept| && SameTick(points[high], kept[a]);
    var b :| 0 <= b < |kept| && SameTick(points[low], kept[b]);
    assert group[i].price <= events[a].price && events[b].price <= group[i].price;
  }

  /** The events of a minute show its group. */
  lemma MinuteShown(group: seq<Tick>, k: int)
    requires group != [] && Sorted(group)
    requires AllAt(group, MINUTE, k)
    ensures Shows(EventsOf(SummaryOf(group)), group)
    ensures InMinute(EventsOf(SummaryOf(group)), k)
  {
    hide IsTick, EventsOf, SummaryOf, InOrder, Bucket;
    var events := EventsOf(SummaryOf(group));
    EventsFromEndToEnd(group, k);
    forall j | 0 <= j < |events| ensures IsTick(events[j], group) && Bucket(events[j].time, MINUTE) == k {
      EventIsTick(group, k, j);
    }
    forall i | 0 <= i < |group|
      ensures exists j :: 0 <= j < |events| && group[i].price <= events[j].price
      ensures exists j :: 0 <= j < |events| && events[j].price <= group[i].price
    {
      EventsBound(group, i);
    }
  }

  lemma EventsFromEndToEnd(group: seq<Tick>, k: int)
    requires group != [] && Sorted(group)
    requires AllAt(group, MINUTE, k)
    ensures var events := EventsOf(SummaryOf(group));
      && events != [] && InOrder(events) && (forall j :: 0 <= j < |events| ==> events[j].rank == j)
      && events[0].time == group[0].time && events[0].price == group[0].price
      && events[|events| - 1].time == group[|group| - 1].time && events[|events| - 1].price == group[|group| - 1].price
  {
    hide Points, Deduped, Numbered, HighTick, LowTick, Bucket;
    var m := SummaryOf(group);
    var points, kept := Points(m), Deduped(Points(m));
    FourPoints(m);
    GroupTimes(group, k);
    DedupEnds(points);
    DedupInTime(points);
    NumberedAt(kept, m.minute);
  }

  lemma FourPoints(m: Summary)
    ensures var points := Points(m);
      && |points| == 4
      && points[0].time == m.firstTs && points[0].price == m.open
      && points[3].time == m.lastTs && points[3].price == m.close
  {}

  // ----- the whole stream -----

  ghost predicate Ascending(keys: seq<int>) {
    forall j, k :: 0 <= j < k < |keys| ==> keys[j] < keys[k]
  }

  /** Of time-ordered ticks the buckets ascend, up to that of the last tick. */
  lemma {:induction false} KeysAscend(ticks: seq<Tick>)
    requires Sorted(ticks)
    ensures Ascending(Keys(ticks, MINUTE))
    ensures forall k :: k in Keys(ticks, MINUTE) ==> ticks != [] && k <= Bucket(ticks[|ticks| - 1].time, MINUTE)
  {
    hide Bucket;
    if ticks != [] {
      var init, last := ticks[..|ticks| - 1], ticks[|ticks| - 1];
      KeysAscend(init);
      if init != [] {
        BucketMonotone(init[|init| - 1].time, last.time, MINUTE);
      }
      var keys, k := Keys(init, MINUTE), Bucket(last.time, MINUTE);
      if k !in keys {
        forall j | 0 <= j < |keys| ensures keys[j] < k {
          assert keys[j] in keys;
        }
      }
    }
  }

  lemma {:induction false} GroupSorted(ticks: seq<Tick>, k: int)
    requires Sorted(ticks)
    ensures Sorted(Group(ticks, MINUTE, k))
    ensures forall i :: 0 <= i < |Group(ticks, MINUTE, k)| ==> Group(ticks, MINUTE, k)[i].time <= ticks[|ticks| - 1].time
  {
    hide Bucket;
    if ticks != [] {
      var init := ticks[..|ticks| - 1];
      GroupSorted(init, k);
      if init != [] {
        assert init[|init| - 1].time <= ticks[|ticks| - 1].time;
      }
    }
  }

  lemma OrderedAppend(a: seq<Event>, b: seq<Event>)
    requires InOrder(a) && InOrder(b)
    requires forall j, k :: 0 <= j < |a| && 0 <= k < |b| ==> a[j].time < b[k].time
    ensures InOrder(a + b)
  {}

  lemma LaterBucket(t: int, u: int)
    requires Bucket(t, MINUTE) < Bucket(u, MINUTE)
    ensures t < u
  {
    if t >= u {
      BucketMonotone(u, t, MINUTE);
    }
  }

  lemma {:induction false} StreamInOrder(ticks: seq<Tick>, keys: seq<int>)
    requires Sorted(ticks) && Ascending(keys)
    requires forall k :: k in keys ==> Group(ticks, MINUTE, k) != []
    ensures var events := Stream(Summaries(Groups(ticks, MINUTE, keys)));
      InOrder(events) && forall j :: 0 <= j < |events| ==> Bucket(events[j].time, MINUTE) in keys
  {
    hide Bucket, Group, EventsOf, Shows, SummaryOf;
    if keys != [] {
      var init, k := keys[..|keys| - 1], keys[|keys| - 1];
      var group := Group(ticks, MINUTE, k);
      assert k in keys;
      StreamInOrder(ticks, init);
      GroupSorted(ticks, k);
      GroupIsInBucket(ticks, MINUTE, k);
      MinuteShown(group, k);
      var before, more := Stream(Summaries(Groups(ticks, MINUTE, init))), EventsOf(SummaryOf(group));
      ShownInOrder(more, group);
      forall a, b | 0 <= a < |before| && 0 <= b < |more| ensures before[a].time < more[b].time {
        LaterBucket(before[a].time, more[b].time);
      }
      OrderedAppend(before, more);
      StreamSnoc(Summaries(Groups(ticks, MINUTE, init)), SummaryOf(group));
    }
  }

  lemma ShownInOrder(events: seq<Event>, group: seq<Tick>)
    requires group != [] && Shows(events, group)
    ensures InOrder(events)
  {}

  lemma StreamSnoc(minutes: seq<Summary>, m: Summary)
    ensures Stream(minutes + [m]) == Stream(minutes) + EventsOf(m)
  {
    hide EventsOf;
    assert (minutes + [m])[..|minutes|] == minutes;
  }

  /** Sorting changes nothing that is in order already. */
  lemma {:induction false} SortedStays(events: seq<Event>)
    requires InOrder(events)
    ensures SortEvents(events) == events
  {
    if events != [] {
      var init, last := events[..|events| - 1], events[|events| - 1];
      SortedStays(init);
      assert events == init + [last];
      if init != [] {
        assert NotAfter(init[|init| - 1], last);
      }
    }
  }

  lemma {:induction false} InsertAdds(events: seq<Event>, e: Event)
    ensures multiset(Insert(events, e)) == multiset(events) + multiset{e}
  {
    if events != [] && !NotAfter(events[|events| - 1], e) {
      InsertAdds(events[..|events| - 1], e);
      assert events == events[..|events| - 1] + [events[|events| - 1]];
    }
  }

  lemma OrderSnoc(events: seq<Event>, e: Event)
    requires InOrder(events) && forall x :: x in events ==> NotAfter(x, e)
    ensures InOrder(events + [e])
  {
    forall j | 0 <= j < |events| ensures NotAfter(events[j], e) {
      assert events[j] in events;
    }
  }

  lemma OrderInit(events: seq<Event>)
    requires InOrder(events) && events != []
    ensures InOrder(events[..|events| - 1])
    ensures forall x :: x in events ==> NotAfter(x, events[|events| - 1])
  {}

  lemma NotAfterTransitive(a: Event, b: Event, c: Event)
    ensures NotAfter(a, b) && NotAfter(b, c) ==> NotAfter(a, c)
    ensures NotAfter(a, b) || NotAfter(b, a)
  {}

  lemma {:induction false} InsertInOrder(events: seq<Event>, e: Event)
    requires InOrder(events)
    ensures InOrder(Insert(events, e))
  {
    hide InOrder, NotAfter;
    if events == [] {
      NothingInOrder();
      OrderSnoc([], e);
    } else {
      var init, last := events[..|events| - 1], events[|events| - 1];
      OrderInit(events);
      NotAfterTransitive(last, e, e);
      if !NotAfter(last, e) {
        InsertInOrder(init, e);
        var front := Insert(init, e);
        InsertAdds(init, e);
        forall x | x in front ensures NotAfter(x, last) {
          assert x in multiset(front);
          assert x == e || x in init;
          assert x in init ==> x in events;
        }
        OrderSnoc(front, last);
      } else {
        forall x | x in events ensures NotAfter(x, e) {
          NotAfterTransitive(x, last, e);
        }
        OrderSnoc(events, e);
      }
    }
  }

  lemma NothingInOrder()
    ensures InOrder([])
  {}

  /** The final sort orders any events by time and rank and keeps every one of them. */
  lemma {:induction false} SortSorts(events: seq<Event>)
    ensures InOrder(SortEvents(events)) && multiset(SortEvents(events)) == multiset(events)
  {
    hide Insert;
    if events != [] {
      var init, last := events[..|events| - 1], events[|events| - 1];
      SortSorts(init);
      InsertInOrder(SortEvents(init), last);
      InsertAdds(SortEvents(init), last);
      assert events == init + [last];
    }
  }

  /** For time-ordered ticks, however they are cut into chunks, the stream is that of one batch
      grouping of the ticks in range; it comes out in order, so that the final sort changes nothing;
      and every minute's events are ticks of it, from its first to its last, with its extremes. */
  lemma EventStreamExact(chunks: seq<seq<Tick>>, from: Option<int>, to: Option<int>)
    requires Sorted(Flat(chunks))
    ensures var ticks := Kept(Flat(chunks), from, to);
      var groups := GroupBy(ticks, MINUTE);
      && SortEvents(Stream(Summaries(Finish(ReadTickChunks(NOTHING_READ, chunks, from, to, MINUTE), MINUTE))))
           == Stream(Summaries(groups))
      && InOrder(Stream(Summaries(groups)))
      && (forall t :: Times(ticks, t) ==
            if (from.Some? && t.time < from.value) || (to.Some? && t.time > to.value) then 0 else Times(Flat(chunks), t))
      && forall j :: 0 <= j < |groups| ==> groups[j] != [] && Shows(EventsOf(SummaryOf(groups[j])), groups[j])
  {
    hide Flat, ReadTickChunks, Finish, Kept, Stream, Summaries, SortEvents, Groups, Group, Keys, Shows, EventsOf, SummaryOf,
         Bucket, InOrder;
    var ticks := Kept(Flat(chunks), from, to);
    var keys := Keys(ticks, MINUTE);
    TickChunksDoNotMatter(chunks, from, to, MINUTE);
    KeptSorted(Flat(chunks), from, to);
    forall t
      ensures Times(ticks, t) ==
        if (from.Some? && t.time < from.value) || (to.Some? && t.time > to.value) then 0 else Times(Flat(chunks), t)
    {
      KeptExactly(Flat(chunks), from, to, t);
    }
    KeysAscend(ticks);
    forall k | k in keys ensures Group(ticks, MINUTE, k) != [] {
      KeysHaveTicks(ticks, MINUTE, k);
    }
    StreamInOrder(ticks, keys);
    SortedStays(Stream(Summaries(GroupBy(ticks, MINUTE))));
    GroupsAt(ticks, keys);
    var groups := GroupBy(ticks, MINUTE);
    forall j | 0 <= j < |groups| ensures groups[j] != [] && Shows(EventsOf(SummaryOf(groups[j])), groups[j]) {
      assert keys[j] in keys;
      GroupSorted(ticks, keys[j]);
      GroupIsInBucket(ticks, MINUTE, keys[j]);
      MinuteShown(groups[j], keys[j]);
    }
  }

  lemma {:induction false} GroupsAt(ticks: seq<Tick>, keys: seq<int>)
    ensures |Groups(ticks, MINUTE, keys)| == |keys|
    ensures forall j :: 0 <= j < |keys| ==> Groups(ticks, MINUTE, keys)[j] == Group(ticks, MINUTE, keys[j])
  {
    hide Group;
    if keys != [] {
      GroupsAt(ticks, keys[..|keys| - 1]);
    }
  }
}
