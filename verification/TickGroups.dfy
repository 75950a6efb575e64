/** Grouping ticks into time buckets: in one batch, or chunk by chunk with the last bucket of each
    chunk carried over to the next. */
module TickGroups {

  datatype Tick = Tick(time: int, price: real, qty: real)

  function Bucket(time: int, width: int): int
    requires width > 0
  {
    time / width * width
  }

  /** The buckets of the ticks, in order of first appearance. */
  function Keys(ticks: seq<Tick>, width: int): seq<int>
    requires width > 0
  {
    if ticks == [] then []
    else
      var keys, k := Keys(ticks[..|ticks| - 1], width), Bucket(ticks[|ticks| - 1].time, width);
      if k in keys then keys else keys + [k]
  }

  /** The ticks of one bucket, in order. */
  function Group(ticks: seq<Tick>, width: int, k: int): seq<Tick>
    requires width > 0
  {
    if ticks == [] then []
    else
      var last := ticks[|ticks| - 1];
      Group(ticks[..|ticks| - 1], width, k) + if Bucket(last.time, width) == k then [last] else []
  }

  function Groups(ticks: seq<Tick>, width: int, keys: seq<int>): seq<seq<Tick>>
    requires width > 0
  {
    if keys == [] then [] else Groups(ticks, width, keys[..|keys| - 1]) + [Group(ticks, width, keys[|keys| - 1])]
  }

  /** The batch grouping: one group per bucket. */
  function GroupBy(ticks: seq<Tick>, width: int): seq<seq<Tick>>
    requires width > 0
  {
    Groups(ticks, width, Keys(ticks, width))
  }

  // ----- keys and groups -----

  lemma {:induction false} KeysHaveTicks(ticks: seq<Tick>, width: int, k: int)
    requires width > 0
    ensures k in Keys(ticks, width) <==> Group(ticks, width, k) != []
  {
    hide Bucket;
    if ticks != [] {
      KeysHaveTicks(ticks[..|ticks| - 1], width, k);
    }
  }

  lemma {:induction false} GroupIsInBucket(ticks: seq<Tick>, width: int, k: int)
    requires width > 0
    ensures forall i :: 0 <= i < |Group(ticks, width, k)| ==> Bucket(Group(ticks, width, k)[i].time, width) == k
  {
    hide Bucket;
    if ticks != [] {
      GroupIsInBucket(ticks[..|ticks| - 1], width, k);
    }
  }

  // ----- groupings of disjoint parts -----

  ghost predicate InBuckets(ticks: seq<Tick>, width: int, low: int, high: int)
    requires width > 0
  {
    forall i :: 0 <= i < |ticks| ==> low <= Bucket(ticks[i].time, width) < high
  }

  lemma {:induction false} KeysInBuckets(ticks: seq<Tick>, width: int, low: int, high: int)
    requires width > 0 && InBuckets(ticks, width, low, high)
    ensures forall k :: k in Keys(ticks, width) ==> low <= k < high
  {
    hide Bucket;
    if ticks != [] {
      KeysInBuckets(ticks[..|ticks| - 1], width, low, high);
    }
  }

  lemma {:induction false} KeysApart(a: seq<Tick>, b: seq<Tick>, width: int, low: int, mid: int, high: int)
    requires width > 0 && InBuckets(a, width, low, mid) && InBuckets(b, width, mid, high)
    ensures Keys(a + b, width) == Keys(a, width) + Keys(b, width)
  {
    hide Bucket;
    if b == [] {
      assert a + b == a;
    } else {
      var init := b[..|b| - 1];
      assert (a + b)[..|a + b| - 1] == a + init;
      KeysApart(a, init, width, low, mid, high);
      KeysInBuckets(a, width, low, mid);
      var k := Bucket(b[|b| - 1].time, width);
      assert k in Keys(a, width) + Keys(init, width) <==> k in Keys(init, width);
    }
  }

  lemma {:induction false} GroupAppend(a: seq<Tick>, b: seq<Tick>, width: int, k: int)
    requires width > 0
    ensures Group(a + b, width, k) == Group(a, width, k) + Group(b, width, k)
  {
    hide Bucket;
    if b == [] {
      assert a + b == a;
    } else {
      assert (a + b)[..|a + b| - 1] == a + b[..|b| - 1];
      GroupAppend(a, b[..|b| - 1], width, k);
    }
  }

  lemma {:induction false} GroupOutside(ticks: seq<Tick>, width: int, k: int)
    requires width > 0 && forall i :: 0 <= i < |ticks| ==> Bucket(ticks[i].time, width) != k
    ensures Group(ticks, width, k) == []
  {
    hide Bucket;
    if ticks != [] {
      GroupOutside(ticks[..|ticks| - 1], width, k);
    }
  }

  lemma {:induction false} GroupsOfPart(
      a: seq<Tick>, b: seq<Tick>, width: int, keys: seq<int>, inFirst: bool)
    requires width > 0
    requires forall j :: 0 <= j < |keys| ==> Group(if inFirst then b else a, width, keys[j]) == []
    ensures Groups(a + b, width, keys) == Groups(if inFirst then a else b, width, keys)
  {
    hide Group;
    if keys != [] {
      var k := keys[|keys| - 1];
      GroupsOfPart(a, b, width, keys[..|keys| - 1], inFirst);
      GroupAppend(a, b, width, k);
      assert Group(a, width, k) + [] == Group(a, width, k) && [] + Group(b, width, k) == Group(b, width, k);
    }
  }

  lemma {:induction false} GroupsAppend(ticks: seq<Tick>, width: int, a: seq<int>, b: seq<int>)
    requires width > 0
    ensures Groups(ticks, width, a + b) == Groups(ticks, width, a) + Groups(ticks, width, b)
  {
    hide Group;
    if b == [] {
      assert a + b == a;
    } else {
      assert (a + b)[..|a + b| - 1] == a + b[..|b| - 1];
      GroupsAppend(ticks, width, a, b[..|b| - 1]);
    }
  }

  /** Parts without a common bucket are grouped independently. */
  lemma GroupByApart(a: seq<Tick>, b: seq<Tick>, width: int, low: int, mid: int, high: int)
    requires width > 0 && InBuckets(a, width, low, mid) && InBuckets(b, width, mid, high)
    ensures GroupBy(a + b, width) == GroupBy(a, width) + GroupBy(b, width)
  {
    hide Bucket, Group, Groups, Keys;
    KeysApart(a, b, width, low, mid, high);
    KeysInBuckets(a, width, low, mid);
    KeysInBuckets(b, width, mid, high);
    GroupsAppend(a + b, width, Keys(a, width), Keys(b, width));
    forall j | 0 <= j < |Keys(a, width)| ensures Group(b, width, Keys(a, width)[j]) == [] {
      assert Keys(a, width)[j] in Keys(a, width);
      GroupOutside(b, width, Keys(a, width)[j]);
    }
    forall j | 0 <= j < |Keys(b, width)| ensures Group(a, width, Keys(b, width)[j]) == [] {
      assert Keys(b, width)[j] in Keys(b, width);
      GroupOutside(a, width, Keys(b, width)[j]);
    }
    GroupsOfPart(a, b, width, Keys(a, width), true);
    GroupsOfPart(a, b, width, Keys(b, width), false);
  }

  // ----- time order -----

  ghost predicate Sorted(ticks: seq<Tick>) {
    forall i, j :: 0 <= i < j < |ticks| ==> ticks[i].time <= ticks[j].time
  }

  lemma BucketMonotone(t: int, u: int, width: int)
    requires width > 0 && t <= u
    ensures Bucket(t, width) <= Bucket(u, width)
  {
    DivMonotone(t, u, width);
    MulMonotone(t / width, u / width, width);
  }

  lemma DivMonotone(t: int, u: int, width: int)
    requires width > 0 && t <= u
    ensures t / width <= u / width
  {
    var a, b := t / width, u / width;
    if a > b {
      MulMonotone(b + 1, a, width);
    }
  }

  lemma MulMonotone(a: int, b: int, width: int)
    requires width > 0 && a <= b
    ensures a * width <= b * width
  {}

  /** The ticks whose bucket is, or is not, the given one. */
  function Those(ticks: seq<Tick>, width: int, k: int, same: bool): seq<Tick>
    requires width > 0
  {
    if ticks == [] then []
    else
      var last := ticks[|ticks| - 1];
      Those(ticks[..|ticks| - 1], width, k, same) + if (Bucket(last.time, width) == k) == same then [last] else []
  }

  /** In time order, the ticks of the last bucket come last. */
  lemma {:induction false} LastBucketIsSuffix(ticks: seq<Tick>, width: int, k: int)
    requires width > 0 && Sorted(ticks)
    requires forall i :: 0 <= i < |ticks| ==> Bucket(ticks[i].time, width) <= k
    ensures var before, last := Those(ticks, width, k, false), Those(ticks, width, k, true);
      && ticks == before + last
      && (forall i :: 0 <= i < |before| ==> Bucket(before[i].time, width) < k)
      && (forall i :: 0 <= i < |last| ==> Bucket(last[i].time, width) == k)
  {
    hide Bucket;
    if ticks != [] {
      var init, t := ticks[..|ticks| - 1], ticks[|ticks| - 1];
      assert ticks == init + [t];
      if Bucket(t.time, width) < k {
        forall i | 0 <= i < |ticks| ensures Bucket(ticks[i].time, width) < k {
          BucketMonotone(ticks[i].time, t.time, width);
        }
        AllBefore(ticks, width, k);
      } else {
        LastBucketIsSuffix(init, width, k);
        ThoseSnoc(init, t, width, k);
      }
    }
  }

  lemma ThoseSnoc(ticks: seq<Tick>, t: Tick, width: int, k: int)
    requires width > 0 && Bucket(t.time, width) == k
    ensures Those(ticks + [t], width, k, true) == Those(ticks, width, k, true) + [t]
    ensures Those(ticks + [t], width, k, false) == Those(ticks, width, k, false)
  {
    hide Bucket;
    assert (ticks + [t])[..|ticks|] == ticks;
  }

  lemma {:induction false} AllBefore(ticks: seq<Tick>, width: int, k: int)
    requires width > 0 && forall i :: 0 <= i < |ticks| ==> Bucket(ticks[i].time, width) < k
    ensures Those(ticks, width, k, true) == [] && Those(ticks, width, k, false) == ticks
  {
    hide Bucket;
    if ticks != [] {
      AllBefore(ticks[..|ticks| - 1], width, k);
      assert ticks == ticks[..|ticks| - 1] + [ticks[|ticks| - 1]];
    }
  }
}
