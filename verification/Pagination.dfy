/** Newest-first paging over a buffer: what following `NextCursor` from page to page visits, and
    exactly when that is every matching entry once. */
module Pagination {
  import opened Options
  import opened Seqs
  import opened Text

  /** What a cursor records of an entry. */
  datatype Key = Key(time: int, id: string)

  /** `isBeforeCursor` */
  predicate Before(a: Key, b: Key) {
    a.time < b.time || (a.time == b.time && Less(a.id, b.id))
  }

  lemma BeforeIrreflexive(a: Key)
    ensures !Before(a, a)
  {
    LessIrreflexive(a.id);
  }

  lemma BeforeTransitive(a: Key, b: Key, c: Key)
    requires Before(a, b) && Before(b, c)
    ensures Before(a, c)
  {
    if a.time == b.time == c.time {
      LessTransitive(a.id, b.id, c.id);
    }
  }

  datatype Page<T> = Page(items: seq<T>, next: Option<Key>)

  predicate Beyond(cursor: Option<Key>, k: Key) {
    cursor.Some? ==> Before(k, cursor.value)
  }

  /** What a query can return: a matching entry beyond the cursor. */
  function Eligible<T>(key: T -> Key, matches: T -> bool, cursor: Option<Key>): T -> bool {
    x => Beyond(cursor, key(x)) && matches(x)
  }

  /** The eligible entries in buffer order, oldest first. */
  function Remaining<T>(items: seq<T>, key: T -> Key, matches: T -> bool, cursor: Option<Key>): seq<T> {
    Filter(Eligible(key, matches, cursor), items)
  }

  /** The newest `limit` of the eligible entries, newest first, with the key of the last one shown
      as the next cursor if there are more. */
  function PageOf<T>(remaining: seq<T>, key: T -> Key, limit: nat): Page<T>
    requires limit > 0
  {
    if |remaining| <= limit then Page(Reversed(remaining), None)
    else
      var cut := |remaining| - limit;
      Page(Reversed(remaining[cut..]), Some(key(remaining[cut])))
  }

  /** A page shows matching entries beyond the cursor, at most as many as the limit, and all of them when it
      has no next cursor. */
  lemma PageShows<T>(items: seq<T>, key: T -> Key, matches: T -> bool, cursor: Option<Key>, limit: nat)
    requires limit > 0
    ensures var page := PageOf(Remaining(items, key, matches, cursor), key, limit);
      && |page.items| <= limit
      && (forall x :: x in page.items ==> x in items && Beyond(cursor, key(x)) && matches(x))
      && (page.next.None? ==> forall x :: x in items && Beyond(cursor, key(x)) && matches(x) ==> x in page.items)
  {
    hide Filter, Beyond, Reversed;
    var remaining := Remaining(items, key, matches, cursor);
    FilterMembers(Eligible(key, matches, cursor), items);
    assert forall x :: x in remaining <==> x in items && Beyond(cursor, key(x)) && matches(x);
    var shown := if |remaining| <= limit then remaining else remaining[|remaining| - limit..];
    ReversedMembers(shown);
    forall x | x in shown ensures x in remaining {
      var k :| 0 <= k < |shown| && shown[k] == x;
      assert remaining[|remaining| - |shown| + k] == x;
    }
    var page := PageOf(remaining, key, limit);
    assert page.items == Reversed(shown);
    forall x | x in page.items ensures x in items && Beyond(cursor, key(x)) && matches(x) {
      var j :| 0 <= j < |page.items| && page.items[j] == x;
      ReversedAt(shown, j);
      assert x in shown && x in remaining;
    }
  }

  /** Following the cursor always makes progress, whatever the keys are. */
  lemma CursorAdvances<T>(items: seq<T>, key: T -> Key, matches: T -> bool, cursor: Option<Key>, cut: nat)
    requires cut < |Remaining(items, key, matches, cursor)|
    ensures var now := Remaining(items, key, matches, cursor);
      |Remaining(items, key, matches, Some(key(now[cut])))| < |now|
  {
    var i := PlaceOf(Eligible(key, matches, cursor), items, cut);
    FewerRemain(items, key, matches, cursor, items[i]);
  }

  lemma {:induction false} FewerRemain<T>(
      items: seq<T>, key: T -> Key, matches: T -> bool, cursor: Option<Key>, x: T)
    requires Beyond(cursor, key(x)) && matches(x)
    ensures var now, next := Remaining(items, key, matches, cursor), Remaining(items, key, matches, Some(key(x)));
      |next| <= |now| && (x in items ==> |next| < |now|)
  {
    if items != [] {
      var y := items[|items| - 1];
      FewerRemain(items[..|items| - 1], key, matches, cursor, x);
      if Before(key(y), key(x)) && cursor.Some? {
        BeforeTransitive(key(y), key(x), cursor.value);
      }
      BeforeIrreflexive(key(x));
    }
  }

  /** Everything a reader sees who starts at a cursor and follows `NextCursor` to the end. */
  function Walk<T>(items: seq<T>, key: T -> Key, matches: T -> bool, limit: nat, cursor: Option<Key>): seq<T>
    requires limit > 0
    decreases |Remaining(items, key, matches, cursor)|
  {
    var remaining := Remaining(items, key, matches, cursor);
    var page := PageOf(remaining, key, limit);
    if page.next.None? then page.items
    else
      CursorAdvances(items, key, matches, cursor, |remaining| - limit);
      page.items + Walk(items, key, matches, limit, page.next)
  }

  /** The keys of neighbours in the buffer increase strictly. */
  ghost predicate KeysIncrease<T>(items: seq<T>, key: T -> Key) {
    forall i :: 0 < i < |items| ==> Before(key(items[i - 1]), key(items[i]))
  }

  lemma {:induction false} KeysIncreaseFar<T>(items: seq<T>, key: T -> Key, i: nat, j: nat)
    requires KeysIncrease(items, key) && i < j < |items|
    ensures Before(key(items[i]), key(items[j]))
    decreases j
  {
    if i < j - 1 {
      KeysIncreaseFar(items, key, i, j - 1);
      BeforeTransitive(key(items[i]), key(items[j - 1]), key(items[j]));
    }
  }

  /** With increasing keys, a cursor on the newest entry not beyond it cuts the buffer in two. */
  lemma {:induction false} RemainingCuts<T>(
      items: seq<T>, key: T -> Key, matches: T -> bool, cursor: Option<Key>, cut: nat)
    requires KeysIncrease(items, key)
    requires cut < |Remaining(items, key, matches, cursor)|
    ensures var now := Remaining(items, key, matches, cursor);
      Remaining(items, key, matches, Some(key(now[cut]))) == now[..cut]
  {
    var now := Remaining(items, key, matches, cursor);
    var p, q := Eligible(key, matches, cursor), Eligible(key, matches, Some(key(now[cut])));
    var i := PlaceOf(p, items, cut);
    OlderStay(items, key, matches, cursor, i);
    NewerGo(items, key, matches, i);
    hide Eligible;
    FilterCongruent(p, q, items[..i]);
    FilterNone(q, items[i..]);
    FilterAppend(q, items[..i], items[i..]);
    assert items == items[..i] + items[i..];
  }

  lemma OlderStay<T>(items: seq<T>, key: T -> Key, matches: T -> bool, cursor: Option<Key>, i: nat)
    requires KeysIncrease(items, key) && i < |items| && Beyond(cursor, key(items[i]))
    ensures forall k :: 0 <= k < i ==>
      Eligible(key, matches, cursor)(items[k]) == Eligible(key, matches, Some(key(items[i])))(items[k])
  {
    forall k | 0 <= k < i
      ensures Beyond(cursor, key(items[k])) && Before(key(items[k]), key(items[i]))
    {
      KeysIncreaseFar(items, key, k, i);
      if cursor.Some? {
        BeforeTransitive(key(items[k]), key(items[i]), cursor.value);
      }
    }
  }

  lemma NewerGo<T>(items: seq<T>, key: T -> Key, matches: T -> bool, i: nat)
    requires KeysIncrease(items, key) && i < |items|
    ensures forall k :: i <= k < |items| ==> !Eligible(key, matches, Some(key(items[i])))(items[k])
  {
    forall k | i <= k < |items| ensures !Before(key(items[k]), key(items[i])) {
      BeforeIrreflexive(key(items[i]));
      if i < k && Before(key(items[k]), key(items[i])) {
        KeysIncreaseFar(items, key, i, k);
        BeforeTransitive(key(items[i]), key(items[k]), key(items[i]));
      }
    }
  }

  /** Where in `s` the `cut`-th element that satisfies `p` stands. */
  lemma {:induction false} PlaceOf<T>(p: T -> bool, s: seq<T>, cut: nat) returns (i: nat)
    requires cut < |Filter(p, s)|
    ensures i < |s| && p(s[i]) && s[i] == Filter(p, s)[cut] && Filter(p, s[..i]) == Filter(p, s)[..cut]
  {
    var init := s[..|s| - 1];
    if cut < |Filter(p, init)| {
      i := PlaceOf(p, init, cut);
      assert init[..i] == s[..i];
    } else {
      i := |s| - 1;
    }
  }

  /** Increasing keys are enough: for every filter and limit the walk visits each matching entry
      exactly once, newest first. */
  lemma {:induction false} WalkFrom<T>(
      items: seq<T>, key: T -> Key, matches: T -> bool, limit: nat, cursor: Option<Key>)
    requires limit > 0 && KeysIncrease(items, key)
    ensures Walk(items, key, matches, limit, cursor) == Reversed(Remaining(items, key, matches, cursor))
    decreases |Remaining(items, key, matches, cursor)|
  {
    var now := Remaining(items, key, matches, cursor);
    if |now| > limit {
      var cut := |now| - limit;
      CursorAdvances(items, key, matches, cursor, cut);
      RemainingCuts(items, key, matches, cursor, cut);
      WalkFrom(items, key, matches, limit, Some(key(now[cut])));
      hide Reversed, Remaining;
      ReversedAppend(now[..cut], now[cut..]);
      assert now == now[..cut] + now[cut..];
    }
  }

  /** The next cursor is there exactly when matching entries older than the page remain. */
  lemma NextCursorExact<T>(items: seq<T>, key: T -> Key, matches: T -> bool, limit: nat, cursor: Option<Key>)
    requires limit > 0 && KeysIncrease(items, key)
    ensures var now := Remaining(items, key, matches, cursor);
      var page := PageOf(now, key, limit);
      && (page.next.Some? <==> |page.items| < |now|)
      && (page.next.Some? ==> Reversed(page.items) == now[|now| - limit..])
      && (page.next.Some? ==> Remaining(items, key, matches, page.next) == now[..|now| - limit])
  {
    var now := Remaining(items, key, matches, cursor);
    hide Remaining, Reversed;
    if |now| > limit {
      ReversedTwice(now[|now| - limit..]);
      RemainingCuts(items, key, matches, cursor, |now| - limit);
    }
  }

  function All<T>(): T -> bool { x => true }

  /** In a walk with one entry per page, each entry's key is before the one shown just before it. */
  lemma {:induction false} SingleStepsDescend<T>(
      items: seq<T>, key: T -> Key, matches: T -> bool, cursor: Option<Key>)
    ensures var w := Walk(items, key, matches, 1, cursor);
      && (w != [] ==> Beyond(cursor, key(w[0])))
      && forall i :: 0 < i < |w| ==> Before(key(w[i]), key(w[i - 1]))
    decreases |Remaining(items, key, matches, cursor)|
  {
    var now := Remaining(items, key, matches, cursor);
    FilterKeeps(Eligible(key, matches, cursor), items);
    assert forall k :: 0 <= k < |now| ==> Beyond(cursor, key(now[k]));
    hide Remaining;
    if |now| > 1 {
      var x := now[|now| - 1];
      ReversedOne(x);
      assert now[|now| - 1..] == [x];
      CursorAdvances(items, key, matches, cursor, |now| - 1);
      SingleStepsDescend(items, key, matches, Some(key(x)));
      assert Walk(items, key, matches, 1, cursor) == [x] + Walk(items, key, matches, 1, Some(key(x)));
    } else if |now| == 1 {
      ReversedOne(now[0]);
      assert now == [now[0]];
    }
  }

  /** Walking pages is complete for every filter and limit exactly when the keys increase strictly
      in append order; one unfiltered walk with one entry per page already tells. */
  lemma {:induction false} WalkExact<T>(items: seq<T>, key: T -> Key)
    ensures KeysIncrease(items, key) ==>
      forall matches, limit: nat :: limit > 0 ==>
        Walk(items, key, matches, limit, None) == Reversed(Filter(matches, items))
    ensures Walk(items, key, All<T>(), 1, None) == Reversed(items) ==> KeysIncrease(items, key)
  {
    if KeysIncrease(items, key) {
      forall matches: T -> bool, limit: nat | limit > 0
        ensures Walk(items, key, matches, limit, None) == Reversed(Filter(matches, items))
      {
        WalkFrom(items, key, matches, limit, None);
        FilterCongruent(Eligible(key, matches, None), matches, items);
      }
    }
    var w := Walk(items, key, All<T>(), 1, None);
    if w == Reversed(items) {
      SingleStepsDescend(items, key, All<T>(), None);
      forall i | 0 < i < |items| ensures Before(key(items[i - 1]), key(items[i])) {
        ReversedAt(items, |items| - i);
        ReversedAt(items, |items| - i - 1);
      }
    }
  }

  lemma {:induction false} LessAfterPrefix(prefix: string, a: string, b: string)
    ensures Less(prefix + a, prefix + b) <==> Less(a, b)
  {
    if prefix == "" {
      assert prefix + a == a && prefix + b == b;
    } else {
      LessAfterPrefix(prefix[1..], a, b);
      assert (prefix + a)[1..] == prefix[1..] + a && (prefix + b)[1..] == prefix[1..] + b;
    }
  }

  /** An older entry whose key is not before its newer neighbour's is never shown when the page
      ends between them. */
  lemma OutOfOrderIsSkipped<T>(older: T, newer: T, key: T -> Key)
    requires !Before(key(older), key(newer))
    ensures Walk([older, newer], key, All<T>(), 1, None) == [newer]
  {
    var items := [older, newer];
    BeforeIrreflexive(key(newer));
    var all, none := Eligible(key, All<T>(), None), Eligible(key, All<T>(), Some(key(newer)));
    assert all(older) && all(newer) && !none(older) && !none(newer);
    FilterAll(all, items);
    FilterNone(none, items);
    ReversedOne(newer);
    assert items[1..] == [newer];
  }

  lemma LessAtSameLength(a: string, b: string, x: string, y: string)
    requires |a| == |b| && Less(a, b)
    ensures Less(a + x, b + y)
  {
    if a[0] == b[0] {
      LessAtSameLength(a[1..], b[1..], x, y);
      assert (a + x)[1..] == a[1..] + x && (b + y)[1..] == b[1..] + y;
    }
  }

  /** Consecutive numerals of different lengths are 9... and 1.... */
  lemma {:induction false} LongerNumeral(n: nat)
    requires n > 0
    ensures |Decimal(n)| <= |Decimal(n + 1)|
    ensures |Decimal(n)| < |Decimal(n + 1)| ==> Decimal(n)[0] == '9' && Decimal(n + 1)[0] == '1'
  {
    if n >= 10 {
      if n % 10 != 9 {
        assert (n + 1) / 10 == n / 10;
      } else {
        assert (n + 1) / 10 == n / 10 + 1;
        LongerNumeral(n / 10);
      }
    } else if n == 9 {
      assert Decimal(10) == Decimal(1) + [Digit(0)];
    }
  }

  lemma {:induction false} NumeralsInOrder(n: nat)
    requires n > 0 && |Decimal(n)| == |Decimal(n + 1)|
    ensures Less(Decimal(n), Decimal(n + 1))
  {
    if n >= 10 {
      if n % 10 != 9 {
        assert (n + 1) / 10 == n / 10;
        LessAfterPrefix(Decimal(n / 10), [Digit(n % 10)], [Digit(n % 10 + 1)]);
      } else {
        assert (n + 1) / 10 == n / 10 + 1;
        NumeralsInOrder(n / 10);
        LessAtSameLength(Decimal(n / 10), Decimal(n / 10 + 1), [Digit(9)], [Digit(0)]);
      }
    }
  }

  /** Two entries of one instant with consecutive generated IDs page in order exactly when their
      numbers have the same length. */
  lemma GeneratedNeighbours(prefix: string, n: nat, time: int)
    requires n > 0
    ensures Before(Key(time, prefix + Decimal(n)), Key(time, prefix + Decimal(n + 1)))
      <==> |Decimal(n)| == |Decimal(n + 1)|
  {
    LessAfterPrefix(prefix, Decimal(n), Decimal(n + 1));
    LongerNumeral(n);
    if |Decimal(n)| == |Decimal(n + 1)| {
      NumeralsInOrder(n);
    }
  }

  /** So with one entry per page the entry numbered 10 hides the one numbered 9. */
  lemma TenHidesNine(prefix: string, time: int)
    ensures var nine, ten := Key(time, prefix + Decimal(9)), Key(time, prefix + Decimal(10));
      Walk([nine, ten], k => k, All<Key>(), 1, None) == [ten]
  {
    GeneratedNeighbours(prefix, 9, time);
    assert Decimal(10) == Decimal(1) + [Digit(0)];
    OutOfOrderIsSkipped(Key(time, prefix + Decimal(9)), Key(time, prefix + Decimal(10)), k => k);
  }
}
