/** The replay refines a stack of unit lots: when every quantity is a whole number of lots, an
    open pushes that many copies of its order ID and an exit pops that many, nothing more. */
module ReplayUnitLots {
  import opened Options
  import opened Orders
  import opened Replay
  import opened Seqs
  import opened ReplayConservation

  // ----- quantities in lots -----

  /** `n` lots. */
  function Times(n: nat, lot: real): real {
    if n == 0 then 0.0 else Times(n - 1, lot) + lot
  }

  lemma {:induction false} TimesAdd(a: nat, b: nat, lot: real)
    ensures Times(a + b, lot) == Times(a, lot) + Times(b, lot)
  {
    if b > 0 {
      TimesAdd(a, b - 1, lot);
    }
  }

  lemma {:induction false} TimesAtLeast(n: nat, lot: real)
    requires lot > 0.0
    ensures if n == 0 then Times(n, lot) == 0.0 else Times(n, lot) >= lot
  {
    if n > 0 {
      TimesAtLeast(n - 1, lot);
    }
  }

  /** Comparing quantities is comparing lots. */
  lemma TimesCompare(a: nat, b: nat, lot: real)
    requires lot > 0.0
    ensures a <= b ==> Times(b, lot) - Times(a, lot) == Times(b - a, lot)
    ensures a < b ==> Times(b, lot) - Times(a, lot) >= lot
  {
    if a <= b {
      TimesAdd(b - a, a, lot);
      TimesAtLeast(b - a, lot);
    }
  }

  /** A positive whole number of lots. */
  ghost predicate IsLots(x: real, lot: real) {
    exists n: nat :: n > 0 && x == Times(n, lot)
  }

  ghost function Units(x: real, lot: real): (n: nat)
    requires IsLots(x, lot)
    ensures n > 0 && x == Times(n, lot)
  {
    var n: nat :| n > 0 && x == Times(n, lot); n
  }

  lemma UnitsOfTimes(n: nat, lot: real)
    requires lot > 0.0 && n > 0
    ensures IsLots(Times(n, lot), lot) && Units(Times(n, lot), lot) == n
  {
    var m := Units(Times(n, lot), lot);
    TimesCompare(m, n, lot);
    TimesCompare(n, m, lot);
  }

  // ----- a book as a stack of lots -----

  function Repeat(id: string, n: nat): (r: seq<string>)
    ensures |r| == n && forall k :: 0 <= k < n ==> r[k] == id
  {
    seq(n, _ => id)
  }

  ghost predicate LotBook(book: seq<Entry>, lot: real) {
    forall k :: 0 <= k < |book| ==> IsLots(book[k].remaining, lot)
  }

  /** The lots of a book from oldest to newest, each named by the order that brought it. */
  ghost function Expand(book: seq<Entry>, lot: real): seq<string>
    requires LotBook(book, lot)
  {
    if book == [] then []
    else
      var top := book[|book| - 1];
      Expand(book[..|book| - 1], lot) + Repeat(top.orderID, Units(top.remaining, lot))
  }

  lemma ExpandSnoc(below: seq<Entry>, top: Entry, lot: real)
    requires LotBook(below, lot) && IsLots(top.remaining, lot)
    ensures LotBook(below + [top], lot)
    ensures Expand(below + [top], lot) == Expand(below, lot) + Repeat(top.orderID, Units(top.remaining, lot))
  {
    assert (below + [top])[..|below|] == below;
  }

  // ----- one exit -----

  function MinNat(a: nat, b: nat): nat { if a <= b then a else b }

  /** The loop on a book whose newest entry holds `u` lots. */
  lemma ConsumeTop(below: seq<Entry>, top: Entry, u: nat, n: nat, lot: real)
    requires lot > TOLERANCE && u > 0 && n > 0 && top.remaining == Times(u, lot)
    ensures Consume(below + [top], Times(n, lot)) ==
      if u <= n then Prefixed([top], Consume(below, Times(n - u, lot)))
      else Consumption([top.(remaining := Times(n, lot))], below + [top.(remaining := Times(u - n, lot))], 0.0)
  {
    var book := below + [top];
    assert book[..|book| - 1] == below && book[|book| - 1] == top;
    TimesAtLeast(n, lot);
    TimesAtLeast(u, lot);
    TimesCompare(u, n, lot);
    TimesCompare(n, u, lot);
    assert top.(remaining := Times(u, lot)) == top;
  }

  /** `c` is what popping the newest `n` of `lots`, or all of them, leaves: the rest of the lots
      stays, and what was taken, put back in arrival order, is exactly the popped lots. */
  ghost predicate PopsLots(c: Consumption, lots: seq<string>, n: nat, lot: real) {
    var kept := |lots| - MinNat(n, |lots|);
    && LotBook(c.book, lot) && Expand(c.book, lot) == lots[..kept]
    && LotBook(Reversed(c.consumed), lot) && Expand(Reversed(c.consumed), lot) == lots[kept..]
  }

  lemma PopsWholeEntry(c: Consumption, lots: seq<string>, n: nat, top: Entry, lot: real)
    requires PopsLots(c, lots, n, lot) && IsLots(top.remaining, lot)
    ensures var u := Units(top.remaining, lot);
      PopsLots(Prefixed([top], c), lots + Repeat(top.orderID, u), n + u, lot)
  {
    hide Expand, LotBook, Reversed, IsLots;
    var u := Units(top.remaining, lot);
    ReversedCons(top, c.consumed);
    ExpandSnoc(Reversed(c.consumed), top, lot);
    var kept := |lots| - MinNat(n, |lots|);
    assert (lots + Repeat(top.orderID, u))[kept..] == lots[kept..] + Repeat(top.orderID, u);
  }

  lemma PopsPartOfEntry(below: seq<Entry>, top: Entry, u: nat, n: nat, lot: real)
    requires lot > 0.0 && LotBook(below, lot) && 0 < n < u
    ensures PopsLots(
      Consumption([top.(remaining := Times(n, lot))], below + [top.(remaining := Times(u - n, lot))], 0.0),
      Expand(below, lot) + Repeat(top.orderID, u), n, lot)
  {
    hide Expand, LotBook, Reversed, IsLots, Times;
    var taken, left := top.(remaining := Times(n, lot)), top.(remaining := Times(u - n, lot));
    UnitsOfTimes(n, lot);
    UnitsOfTimes(u - n, lot);
    ExpandEmpty(lot);
    ExpandSnoc([], taken, lot);
    ExpandSnoc(below, left, lot);
    ReversedOne(taken);
    assert [] + [taken] == [taken];
    assert Repeat(top.orderID, u) == Repeat(top.orderID, u - n) + Repeat(top.orderID, n);
  }

  lemma ExpandEmpty(lot: real)
    ensures LotBook([], lot) && Expand([], lot) == []
  {}

  /** An exit of `n` lots pops the newest `n` lots. */
  lemma {:induction false} ConsumePopsLots(book: seq<Entry>, n: nat, lot: real)
    requires lot > TOLERANCE && LotBook(book, lot)
    ensures PopsLots(Consume(book, Times(n, lot)), Expand(book, lot), n, lot)
    decreases |book|
  {
    if n == 0 || book == [] {
      ConsumeNothing(book, n, lot);
    } else {
      var top, below := book[|book| - 1], book[..|book| - 1];
      assert book == below + [top];
      var u := Units(top.remaining, lot);
      hide Expand, Consume, PopsLots, Times, Repeat;
      ConsumeTop(below, top, u, n, lot);
      ExpandSnoc(below, top, lot);
      if u <= n {
        ConsumePopsLots(below, n - u, lot);
        PopsWholeEntry(Consume(below, Times(n - u, lot)), Expand(below, lot), n - u, top, lot);
      } else {
        PopsPartOfEntry(below, top, u, n, lot);
      }
    }
  }

  lemma ConsumeNothing(book: seq<Entry>, n: nat, lot: real)
    requires LotBook(book, lot) && (n == 0 || book == [])
    ensures PopsLots(Consume(book, Times(n, lot)), Expand(book, lot), n, lot)
  {
    assert Consume(book, Times(n, lot)) == Consumption([], book, Times(n, lot));
  }

  ghost predicate IsSuffix(part: seq<string>, whole: seq<string>) {
    |part| <= |whole| && part == whole[|whole| - |part|..]
  }

  lemma IsSuffixSnoc(part: seq<string>, whole: seq<string>, x: string)
    requires IsSuffix(part, whole)
    ensures IsSuffix(part + [x], whole + [x])
  {}

  lemma IDsSnoc(below: seq<Entry>, top: Entry)
    ensures IDs(below + [top]) == IDs(below) + [top.orderID]
  {}

  /** What the loop takes from a book without dust comes from its newest entries. */
  lemma {:induction false} ConsumedAreNewest(book: seq<Entry>, rest: real)
    requires forall k :: 0 <= k < |book| ==> Available(book[k]) > TOLERANCE
    ensures IsSuffix(IDs(Reversed(Consume(book, rest).consumed)), IDs(book))
    decreases |book|
  {
    hide Reversed, IDs, IsSuffix, Consume;
    if rest <= TOLERANCE || book == [] {
      ConsumedUnfold(book, rest);
      NothingIsSuffix(book);
    } else {
      var top, below := book[|book| - 1], book[..|book| - 1];
      assert book == below + [top];
      ConsumedUnfold(book, rest);
      var taken, more := top.(remaining := Min(Available(top), rest)), ConsumedBelow(book, rest);
      if Available(top) - taken.remaining <= TOLERANCE {
        ConsumedAreNewest(below, rest - taken.remaining);
      } else {
        NothingIsSuffix(below);
      }
      ReversedCons(taken, more);
      IDsSnoc(Reversed(more), taken);
      IDsSnoc(below, top);
      IsSuffixSnoc(IDs(Reversed(more)), IDs(below), top.orderID);
    }
  }

  /** What the loop takes beneath a top entry that is not dust. */
  ghost function ConsumedBelow(book: seq<Entry>, rest: real): seq<Entry>
    requires book != []
  {
    var top, below := book[|book| - 1], book[..|book| - 1];
    var take := Min(Available(top), rest);
    if Available(top) - take <= TOLERANCE then Consume(below, rest - take).consumed else []
  }

  lemma ConsumedUnfold(book: seq<Entry>, rest: real)
    requires book != [] ==> Available(book[|book| - 1]) > TOLERANCE
    ensures Consume(book, rest).consumed ==
      if rest <= TOLERANCE || book == [] then []
      else [book[|book| - 1].(remaining := Min(Available(book[|book| - 1]), rest))] + ConsumedBelow(book, rest)
  {}

  lemma NothingIsSuffix(book: seq<Entry>)
    ensures IsSuffix(IDs(Reversed([])), IDs(book))
  {}

  // ----- chains -----

  /** Collapse neighbouring equal names: the owners of a stretch of lots, in order. */
  function Owners(lots: seq<string>): seq<string> {
    if |lots| <= 1 then lots
    else
      var last := lots[|lots| - 1];
      Owners(lots[..|lots| - 1]) + if lots[|lots| - 2] == last then [] else [last]
  }

  lemma {:induction false} OwnersRepeat(lots: seq<string>, id: string, n: nat)
    requires n > 0 && (lots == [] || lots[|lots| - 1] != id)
    ensures Owners(lots + Repeat(id, n)) == Owners(lots) + [id]
  {
    var all := lots + Repeat(id, n);
    if n == 1 {
      assert all[..|all| - 1] == lots;
      assert all == lots + [id];
    } else {
      assert all[..|all| - 1] == lots + Repeat(id, n - 1);
      OwnersRepeat(lots, id, n - 1);
    }
  }

  ghost predicate DistinctIDs(entries: seq<Entry>) {
    forall i, j :: 0 <= i < j < |entries| ==> entries[i].orderID != entries[j].orderID
  }

  lemma {:induction false} ExpandEnds(entries: seq<Entry>, lot: real)
    requires LotBook(entries, lot)
    ensures if entries == [] then Expand(entries, lot) == [] else
      Expand(entries, lot) != [] &&
      Expand(entries, lot)[|Expand(entries, lot)| - 1] == entries[|entries| - 1].orderID
  {}

  lemma {:induction false} OwnersOfExpand(entries: seq<Entry>, lot: real)
    requires LotBook(entries, lot) && DistinctIDs(entries)
    ensures Owners(Expand(entries, lot)) == IDs(entries)
  {
    if entries == [] {
      assert Expand(entries, lot) == [];
    } else {
      hide Owners, Expand, IDs;
      var top, below := entries[|entries| - 1], entries[..|entries| - 1];
      assert entries == below + [top];
      OwnersOfExpand(below, lot);
      ExpandSnoc(below, top, lot);
      ExpandEnds(below, lot);
      OwnersRepeat(Expand(below, lot), top.orderID, Units(top.remaining, lot));
      IDsSnoc(below, top);
    }
  }

  lemma {:induction false} ClosableLots(book: seq<Entry>, lot: real)
    requires lot > TOLERANCE && LotBook(book, lot)
    ensures Closable(book) == Times(|Expand(book, lot)|, lot)
  {
    if book != [] {
      var top, below := book[|book| - 1], book[..|book| - 1];
      ClosableLots(below, lot);
      TimesAdd(|Expand(below, lot)|, Units(top.remaining, lot), lot);
      TimesAtLeast(Units(top.remaining, lot), lot);
    }
  }

  /** Closing `n` lots, as a chain sees it: the popped lots and their owners, and a mismatch
      exactly when the book holds fewer lots. */
  lemma CloseAgainstPopsLots(book: seq<Entry>, n: nat, lot: real)
    requires lot > TOLERANCE && n > 0 && book != [] && LotBook(book, lot) && DistinctIDs(book)
    ensures var out, lots := CloseAgainst(book, Times(n, lot)), Expand(book, lot);
      var kept := |lots| - MinNat(n, |lots|);
      && LotBook(out.book, lot) && Expand(out.book, lot) == lots[..kept]
      && IDs(out.closed) == Owners(lots[kept..])
      && (out.mismatch.Some? <==> n > |lots|)
  {
    QuantityMismatchExact(book, Times(n, lot));
    ClosableLots(book, lot);
    TimesCompare(n, |Expand(book, lot)|, lot);
    TimesCompare(|Expand(book, lot)|, n, lot);
    ClosedInLots(book, n, lot);
  }

  lemma ClosedInLots(book: seq<Entry>, n: nat, lot: real)
    requires lot > TOLERANCE && n > 0 && book != [] && LotBook(book, lot) && DistinctIDs(book)
    ensures var out, lots := CloseAgainst(book, Times(n, lot)), Expand(book, lot);
      var kept := |lots| - MinNat(n, |lots|);
      && LotBook(out.book, lot) && Expand(out.book, lot) == lots[..kept]
      && IDs(out.closed) == Owners(lots[kept..])
  {
    hide Consume, Expand, Owners, Reversed;
    TimesAtLeast(n, lot);
    ConsumePopsLots(book, n, lot);
    forall k | 0 <= k < |book| ensures Available(book[k]) > TOLERANCE {
      TimesAtLeast(Units(book[k].remaining, lot), lot);
    }
    ConsumedAreNewest(book, Times(n, lot));
    var closed := Reversed(Consume(book, Times(n, lot)).consumed);
    SubBookDistinct(book, closed);
    OwnersOfExpand(closed, lot);
  }

  lemma SubBookDistinct(book: seq<Entry>, part: seq<Entry>)
    requires DistinctIDs(book) && IsSuffix(IDs(part), IDs(book))
    ensures DistinctIDs(part)
  {
    forall k | 0 <= k < |part| ensures part[k].orderID == book[|book| - |part| + k].orderID {
      assert IDs(part)[k] == IDs(book)[|book| - |part|..][k];
    }
  }
}
