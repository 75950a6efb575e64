/** What an exit takes from a book, and the conservation of quantity over a whole replay. */
module ReplayConservation {
  import opened Options
  import opened Orders
  import opened Replay
  import opened Seqs

  // ----- one exit -----

  /** The quantity an exit could take from a book: the entries not within the tolerance of zero. */
  ghost function Closable(book: seq<Entry>): real {
    if book == [] then 0.0
    else
      var available := Available(book[|book| - 1]);
      Closable(book[..|book| - 1]) + if available <= TOLERANCE then 0.0 else available
  }

  /** The consuming loop leaves more than the tolerance exactly when the exit exceeds what it could
      take by more than the tolerance; the book is then empty and the rest is the exact excess. */
  lemma {:induction false} RestExact(book: seq<Entry>, quantity: real)
    requires quantity >= 0.0
    ensures var c := Consume(book, quantity);
      && (c.rest > TOLERANCE <==> quantity - Closable(book) > TOLERANCE)
      && (c.rest > TOLERANCE ==> c.book == [] && c.rest == quantity - Closable(book))
      && 0.0 <= c.rest <= quantity
    decreases |book|
  {
    ClosableNonNegative(book);
    if quantity > TOLERANCE && book != [] {
      var top, below := book[|book| - 1], book[..|book| - 1];
      ClosableNonNegative(below);
      var available := Available(top);
      if available <= TOLERANCE {
        RestExact(below, quantity);
      } else if available - Min(available, quantity) <= TOLERANCE {
        RestExact(below, quantity - Min(available, quantity));
      }
    }
  }

  lemma ClosableNonNegative(book: seq<Entry>)
    ensures Closable(book) >= 0.0
  {}

  /** A positive exit on an open book is flagged exactly when it exceeds the closable quantity by
      more than the tolerance, with that excess, and then nothing stays open. An exit without a
      quantity closes the newest entry and is never flagged. */
  lemma QuantityMismatchExact(book: seq<Entry>, quantity: real)
    requires book != []
    ensures var out := CloseAgainst(book, quantity);
      if quantity <= 0.0 then out.mismatch.None? && book == out.book + out.closed && |out.closed| == 1
      else
        && (out.mismatch.Some? <==> quantity - Closable(book) > TOLERANCE)
        && (out.mismatch.Some? ==> out.mismatch.value == quantity - Closable(book) && out.book == [])
  {
    if quantity > 0.0 {
      RestExact(book, quantity);
    } else {
      assert book == book[..|book| - 1] + [book[|book| - 1]];
    }
  }

  ghost function Total(entries: seq<Entry>): real {
    if entries == [] then 0.0 else Total(entries[..|entries| - 1]) + entries[|entries| - 1].remaining
  }

  lemma {:induction false} TotalAppend(a: seq<Entry>, b: seq<Entry>)
    ensures Total(a + b) == Total(a) + Total(b)
  {
    if b == [] {
      assert a + b == a;
    } else {
      assert (a + b)[..|a + b| - 1] == a + b[..|b| - 1];
      TotalAppend(a, b[..|b| - 1]);
    }
  }

  lemma {:induction false} TotalReversed(a: seq<Entry>)
    ensures Total(Reversed(a)) == Total(a)
  {
    if a != [] {
      TotalReversed(a[1..]);
      TotalAppend(Reversed(a[1..]), [a[0]]);
      TotalAppend([a[0]], a[1..]);
      assert a == [a[0]] + a[1..];
      assert [a[0]][..0] == [] && Total([a[0]]) == a[0].remaining;
    }
  }

  /** Quantities of a book built from non-negative opens: part of the entry's own quantity, and
      used up only if there was none. */
  ghost predicate Sound(book: seq<Entry>) {
    forall k :: 0 <= k < |book| ==>
      0.0 <= book[k].remaining <= book[k].quantity && (book[k].remaining == 0.0 ==> book[k].quantity == 0.0)
  }

  /** The remainders within the tolerance that the consuming loop drops with their entries. */
  ghost function Dropped(book: seq<Entry>, rest: real): real {
    if rest <= TOLERANCE || book == [] then 0.0
    else
      var below, available := book[..|book| - 1], Available(book[|book| - 1]);
      if available <= TOLERANCE then available + Dropped(below, rest)
      else
        var take := Min(available, rest);
        if available - take <= TOLERANCE then available - take + Dropped(below, rest - take) else 0.0
  }

  lemma {:induction false} ConsumeConserves(book: seq<Entry>, quantity: real)
    requires Sound(book) && quantity >= 0.0
    ensures var c := Consume(book, quantity);
      && Sound(c.book) && |c.book| <= |book|
      && Total(book) == Total(c.consumed) + Total(c.book) + Dropped(book, quantity)
      && Total(c.consumed) == quantity - c.rest
      && 0.0 <= Dropped(book, quantity) <= TOLERANCE * (|book| - |c.book|) as real
    decreases |book|
  {
    if quantity > TOLERANCE && book != [] {
      var top, below := book[|book| - 1], book[..|book| - 1];
      var available := Available(top);
      assert available == top.remaining;
      if available <= TOLERANCE {
        ConsumeConserves(below, quantity);
      } else {
        var take := Min(available, quantity);
        var taken := top.(remaining := take);
        assert [taken][..0] == [];
        assert Total([taken]) == take;
        if available - take <= TOLERANCE {
          ConsumeConserves(below, quantity - take);
          TotalAppend([taken], Consume(below, quantity - take).consumed);
        } else {
          TotalAppend(below, [top.(remaining := available - take)]);
          assert [top.(remaining := available - take)][..0] == [];
        }
      }
    }
  }

  ghost function DroppedBy(book: seq<Entry>, quantity: real): real {
    if quantity <= 0.0 then 0.0 else Dropped(book, quantity)
  }

  /** An exit only moves quantity: what was open is closed, still open, or dropped within the
      tolerance; and what it closes is its own quantity up to the tolerance or the flagged excess. */
  lemma CloseConserves(book: seq<Entry>, quantity: real)
    requires book != [] && Sound(book)
    ensures var out := CloseAgainst(book, quantity);
      && Sound(out.book) && |out.book| <= |book|
      && Total(book) == Total(out.closed) + Total(out.book) + DroppedBy(book, quantity)
      && 0.0 <= DroppedBy(book, quantity) <= TOLERANCE * (|book| - |out.book|) as real
      && (quantity > 0.0 && out.mismatch.Some? ==> Total(out.closed) == quantity - out.mismatch.value)
      && (quantity > 0.0 && out.mismatch.None? ==> quantity - TOLERANCE <= Total(out.closed) <= quantity)
  {
    if quantity > 0.0 {
      ConsumeConserves(book, quantity);
      RestExact(book, quantity);
      TotalReversed(Consume(book, quantity).consumed);
    } else {
      assert [book[|book| - 1]][..0] == [];
    }
  }

  // ----- a whole replay -----

  predicate Filled(o: ReplayOrder) { StatusOf(o) == "FILLED" }

  /** The intents of one book, the long one or the short one. */
  predicate OfBook(long: bool, intent: Intent) {
    if long then intent == OpenLong || intent == CloseLong else intent == OpenShort || intent == CloseShort
  }

  function BookOf(long: bool, s: State): seq<Entry> {
    if long then s.longs else s.shorts
  }

  /** This order opens an entry on the given book. */
  predicate Opens(long: bool, o: ReplayOrder) {
    Filled(o) && IntentOf(o).IsEntry() && OfBook(long, IntentOf(o))
  }

  /** This order closes entries of the given book, which is open in state `s`. */
  predicate Closes(long: bool, s: State, o: ReplayOrder) {
    Filled(o) && IntentOf(o).IsExit() && OfBook(long, IntentOf(o)) && BookOf(long, s) != []
  }

  /** The only ways a step changes a book. */
  lemma StepBook(long: bool, s: State, o: ReplayOrder)
    ensures BookOf(long, Step(s, o)) ==
      if Opens(long, o) then BookOf(long, s) + [EntryFromOrder(o)]
      else if Closes(long, s, o) then CloseAgainst(BookOf(long, s), o.order.quantity).book
      else BookOf(long, s)
  {}

  /** The running account of one book. */
  datatype Account = Account(entered: real, exited: real, dropped: real, popped: nat)

  /** The account after a stream; what each exit closed is the total of the entries in its chain. */
  ghost function AccountOf(long: bool, orders: seq<ReplayOrder>): Account {
    if orders == [] then Account(0.0, 0.0, 0.0, 0)
    else
      var a, s, o := AccountOf(long, orders[..|orders| - 1]), Run(orders[..|orders| - 1]), orders[|orders| - 1];
      if Opens(long, o) then a.(entered := a.entered + o.order.quantity)
      else if Closes(long, s, o) then
        var book := BookOf(long, s);
        var out := CloseAgainst(book, o.order.quantity);
        Account(a.entered, a.exited + Total(out.closed), a.dropped + DroppedBy(book, o.order.quantity),
                a.popped + if |out.book| <= |book| then |book| - |out.book| else 0)
      else a
  }

  /** Whole-run conservation: the quantity opened on a book equals the quantity closed through its
      chains plus the quantity still open plus the dropped dust, which is at most the tolerance per
      entry popped; and every open entry keeps a part of its own quantity. */
  lemma {:induction false} QuantityConserved(long: bool, orders: seq<ReplayOrder>)
    requires forall k :: 0 <= k < |orders| && Opens(long, orders[k]) ==> orders[k].order.quantity >= 0.0
    ensures var a, book := AccountOf(long, orders), BookOf(long, Run(orders));
      && Sound(book)
      && a.entered == a.exited + Total(book) + a.dropped
      && 0.0 <= a.dropped <= TOLERANCE * a.popped as real
  {
    if orders != [] {
      var init, o := orders[..|orders| - 1], orders[|orders| - 1];
      forall k | 0 <= k < |init| && Opens(long, init[k]) ensures init[k].order.quantity >= 0.0 {
        assert init[k] == orders[k];
      }
      QuantityConserved(long, init);
      var s := Run(init);
      StepBook(long, s, o);
      if Opens(long, o) {
        TotalAppend(BookOf(long, s), [EntryFromOrder(o)]);
        assert [EntryFromOrder(o)][..0] == [];
      } else if Closes(long, s, o) {
        CloseConserves(BookOf(long, s), o.order.quantity);
      }
    }
  }
}
