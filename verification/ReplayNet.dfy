/** What a replay does in terms of the order texts alone: buying adds to the net position, selling takes
    from it, and an order with an exit flag only ever reduces what is open. */
module ReplayNet {
  import opened Orders
  import opened OrderTexts
  import opened Replay
  import opened ReplayConservation
  import opened Text

  // ----- one order -----

  /** What an exit of some quantity can match: nothing on an empty book, the newest entry when it has no
      quantity, otherwise what is open at most. */
  ghost function Matched(book: seq<Entry>, quantity: real): real {
    if book == [] then 0.0
    else if quantity <= 0.0 then book[|book| - 1].remaining
    else if quantity <= Total(book) then quantity
    else Total(book)
  }

  /** An executed order without a flag appends one entry with its whole quantity to the book of its
      side; one with a flag never enlarges a book; nothing else changes one. */
  lemma BooksMove(long: bool, s: State, o: ReplayOrder)
    ensures var before, after := BookOf(long, s), BookOf(long, Step(s, o));
      && (Executed(o) && On(long, o) && !Flagged(o) ==>
            |after| == |before| + 1 && after[..|before|] == before
            && after[|before|].orderID == o.order.id
            && after[|before|].quantity == after[|before|].remaining == o.order.quantity)
      && (!(Executed(o) && On(long, o)) ==> after == before)
      && (Flagged(o) ==> |after| <= |before| && (Sound(before) ==> Total(after) <= Total(before)))
  {
    hide IntentOf, CloseAgainst, Flagged, Total, Sound, ToUpper, TrimSpace;
    IntentIsSideAndFlags(o);
    StepBook(long, s, o);
    var book := BookOf(long, s);
    if Closes(long, s, o) {
      CloseShrinks(book, o.order.quantity);
      if Sound(book) {
        CloseConserves(book, o.order.quantity);
        ClosedIsSome(book, o.order.quantity);
      }
    }
  }

  lemma {:induction false} ConsumeShrinks(book: seq<Entry>, quantity: real)
    ensures |Consume(book, quantity).book| <= |book|
    decreases |book|
  {
    if quantity > TOLERANCE && book != [] {
      var below, available := book[..|book| - 1], Available(book[|book| - 1]);
      ConsumeShrinks(below, quantity);
      ConsumeShrinks(below, quantity - Min(available, quantity));
    }
  }

  lemma CloseShrinks(book: seq<Entry>, quantity: real)
    requires book != []
    ensures |CloseAgainst(book, quantity).book| <= |book|
  {
    hide Consume;
    ConsumeShrinks(book, quantity);
  }

  lemma {:induction false} TotalNonNegative(entries: seq<Entry>)
    requires Sound(entries)
    ensures Total(entries) >= 0.0
  {
    if entries != [] {
      TotalNonNegative(entries[..|entries| - 1]);
    }
  }

  /** Closing takes nothing negative, and after a mismatch all that could be closed was. */
  lemma ClosedIsSome(book: seq<Entry>, quantity: real)
    requires book != [] && Sound(book)
    ensures Total(CloseAgainst(book, quantity).closed) >= 0.0
  {
    if quantity > 0.0 {
      RestExact(book, quantity);
      CloseConserves(book, quantity);
    } else {
      assert [book[|book| - 1]][..0] == [];
    }
  }

  /** The tolerance once for each of `n` entries or orders. */
  function Dust(n: int): real { TOLERANCE * n as real }

  lemma DustAdds(n: int, m: int)
    ensures Dust(n + m) == Dust(n) + Dust(m)
    ensures m >= 0 ==> Dust(n) <= Dust(n + m)
  {}

  /** After an exit the book holds what is left of it once the matched quantity is taken, up to the
      tolerance per entry popped and once more. */
  lemma ExitTakesMatched(book: seq<Entry>, quantity: real)
    requires book != [] && Sound(book)
    ensures var after := CloseAgainst(book, quantity).book;
      |after| <= |book| &&
      Apart(Total(after), Total(book) - Matched(book, quantity), Dust(|book| - |after| + 1))
  {
    hide CloseAgainst, Sound;
    var out := CloseAgainst(book, quantity);
    CloseConserves(book, quantity);
    TotalNonNegative(out.book);
    ClosedIsSome(book, quantity);
    DustAdds(|book| - |out.book|, 1);
    QuantityMismatchExact(book, quantity);
    if quantity <= 0.0 {
      NewestGoes(book, quantity);
    }
  }

  lemma NewestGoes(book: seq<Entry>, quantity: real)
    requires book != [] && quantity <= 0.0
    ensures Total(CloseAgainst(book, quantity).book) == Total(book) - book[|book| - 1].remaining
  {}

  predicate Apart(a: real, b: real, slack: real) { -slack <= a - b <= slack }

  // ----- a whole stream -----

  /** The signed quantity of an order: up for buying, down for selling. */
  function Signed(o: ReplayOrder, quantity: real): real {
    if Buys(o) then quantity else if Sells(o) then -quantity else 0.0
  }

  /** The quantity an executed order moves in a state: all of it, or with a flag what the book of the
      other direction can match. */
  ghost function Moved(s: State, o: ReplayOrder): real {
    if !Executed(o) then 0.0
    else if !Flagged(o) then o.order.quantity
    else Matched(if Buys(o) then s.shorts else s.longs, o.order.quantity)
  }

  /** The signed sum of what the orders of a stream moved. */
  ghost function SignedSum(orders: seq<ReplayOrder>): real {
    if orders == [] then 0.0
    else
      var init, o := orders[..|orders| - 1], orders[|orders| - 1];
      SignedSum(init) + Signed(o, Moved(Run(init), o))
  }

  /** The same for one side: what its entries brought less what its exits matched. */
  ghost function SideSum(long: bool, orders: seq<ReplayOrder>): real {
    if orders == [] then 0.0
    else
      var init, o := orders[..|orders| - 1], orders[|orders| - 1];
      SideSum(long, init) + if !On(long, o) then 0.0 else if Flagged(o) then -Moved(Run(init), o) else Moved(Run(init), o)
  }

  lemma {:induction false} SidesMakeTheNet(orders: seq<ReplayOrder>)
    ensures SignedSum(orders) == SideSum(true, orders) - SideSum(false, orders)
  {
    hide Flagged, Moved, Buys, Sells;
    if orders != [] {
      BuysOrSells(orders[|orders| - 1]);
      SidesMakeTheNet(orders[..|orders| - 1]);
    }
  }

  /** The orders of a stream that name a side. */
  ghost function Named(long: bool, orders: seq<ReplayOrder>): nat {
    if orders == [] then 0
    else Named(long, orders[..|orders| - 1]) + if On(long, orders[|orders| - 1]) then 1 else 0
  }

  lemma {:induction false} NamedOnce(orders: seq<ReplayOrder>)
    ensures Named(true, orders) + Named(false, orders) <= |orders|
  {
    hide Flagged, Buys, Sells;
    if orders != [] {
      BuysOrSells(orders[|orders| - 1]);
      NamedOnce(orders[..|orders| - 1]);
    }
  }

  /** Entries bring quantities that are not negative. */
  ghost predicate Plain(orders: seq<ReplayOrder>) {
    forall k :: 0 <= k < |orders| && Executed(orders[k]) && !Flagged(orders[k]) ==> orders[k].order.quantity >= 0.0
  }

  ghost predicate SideOk(long: bool, orders: seq<ReplayOrder>) {
    var book := BookOf(long, Run(orders));
    && Sound(book) && |book| <= Named(long, orders)
    && Apart(Total(book), SideSum(long, orders), Dust(Named(long, orders) - |book|))
  }

  lemma EntryAdds(long: bool, book: seq<Entry>, e: Entry)
    requires Sound(book) && 0.0 <= e.quantity == e.remaining
    ensures Sound(book + [e]) && Total(book + [e]) == Total(book) + e.remaining
  {
    assert (book + [e])[..|book|] == book;
  }

  lemma ApartAdds(a: real, b: real, slack: real, c: real, d: real, more: real)
    requires Apart(a, b, slack) && Apart(c, a - d, more)
    ensures Apart(c, b - d, slack + more)
  {}

  lemma SideStep(long: bool, orders: seq<ReplayOrder>, o: ReplayOrder)
    requires SideOk(long, orders) && (Executed(o) && !Flagged(o) ==> o.order.quantity >= 0.0)
    ensures SideOk(long, orders + [o])
  {
    hide IntentOf, CloseAgainst, Flagged, Buys, Sells, Total, Sound, Matched, Run, Step;
    var all, s := orders + [o], Run(orders);
    var book := BookOf(long, s);
    assert all[..|orders|] == orders;
    assert Run(all) == Step(s, o) by { RunSnoc(orders, o); }
    IntentIsSideAndFlags(o);
    StepBook(long, s, o);
    if Opens(long, o) {
      EntryAdds(long, book, EntryFromOrder(o));
    } else if Closes(long, s, o) {
      var after := CloseAgainst(book, o.order.quantity).book;
      CloseConserves(book, o.order.quantity);
      ExitTakesMatched(book, o.order.quantity);
      DustAdds(Named(long, orders) - |book|, |book| - |after| + 1);
      BuysOrSells(o);
      ApartAdds(Total(book), SideSum(long, orders), Dust(Named(long, orders) - |book|),
                Total(after), Matched(book, o.order.quantity), Dust(|book| - |after| + 1));
    } else {
      NothingMatches(o.order.quantity);
      BuysOrSells(o);
      DustAdds(Named(long, orders) - |book|, 1);
    }
  }

  lemma NothingMatches(quantity: real)
    ensures Matched([], quantity) == 0.0
  {}

  lemma RunSnoc(orders: seq<ReplayOrder>, o: ReplayOrder)
    ensures Run(orders + [o]) == Step(Run(orders), o)
  {
    hide Step;
    assert (orders + [o])[..|orders|] == orders;
  }

  lemma {:induction false} SidesOk(long: bool, orders: seq<ReplayOrder>)
    requires Plain(orders)
    ensures SideOk(long, orders)
  {
    hide SideOk, Flagged;
    if orders == [] {
      NothingYet(long);
    } else {
      var init, o := orders[..|orders| - 1], orders[|orders| - 1];
      assert orders == init + [o];
      SidesOk(long, init);
      SideStep(long, init, o);
    }
  }

  lemma NothingYet(long: bool)
    ensures SideOk(long, [])
  {}

  lemma NetApart(a: real, b: real, x: real, y: real, d: real, e: real, all: real)
    requires Apart(a, x, d) && Apart(b, y, e) && d + e <= all
    ensures Apart(a - b, x - y, all)
  {}

  /** The net position law: after any stream, open longs less open shorts are the signed sum of what the
      orders moved, read off side text and flags, up to the tolerance per order. */
  lemma NetPosition(orders: seq<ReplayOrder>)
    requires Plain(orders)
    ensures var s := Run(orders);
      Apart(Total(s.longs) - Total(s.shorts), SignedSum(orders), Dust(|orders|))
  {
    hide SideOk, Run, Total, Named, SideSum, SignedSum, Dust, Apart, Plain;
    SidesOk(true, orders);
    SidesOk(false, orders);
    SidesMakeTheNet(orders);
    NamedOnce(orders);
    BoundedBySides(orders);
  }

  lemma BoundedBySides(orders: seq<ReplayOrder>)
    requires SideOk(true, orders) && SideOk(false, orders)
    requires SignedSum(orders) == SideSum(true, orders) - SideSum(false, orders)
    requires Named(true, orders) + Named(false, orders) <= |orders|
    ensures var s := Run(orders); Apart(Total(s.longs) - Total(s.shorts), SignedSum(orders), Dust(|orders|))
  {
    hide Run, Total, Sound, Named, SideSum, SignedSum, Dust, Apart;
    var s := Run(orders);
    var longDust, shortDust := Named(true, orders) - |s.longs|, Named(false, orders) - |s.shorts|;
    DustAdds(longDust, shortDust);
    DustAdds(longDust + shortDust, |orders| - longDust - shortDust);
    NetApart(Total(s.longs), Total(s.shorts), SideSum(true, orders), SideSum(false, orders), Dust(longDust), Dust(shortDust),
             Dust(|orders|));
  }
}
