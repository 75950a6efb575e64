/** A whole replay run against a machine that knows nothing of quantities: two stacks of lots. */
module ReplayLotMachine {
  import opened Options
  import opened Orders
  import opened Replay
  import opened ReplayConservation
  import opened ReplayUnitLots

  /** The two stacks, each lot named by the order that pushed it, and what each chain popped. */
  datatype LotState = LotState(longs: seq<string>, shorts: seq<string>, popped: seq<seq<string>>) {
    function Stack(long: bool): seq<string> { if long then longs else shorts }

    function WithStack(long: bool, stack: seq<string>): LotState {
      if long then this.(longs := stack) else this.(shorts := stack)
    }
  }

  ghost predicate LotOrder(o: ReplayOrder, lot: real) {
    Filled(o) && IntentOf(o) != UnknownIntent ==> IsLots(o.order.quantity, lot)
  }

  ghost function LotStep(l: LotState, o: ReplayOrder, lot: real): LotState
    requires LotOrder(o, lot)
  {
    if !Filled(o) || IntentOf(o) == UnknownIntent then l
    else
      var n, long := Units(o.order.quantity, lot), OfBook(true, IntentOf(o));
      var stack := l.Stack(long);
      if IntentOf(o).IsEntry() then l.WithStack(long, stack + Repeat(o.order.id, n))
      else if stack == [] then l
      else
        var kept := |stack| - MinNat(n, |stack|);
        l.WithStack(long, stack[..kept]).(popped := l.popped + [stack[kept..]])
  }

  ghost function LotRun(orders: seq<ReplayOrder>, lot: real): LotState
    requires forall k :: 0 <= k < |orders| ==> LotOrder(orders[k], lot)
  {
    if orders == [] then LotState([], [], [])
    else LotStep(LotRun(orders[..|orders| - 1], lot), orders[|orders| - 1], lot)
  }

  ghost predicate BookRefines(long: bool, s: State, l: LotState, lot: real) {
    && LotBook(BookOf(long, s), lot)
    && DistinctIDs(BookOf(long, s))
    && Expand(BookOf(long, s), lot) == l.Stack(long)
  }

  /** Each chain lists the owners of the lots its exit popped, in arrival order. */
  ghost predicate ChainsRefine(chains: seq<Chain>, popped: seq<seq<string>>) {
    && |chains| == |popped|
    && forall j :: 0 <= j < |chains| ==> chains[j].entryOrderIDs == Owners(popped[j])
  }

  ghost predicate Refines(s: State, l: LotState, lot: real) {
    && BookRefines(true, s, l, lot)
    && BookRefines(false, s, l, lot)
    && ChainsRefine(s.result.chains, l.popped)
  }

  /** The only way a step adds a chain. */
  lemma StepChains(s: State, o: ReplayOrder)
    ensures var chains := Step(s, o).result.chains;
      if Closes(true, s, o) then
        chains == s.result.chains +
          [ChainOf(OpenLongCloseLong, CloseAgainst(s.longs, o.order.quantity).closed, o, IntentOf(o))]
      else if Closes(false, s, o) then
        chains == s.result.chains +
          [ChainOf(OpenShortCloseShort, CloseAgainst(s.shorts, o.order.quantity).closed, o, IntentOf(o))]
      else chains == s.result.chains
  {
    StepReadChains(s, o, Read(o));
  }

  lemma StepReadChains(s: State, o: ReplayOrder, reading: Reading)
    ensures var chains, intent := StepRead(s, o, reading).result.chains, reading.intent;
      if reading.ignored.None? && intent.IsExit() && s.Book(intent) != [] then
        chains == s.result.chains +
          [ChainOf(ChainTypeOf(intent), CloseAgainst(s.Book(intent), o.order.quantity).closed, o, intent)]
      else chains == s.result.chains
  {}

  lemma {:induction false} ConsumeKeepsOldest(book: seq<Entry>, rest: real)
    ensures var c := Consume(book, rest); |c.book| <= |book| && IDs(c.book) == IDs(book)[..|c.book|]
    decreases |book|
  {
    if rest > TOLERANCE && book != [] {
      var top, below := book[|book| - 1], book[..|book| - 1];
      var available := Available(top);
      assert IDs(book) == IDs(below) + [top.orderID];
      if available <= TOLERANCE {
        ConsumeKeepsOldest(below, rest);
      } else if available - Min(available, rest) <= TOLERANCE {
        ConsumeKeepsOldest(below, rest - Min(available, rest));
      } else {
        var left := top.(remaining := available - Min(available, rest));
        assert IDs(below + [left]) == IDs(below) + [top.orderID];
      }
    }
  }

  lemma CloseKeepsIDs(book: seq<Entry>, quantity: real)
    requires book != []
    ensures forall e :: e in IDs(CloseAgainst(book, quantity).book) ==> e in IDs(book)
    ensures DistinctIDs(book) ==> DistinctIDs(CloseAgainst(book, quantity).book)
  {
    var out := CloseAgainst(book, quantity);
    ConsumeKeepsOldest(book, quantity);
    forall k | 0 <= k < |out.book|
      ensures k < |book| && out.book[k].orderID == book[k].orderID
    {
      assert IDs(out.book)[k] == IDs(book)[..|out.book|][k];
    }
  }

  lemma OpenPushesLots(book: seq<Entry>, o: ReplayOrder, lot: real)
    requires LotBook(book, lot) && DistinctIDs(book) && IsLots(o.order.quantity, lot)
    requires o.order.id !in IDs(book)
    ensures var book' := book + [EntryFromOrder(o)];
      && LotBook(book', lot) && DistinctIDs(book')
      && Expand(book', lot) == Expand(book, lot) + Repeat(o.order.id, Units(o.order.quantity, lot))
  {
    ExpandSnoc(book, EntryFromOrder(o), lot);
    forall i | 0 <= i < |book| ensures book[i].orderID != o.order.id {
      assert IDs(book)[i] == book[i].orderID;
    }
  }

  /** The lots an exit pops. */
  ghost function PoppedLots(stack: seq<string>, o: ReplayOrder, lot: real): seq<string>
    requires IsLots(o.order.quantity, lot)
  {
    stack[|stack| - MinNat(Units(o.order.quantity, lot), |stack|)..]
  }

  predicate ExitsOn(long: bool, o: ReplayOrder) {
    Filled(o) && IntentOf(o).IsExit() && OfBook(long, IntentOf(o))
  }

  lemma LotStepStack(long: bool, l: LotState, o: ReplayOrder, lot: real)
    requires LotOrder(o, lot)
    ensures LotStep(l, o, lot).Stack(long) ==
      if Opens(long, o) then l.Stack(long) + Repeat(o.order.id, Units(o.order.quantity, lot))
      else if ExitsOn(long, o) && l.Stack(long) != [] then
        l.Stack(long)[..|l.Stack(long)| - |PoppedLots(l.Stack(long), o, lot)|]
      else l.Stack(long)
  {}

  lemma LotStepPopped(l: LotState, o: ReplayOrder, lot: real)
    requires LotOrder(o, lot)
    ensures LotStep(l, o, lot).popped ==
      if ExitsOn(true, o) && l.longs != [] then l.popped + [PoppedLots(l.longs, o, lot)]
      else if ExitsOn(false, o) && l.shorts != [] then l.popped + [PoppedLots(l.shorts, o, lot)]
      else l.popped
  {}

  /** A close on a refined book pops the machine's lots and names their owners. */
  lemma CloseRefines(long: bool, s: State, l: LotState, o: ReplayOrder, lot: real)
    requires lot > TOLERANCE && LotOrder(o, lot) && BookRefines(long, s, l, lot)
    requires ExitsOn(long, o)
    ensures BookOf(long, s) == [] <==> l.Stack(long) == []
    ensures BookOf(long, s) != [] ==>
      var out, stack := CloseAgainst(BookOf(long, s), o.order.quantity), l.Stack(long);
      && LotBook(out.book, lot) && DistinctIDs(out.book)
      && Expand(out.book, lot) == stack[..|stack| - |PoppedLots(stack, o, lot)|]
      && IDs(out.closed) == Owners(PoppedLots(stack, o, lot))
  {
    hide Expand, Owners, CloseAgainst, LotBook;
    ExpandEnds(BookOf(long, s), lot);
    if BookOf(long, s) != [] {
      CloseAgainstPopsLots(BookOf(long, s), Units(o.order.quantity, lot), lot);
      CloseKeepsIDs(BookOf(long, s), o.order.quantity);
    }
  }

  lemma StepRefinesBook(long: bool, s: State, l: LotState, o: ReplayOrder, lot: real)
    requires lot > TOLERANCE && LotOrder(o, lot) && BookRefines(long, s, l, lot)
    requires Opens(long, o) ==> o.order.id !in IDs(BookOf(long, s))
    ensures BookRefines(long, Step(s, o), LotStep(l, o, lot), lot)
  {
    StepBook(long, s, o);
    LotStepStack(long, l, o, lot);
    hide Step, LotStep, CloseAgainst, Owners, Expand, LotBook;
    if Opens(long, o) {
      OpenPushesLots(BookOf(long, s), o, lot);
    } else if ExitsOn(long, o) {
      CloseRefines(long, s, l, o, lot);
    }
  }

  lemma StepRefinesChains(s: State, l: LotState, o: ReplayOrder, lot: real)
    requires lot > TOLERANCE && LotOrder(o, lot) && Refines(s, l, lot)
    ensures ChainsRefine(Step(s, o).result.chains, LotStep(l, o, lot).popped)
  {
    StepChains(s, o);
    LotStepPopped(l, o, lot);
    hide Step, LotStep, CloseAgainst, Owners, Expand, LotBook;
    if ExitsOn(true, o) {
      CloseRefines(true, s, l, o, lot);
    } else if ExitsOn(false, o) {
      CloseRefines(false, s, l, o, lot);
    }
  }

  /** Distinct IDs for the orders that open entries. */
  ghost predicate FreshIDs(orders: seq<ReplayOrder>) {
    forall i, j, long, long' :: 0 <= i < j < |orders| && Opens(long, orders[i]) && Opens(long', orders[j]) ==>
      orders[i].order.id != orders[j].order.id
  }

  ghost predicate BroughtBy(id: string, orders: seq<ReplayOrder>) {
    exists k, long :: 0 <= k < |orders| && Opens(long, orders[k]) && orders[k].order.id == id
  }

  lemma BroughtByMore(id: string, orders: seq<ReplayOrder>, o: ReplayOrder)
    ensures BroughtBy(id, orders) ==> BroughtBy(id, orders + [o])
    ensures forall long :: Opens(long, o) && o.order.id == id ==> BroughtBy(id, orders + [o])
  {
    hide Opens;
    var more := orders + [o];
    assert more[|orders|] == o;
    if BroughtBy(id, orders) {
      var k, long :| 0 <= k < |orders| && Opens(long, orders[k]) && orders[k].order.id == id;
      assert more[k] == orders[k];
    }
  }

  /** A step brings no ID to a book but the one of an opening order. */
  lemma StepBringsOwnID(long: bool, s: State, o: ReplayOrder)
    ensures forall id :: id in IDs(BookOf(long, Step(s, o))) ==>
      id in IDs(BookOf(long, s)) || (Opens(long, o) && id == o.order.id)
  {
    StepBook(long, s, o);
    hide Step, CloseAgainst, IDs, Opens;
    IDsSnoc(BookOf(long, s), EntryFromOrder(o));
    if Closes(long, s, o) {
      CloseKeepsIDs(BookOf(long, s), o.order.quantity);
    }
  }

  lemma {:induction false} OpenEntriesWereBrought(long: bool, orders: seq<ReplayOrder>)
    ensures forall id :: id in IDs(BookOf(long, Run(orders))) ==> BroughtBy(id, orders)
  {
    hide Step, Opens, BroughtBy;
    if orders != [] {
      var init, o := orders[..|orders| - 1], orders[|orders| - 1];
      assert orders == init + [o];
      OpenEntriesWereBrought(long, init);
      StepBringsOwnID(long, Run(init), o);
      forall id | id in IDs(BookOf(long, Run(orders))) ensures BroughtBy(id, orders) {
        BroughtByMore(id, init, o);
      }
    }
  }

  lemma NewEntryIsFresh(long: bool, orders: seq<ReplayOrder>)
    requires orders != [] && FreshIDs(orders) && Opens(long, orders[|orders| - 1])
    ensures orders[|orders| - 1].order.id !in IDs(BookOf(long, Run(orders[..|orders| - 1])))
  {
    var init, o := orders[..|orders| - 1], orders[|orders| - 1];
    OpenEntriesWereBrought(long, init);
    forall k, long' | 0 <= k < |init| && Opens(long', init[k]) ensures init[k].order.id != o.order.id {
      assert init[k] == orders[k];
    }
    assert !BroughtBy(o.order.id, init);
  }

  /** For every stream of whole-lot quantities and fresh IDs, the replay and the lot machine agree:
      same open lots on both sides, and each chain names the owners of the lots popped for it. */
  lemma {:induction false} ReplayRefinesLots(orders: seq<ReplayOrder>, lot: real)
    requires lot > TOLERANCE
    requires forall k :: 0 <= k < |orders| ==> LotOrder(orders[k], lot)
    requires FreshIDs(orders)
    ensures Refines(Run(orders), LotRun(orders, lot), lot)
  {
    if orders != [] {
      var init, o := orders[..|orders| - 1], orders[|orders| - 1];
      ReplayRefinesLots(init, lot);
      var s, l := Run(init), LotRun(init, lot);
      forall long | Opens(long, o) ensures o.order.id !in IDs(BookOf(long, s)) {
        NewEntryIsFresh(long, orders);
      }
      StepRefinesBook(true, s, l, o, lot);
      StepRefinesBook(false, s, l, o, lot);
      StepRefinesChains(s, l, o, lot);
    }
  }
}
