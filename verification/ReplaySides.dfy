/** The long and the short book do not interfere. */
module ReplaySides {
  import opened Options
  import opened Orders
  import opened Replay
  import opened ReplayConservation
  import opened ReplayFates
  import opened Seqs

  /** The orders of a stream that concern one book. */
  function SideOrders(long: bool, orders: seq<ReplayOrder>): seq<ReplayOrder> {
    if orders == [] then []
    else
      var o := orders[|orders| - 1];
      SideOrders(long, orders[..|orders| - 1]) + if OfBook(long, IntentOf(o)) then [o] else []
  }

  predicate IgnoredOn(long: bool, x: Ignored) { OfBook(long, x.intent) }

  predicate ChainOn(long: bool, x: Chain) { (x.chainType == OpenLongCloseLong) == long }

  predicate OrphanOn(long: bool, x: Orphan) { OfBook(long, x.intent) }

  /** A reversal speaks of both books and is the one violation left out. */
  predicate ViolationOn(long: bool, x: Violation) { OfBook(long, x.intent) && x.code != UnsupportedReversal }

  function OnSide(long: bool, r: Additions): Additions {
    Additions(
      Filter(x => IgnoredOn(long, x), r.ignored),
      Filter(x => ChainOn(long, x), r.chains),
      Filter(x => OrphanOn(long, x), r.orphans),
      Filter(x => ViolationOn(long, x), r.violations))
  }

  /** All that a replay shows of one side: its open entries and its part of every list. */
  datatype View = View(book: seq<Entry>, lists: Additions)

  function ViewOf(long: bool, s: State): View {
    var r := s.result;
    View(BookOf(long, s), OnSide(long, Additions(r.ignored, r.chains, r.orphans, r.violations)))
  }

  function Joined(a: Additions, b: Additions): Additions {
    Additions(a.ignored + b.ignored, a.chains + b.chains, a.orphans + b.orphans, a.violations + b.violations)
  }

  lemma OnSideJoined(long: bool, a: Additions, b: Additions)
    ensures OnSide(long, Joined(a, b)) == Joined(OnSide(long, a), OnSide(long, b))
  {
    FilterAppend(x => IgnoredOn(long, x), a.ignored, b.ignored);
    FilterAppend(x => ChainOn(long, x), a.chains, b.chains);
    FilterAppend(x => OrphanOn(long, x), a.orphans, b.orphans);
    FilterAppend(x => ViolationOn(long, x), a.violations, b.violations);
  }

  const NOTHING := Additions([], [], [], [])

  predicate BreachNames(reading: Reading) {
    reading.breach.Some? ==>
      reading.breach.value.intent == reading.intent && reading.breach.value.code == SignalKindIntentMismatch
  }

  lemma ReadNames(o: ReplayOrder)
    ensures BreachNames(Read(o))
  {}

  lemma DeservedNames(s: State, id: string, quantity: real, reading: Reading)
    requires BreachNames(reading)
    ensures forall v :: v in Deserved(s, id, quantity, reading) ==> v.intent == reading.intent
  {
    hide Closable;
  }

  /** An order of the other side adds nothing to this side's lists. */
  lemma OffSideAddsNothing(long: bool, s: State, o: ReplayOrder, reading: Reading)
    requires BreachNames(reading) && !OfBook(long, reading.intent)
    ensures OnSide(long, AdditionsOf(s, o, reading)) == NOTHING
  {
    DeservedNames(s, o.order.id, o.order.quantity, reading);
    hide Deserved, CloseAgainst, ChainOf;
    var more := AdditionsOf(s, o, reading);
    ChainNamesSide(s, o, reading);
    FilterNone(x => IgnoredOn(long, x), more.ignored);
    FilterNone(x => ChainOn(long, x), more.chains);
    FilterNone(x => OrphanOn(long, x), more.orphans);
    FilterNone(x => ViolationOn(long, x), more.violations);
  }

  lemma ChainNamesSide(s: State, o: ReplayOrder, reading: Reading)
    ensures forall x :: x in AdditionsOf(s, o, reading).chains ==>
      reading.intent.IsExit() && ChainOn(OfBook(true, reading.intent), x)
  {
    hide CloseAgainst, Deserved;
  }

  lemma SameAdditions(s: State, s': State, o: ReplayOrder, reading: Reading)
    requires s.Book(reading.intent) == s'.Book(reading.intent)
    ensures FateOf(s, reading) == FateOf(s', reading)
    ensures FateOf(s, reading) != Orphaned ==> AdditionsOf(s, o, reading) == AdditionsOf(s', o, reading)
  {
    hide CloseAgainst, Closable, ChainOf, OrphanViolations;
  }

  lemma OrphanAdditions(s: State, o: ReplayOrder, reading: Reading)
    requires FateOf(s, reading) == Orphaned
    ensures AdditionsOf(s, o, reading) == Additions([], [], [Orphan(o.order.id, reading.intent)],
      (if reading.breach.Some? then [reading.breach.value] else []) +
      OrphanViolations(o.order.id, reading.intent, s.Opposite(reading.intent) != []))
  {}

  /** An order of this side adds the same whatever the other book is. */
  lemma OnSideAddsTheSame(long: bool, s: State, s': State, o: ReplayOrder, reading: Reading)
    requires OfBook(long, reading.intent) && BookOf(long, s) == BookOf(long, s')
    ensures OnSide(long, AdditionsOf(s, o, reading)) == OnSide(long, AdditionsOf(s', o, reading))
  {
    assert s.Book(reading.intent) == s'.Book(reading.intent);
    SameAdditions(s, s', o, reading);
    hide AdditionsOf, OnSide;
    if FateOf(s, reading) == Orphaned {
      OrphanOnSide(long, s, o, reading);
      OrphanOnSide(long, s', o, reading);
    }
  }

  lemma OrphanOnSide(long: bool, s: State, o: ReplayOrder, reading: Reading)
    requires FateOf(s, reading) == Orphaned
    ensures OnSide(long, AdditionsOf(s, o, reading)) ==
      OnSide(long, Additions([], [], [Orphan(o.order.id, reading.intent)],
        (if reading.breach.Some? then [reading.breach.value] else []) +
        OrphanViolations(o.order.id, reading.intent, false)))
  {
    OrphanAdditions(s, o, reading);
    OrphansIgnoringReversal(long, reading.breach, o.order.id, reading.intent, s.Opposite(reading.intent) != []);
    hide AdditionsOf, Filter, OrphanViolations;
  }

  lemma OrphansIgnoringReversal(long: bool, breach: Option<Violation>, id: string, intent: Intent, oppositeOpen: bool)
    ensures
      var first := if breach.Some? then [breach.value] else [];
      Filter(x => ViolationOn(long, x), first + OrphanViolations(id, intent, oppositeOpen)) ==
      Filter(x => ViolationOn(long, x), first + OrphanViolations(id, intent, false))
  {
    var first := if breach.Some? then [breach.value] else [];
    if oppositeOpen {
      var reversal := Violation(id, UnsupportedReversal, intent, 0.0);
      assert first + OrphanViolations(id, intent, true) == first + OrphanViolations(id, intent, false) + [reversal];
      FilterSnoc(x => ViolationOn(long, x), first + OrphanViolations(id, intent, false), reversal);
    }
  }

  lemma ViewStep(long: bool, s: State, o: ReplayOrder)
    ensures ViewOf(long, Step(s, o)).lists == Joined(ViewOf(long, s).lists, OnSide(long, AdditionsOf(s, o, Read(o))))
  {
    StepEffects(s, o);
    hide Step, AdditionsOf, OnSide;
    var r := s.result;
    OnSideJoined(long, Additions(r.ignored, r.chains, r.orphans, r.violations), AdditionsOf(s, o, Read(o)));
  }

  lemma OffSideStep(long: bool, s: State, o: ReplayOrder)
    requires !OfBook(long, IntentOf(o))
    ensures ViewOf(long, Step(s, o)) == ViewOf(long, s)
  {
    ReadNames(o);
    ViewStep(long, s, o);
    StepBook(long, s, o);
    OffSideAddsNothing(long, s, o, Read(o));
    hide Step, AdditionsOf, CloseAgainst, Filter;
    JoinedNothing(ViewOf(long, s).lists);
  }

  lemma JoinedNothing(a: Additions)
    ensures Joined(a, NOTHING) == a
  {}

  lemma OnSideStep(long: bool, s: State, s': State, o: ReplayOrder)
    requires OfBook(long, IntentOf(o)) && ViewOf(long, s) == ViewOf(long, s')
    ensures ViewOf(long, Step(s, o)) == ViewOf(long, Step(s', o))
  {
    ViewStep(long, s, o);
    ViewStep(long, s', o);
    StepBook(long, s, o);
    StepBook(long, s', o);
    OnSideAddsTheSame(long, s, s', o, Read(o));
    hide Step, AdditionsOf, CloseAgainst, Filter, OnSide, Joined;
  }

  /** For every stream, what a replay shows of one side is what replaying that side's orders alone
      shows: book, chains, orphans, ignored orders and all violations but reversals. */
  lemma {:induction false} SidesDoNotInterfere(long: bool, orders: seq<ReplayOrder>)
    ensures ViewOf(long, Run(orders)) == ViewOf(long, Run(SideOrders(long, orders)))
  {
    hide Step, ViewOf;
    if orders != [] {
      var init, o := orders[..|orders| - 1], orders[|orders| - 1];
      SidesDoNotInterfere(long, init);
      if OfBook(long, IntentOf(o)) {
        OnSideStep(long, Run(init), Run(SideOrders(long, init)), o);
        assert (SideOrders(long, init) + [o])[..|SideOrders(long, init)|] == SideOrders(long, init);
      } else {
        OffSideStep(long, Run(init), o);
        assert SideOrders(long, orders) == SideOrders(long, init);
      }
    }
  }
}
