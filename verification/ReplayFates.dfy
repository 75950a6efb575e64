/** Every order of a replay has exactly one fate, and the fates determine the violations. */
module ReplayFates {
  import opened Options
  import opened Orders
  import opened Replay
  import opened ReplayConservation

  datatype Fate = Dismissed | Opened | Chained | Orphaned | NotUnderstood

  function FateOf(s: State, reading: Reading): Fate {
    if reading.ignored.Some? then Dismissed
    else if reading.intent.IsEntry() then Opened
    else if reading.intent == UnknownIntent then NotUnderstood
    else if s.Book(reading.intent) == [] then Orphaned
    else Chained
  }

  /** The fate of the `k`-th order of a stream. */
  function FateAt(orders: seq<ReplayOrder>, k: nat): Fate
    requires k < |orders|
  {
    FateOf(Run(orders[..k]), Read(orders[k]))
  }

  function IDsWithFate(orders: seq<ReplayOrder>, f: Fate): seq<string> {
    if orders == [] then []
    else
      var init := orders[..|orders| - 1];
      IDsWithFate(init, f) + if FateAt(orders, |init|) == f then [orders[|init|].order.id] else []
  }

  /** An exit without a matching position always breaks the reduce-only constraint too. */
  lemma ExitIsReduceOnly(o: ReplayOrder)
    requires IntentOf(o).IsExit()
    ensures CheckReduceOnlyConstraint(ToDomainOrder(o), IntentOf(o), false) ==
      Some(Violation(o.order.id, ReduceOnlyWithoutPosition, IntentOf(o), 0.0))
  {}

  /** The violations an order deserves, by its fate alone; a mismatch is decided by the closable
      quantity, not by running the consuming loop. */
  ghost function Deserved(s: State, id: string, quantity: real, reading: Reading): seq<Violation> {
    var intent, fate := reading.intent, FateOf(s, reading);
    if fate == Dismissed then []
    else
      (if reading.breach.Some? then [reading.breach.value] else []) +
      match fate
      case Chained =>
        var excess := quantity - Closable(s.Book(intent));
        if quantity > 0.0 && excess > TOLERANCE then [Violation(id, QuantityMismatch, intent, excess)] else []
      case Orphaned => OrphanViolations(id, intent, s.Opposite(intent) != [])
      case NotUnderstood => [Violation(id, UnknownIntentCode, intent, 0.0)]
      case _ => []
  }

  function OrphanViolations(id: string, intent: Intent, oppositeOpen: bool): seq<Violation> {
    [Violation(id, ReduceOnlyWithoutPosition, intent, 0.0), Violation(id, ExitWithoutPosition, intent, 0.0)] +
    if oppositeOpen then [Violation(id, UnsupportedReversal, intent, 0.0)] else []
  }

  ghost function DeservedByAll(orders: seq<ReplayOrder>): seq<Violation> {
    if orders == [] then []
    else
      var init, o := orders[..|orders| - 1], orders[|orders| - 1];
      DeservedByAll(init) + Deserved(Run(init), o.order.id, o.order.quantity, Read(o))
  }

  function If<T>(test: bool, x: T): seq<T> { if test then [x] else [] }

  /** What one step appends to each list of the result. */
  datatype Additions = Additions(
    ignored: seq<Ignored>, chains: seq<Chain>, orphans: seq<Orphan>, violations: seq<Violation>)

  ghost function AdditionsOf(s: State, o: ReplayOrder, reading: Reading): Additions {
    var id, intent, fate := o.order.id, reading.intent, FateOf(s, reading);
    Additions(
      if fate == Dismissed then [Ignored(id, intent, reading.ignored.value)] else [],
      if fate == Chained
        then [ChainOf(ChainTypeOf(intent), CloseAgainst(s.Book(intent), o.order.quantity).closed, o, intent)]
        else [],
      if fate == Orphaned then [Orphan(id, intent)] else [],
      Deserved(s, id, o.order.quantity, reading))
  }

  function Extended(r: Result, more: Additions): Result {
    Result(r.chains + more.chains, r.ignored + more.ignored, r.orphans + more.orphans,
           r.violations + more.violations)
  }

  lemma OrphanEffects(s: State, o: ReplayOrder, reading: Reading)
    requires FateOf(s, reading) == Orphaned
    requires CheckReduceOnlyConstraint(ToDomainOrder(o), reading.intent, false) ==
      Some(Violation(o.order.id, ReduceOnlyWithoutPosition, reading.intent, 0.0))
    ensures StepRead(s, o, reading).result == Extended(s.result, AdditionsOf(s, o, reading))
  {
    hide CheckReduceOnlyConstraint, ToDomainOrder;
  }

  lemma ChainEffects(s: State, o: ReplayOrder, reading: Reading)
    requires FateOf(s, reading) == Chained
    ensures StepRead(s, o, reading).result == Extended(s.result, AdditionsOf(s, o, reading))
  {
    hide CloseAgainst, Closable, ChainOf;
    QuantityMismatchExact(s.Book(reading.intent), o.order.quantity);
  }

  lemma PlainEffects(s: State, o: ReplayOrder, reading: Reading)
    requires FateOf(s, reading) in {Dismissed, Opened, NotUnderstood}
    ensures StepRead(s, o, reading).result == Extended(s.result, AdditionsOf(s, o, reading))
  {
    hide CloseAgainst, Closable, StepExit, ChainOf, EntryFromOrder;
  }

  lemma StepReadEffects(s: State, o: ReplayOrder, reading: Reading)
    requires reading.intent.IsExit() ==>
      CheckReduceOnlyConstraint(ToDomainOrder(o), reading.intent, false) ==
        Some(Violation(o.order.id, ReduceOnlyWithoutPosition, reading.intent, 0.0))
    ensures StepRead(s, o, reading).result == Extended(s.result, AdditionsOf(s, o, reading))
  {
    FateOfExit(s, reading);
    hide CheckReduceOnlyConstraint, ToDomainOrder, StepRead, AdditionsOf, Extended, FateOf;
    match FateOf(s, reading)
    case Chained => ChainEffects(s, o, reading);
    case Orphaned => OrphanEffects(s, o, reading);
    case _ => PlainEffects(s, o, reading);
  }

  lemma FateOfExit(s: State, reading: Reading)
    ensures FateOf(s, reading) == Orphaned ==> reading.intent.IsExit()
  {}

  lemma StepEffects(s: State, o: ReplayOrder)
    ensures Step(s, o).result == Extended(s.result, AdditionsOf(s, o, Read(o)))
  {
    if IntentOf(o).IsExit() {
      ExitIsReduceOnly(o);
    }
    hide StepRead, AdditionsOf, Extended;
    StepReadEffects(s, o, Read(o));
  }

  /** The order named by each entry of a list; a chain names its exits. */
  function DismissedIDs(ignored: seq<Ignored>): seq<string> {
    seq(|ignored|, k requires 0 <= k < |ignored| => ignored[k].orderID)
  }

  function ExitIDs(chains: seq<Chain>): seq<seq<string>> {
    seq(|chains|, k requires 0 <= k < |chains| => chains[k].exitOrderIDs)
  }

  function OrphanIDs(orphans: seq<Orphan>): seq<string> {
    seq(|orphans|, k requires 0 <= k < |orphans| => orphans[k].orderID)
  }

  lemma StepIDs(s: State, o: ReplayOrder)
    ensures var r, r', fate, id := s.result, Step(s, o).result, FateOf(s, Read(o)), o.order.id;
      && DismissedIDs(r'.ignored) == DismissedIDs(r.ignored) + If(fate == Dismissed, id)
      && ExitIDs(r'.chains) == ExitIDs(r.chains) + If(fate == Chained, [id])
      && OrphanIDs(r'.orphans) == OrphanIDs(r.orphans) + If(fate == Orphaned, id)
  {
    StepEffects(s, o);
    hide Step, Deserved, CloseAgainst, Read;
  }

  // ----- whole runs -----

  function Singletons(ids: seq<string>): (r: seq<seq<string>>)
    ensures |r| == |ids| && forall k :: 0 <= k < |ids| ==> r[k] == [ids[k]]
  {
    seq(|ids|, k requires 0 <= k < |ids| => [ids[k]])
  }

  lemma FatesSnoc(orders: seq<ReplayOrder>, o: ReplayOrder, f: Fate)
    ensures IDsWithFate(orders + [o], f) ==
      IDsWithFate(orders, f) + If(FateOf(Run(orders), Read(o)) == f, o.order.id)
  {
    assert (orders + [o])[..|orders|] == orders;
  }

  /** The lists of a replay name, in stream order, exactly the orders with the matching fate, each
      chain with the one exit it stands for; and the five fates cover the stream. */
  lemma {:induction false} EveryOrderHasOneFate(orders: seq<ReplayOrder>)
    ensures DismissedIDs(Run(orders).result.ignored) == IDsWithFate(orders, Dismissed)
    ensures ExitIDs(Run(orders).result.chains) == Singletons(IDsWithFate(orders, Chained))
    ensures OrphanIDs(Run(orders).result.orphans) == IDsWithFate(orders, Orphaned)
    ensures |orders| == |IDsWithFate(orders, Dismissed)| + |IDsWithFate(orders, Opened)|
      + |IDsWithFate(orders, Chained)| + |IDsWithFate(orders, Orphaned)| + |IDsWithFate(orders, NotUnderstood)|
  {
    hide Step, FateOf, Read;
    if orders != [] {
      var init, o := orders[..|orders| - 1], orders[|orders| - 1];
      assert orders == init + [o];
      EveryOrderHasOneFate(init);
      StepIDs(Run(init), o);
      FatesSnoc(init, o, Dismissed);
      FatesSnoc(init, o, Opened);
      FatesSnoc(init, o, Chained);
      FatesSnoc(init, o, Orphaned);
      FatesSnoc(init, o, NotUnderstood);
    }
  }

  /** The violations of a replay are those its orders deserve, in stream order. */
  lemma {:induction false} ViolationsAreDeserved(orders: seq<ReplayOrder>)
    ensures Run(orders).result.violations == DeservedByAll(orders)
  {
    hide Step, Read, Deserved;
    if orders != [] {
      ViolationsAreDeserved(orders[..|orders| - 1]);
      StepEffects(Run(orders[..|orders| - 1]), orders[|orders| - 1]);
    }
  }

  /** The orders of a stream that satisfy a test on the state before them and their reading. */
  ghost function CountSteps(orders: seq<ReplayOrder>, test: (State, ReplayOrder) -> bool): nat {
    if orders == [] then 0
    else
      var init, o := orders[..|orders| - 1], orders[|orders| - 1];
      CountSteps(init, test) + if test(Run(init), o) then 1 else 0
  }

  ghost predicate BreachesContract(s: State, o: ReplayOrder) {
    FateOf(s, Read(o)) != Dismissed && Read(o).breach.Some?
  }

  ghost predicate Overshoots(s: State, o: ReplayOrder) {
    && FateOf(s, Read(o)) == Chained
    && o.order.quantity > 0.0 && o.order.quantity - Closable(s.Book(Read(o).intent)) > TOLERANCE
  }

  ghost predicate OrphanFacingOpposite(s: State, o: ReplayOrder) {
    FateOf(s, Read(o)) == Orphaned && s.Opposite(Read(o).intent) != []
  }

  lemma DeservedCount(s: State, o: ReplayOrder)
    ensures |Deserved(s, o.order.id, o.order.quantity, Read(o))| ==
      |If(BreachesContract(s, o), 0)| + |If(Overshoots(s, o), 0)| + |If(FateOf(s, Read(o)) == NotUnderstood, 0)|
      + 2 * |If(FateOf(s, Read(o)) == Orphaned, 0)| + |If(OrphanFacingOpposite(s, o), 0)|
  {
    hide Read, Closable;
  }

  /** The number of violations: one per contract breach, overshooting exit and unknown intent, two
      per orphan, and one more per orphan that faces an open opposite book. */
  lemma {:induction false} ViolationCount(orders: seq<ReplayOrder>)
    ensures |Run(orders).result.violations| ==
      CountSteps(orders, BreachesContract) + CountSteps(orders, Overshoots)
      + |IDsWithFate(orders, NotUnderstood)| + 2 * |IDsWithFate(orders, Orphaned)|
      + CountSteps(orders, OrphanFacingOpposite)
  {
    hide Step, FateOf, Read, Deserved, BreachesContract, Overshoots, OrphanFacingOpposite;
    if orders != [] {
      var init, o := orders[..|orders| - 1], orders[|orders| - 1];
      assert orders == init + [o];
      ViolationCount(init);
      StepEffects(Run(init), o);
      DeservedCount(Run(init), o);
      FatesSnoc(init, o, NotUnderstood);
      FatesSnoc(init, o, Orphaned);
    }
  }
}
