/** The offline order replay: filled orders are matched last-in first-out over one book of open
    entries per side, with partial quantities and a quantity tolerance. */
module Replay {
  import opened Options
  import opened Seqs
  import opened Text
  import opened Orders

  const TOLERANCE := 0.000000001

  // ----- input -----

  /** One line of the replay input; `order` holds the fields an order shares with the platform. */
  datatype ReplayOrder = ReplayOrder(order: Order, signalKind: string)

  function EffectiveSignalKind(o: ReplayOrder): string {
    var own := TrimSpace(o.signalKind);
    if own != "" then own
    else if "signalKind" in o.order.metadata then TrimSpace(Printed(o.order.metadata["signalKind"]))
    else ""
  }

  function ToDomainOrder(o: ReplayOrder): Order {
    var own := TrimSpace(o.signalKind);
    if own != "" then o.order.(metadata := o.order.metadata["signalKind" := Words(own)]) else o.order
  }

  function IntentOf(o: ReplayOrder): Intent {
    ClassifyOrderIntent(ToDomainOrder(o))
  }

  // ----- output -----

  datatype ChainType = OpenLongCloseLong | OpenShortCloseShort

  datatype Chain = Chain(
    chainType: ChainType,
    entryOrderIDs: seq<string>,
    exitOrderIDs: seq<string>,
    entryIntents: seq<Intent>,
    exitIntents: seq<Intent>,
    display: string)

  datatype IgnoredReason = CancelledEntry | CancelledExit | RejectedEntry | RejectedExit | NotFilled

  datatype Ignored = Ignored(orderID: string, intent: Intent, reason: IgnoredReason)

  /** The reason is always that no position matches. */
  datatype Orphan = Orphan(orderID: string, intent: Intent)

  datatype Code =
    | ExitWithoutPosition
    | ReduceOnlyWithoutPosition
    | SignalKindIntentMismatch
    | UnsupportedReversal
    | QuantityMismatch
    | UnknownIntentCode

  /** The message text is a rendering of the intent and, for a quantity mismatch, of the excess. */
  datatype Violation = Violation(orderID: string, code: Code, intent: Intent, excess: real)

  datatype Result = Result(
    chains: seq<Chain>,
    ignored: seq<Ignored>,
    orphans: seq<Orphan>,
    violations: seq<Violation>)

  // ----- constraints -----

  const ENTRY_SIGNAL_KINDS := {
    "initial", "initial-entry", "zero-initial-reentry", "sl-reentry", "pt-reentry", "entry"
  }

  const EXIT_SIGNAL_KINDS := {"risk-exit", "sl", "pt", "protect-exit", "recovery-watchdog"}

  function CheckSignalKindContract(orderID: string, signalKind: string, intent: Intent): Option<Violation> {
    var kind := ToLower(TrimSpace(signalKind));
    if kind == "" then None
    else if kind in ENTRY_SIGNAL_KINDS && !intent.IsEntry() then
      Some(Violation(orderID, SignalKindIntentMismatch, intent, 0.0))
    else if kind in EXIT_SIGNAL_KINDS && !intent.IsExit() then
      Some(Violation(orderID, SignalKindIntentMismatch, intent, 0.0))
    else None
  }

  function CheckReduceOnlyConstraint(o: Order, intent: Intent, hasMatchingPosition: bool): Option<Violation> {
    if hasMatchingPosition then None
    else if !EffectiveReduceOnly(o) && !EffectiveClosePosition(o) then None
    else Some(Violation(o.id, ReduceOnlyWithoutPosition, intent, 0.0))
  }

  function IgnoredReasonOf(status: string, intent: Intent): Option<IgnoredReason> {
    if status == "CANCELLED" || status == "CANCELED" then
      Some(if intent.IsExit() then CancelledExit else CancelledEntry)
    else if status == "REJECTED" then
      Some(if intent.IsExit() then RejectedExit else RejectedEntry)
    else if status != "FILLED" then Some(NotFilled)
    else None
  }

  // ----- the books -----

  datatype Entry = Entry(orderID: string, intent: Intent, signalKind: string, quantity: real, remaining: real)

  function EntryFromOrder(o: ReplayOrder): Entry {
    Entry(o.order.id, IntentOf(o), EffectiveSignalKind(o), o.order.quantity, o.order.quantity)
  }

  /** The quantity an exit sees on an entry. */
  function Available(e: Entry): real {
    if e.remaining <= 0.0 then e.quantity else e.remaining
  }

  function Min(a: real, b: real): real { if a <= b then a else b }

  /** What the consuming loop leaves: the entries it took from, newest first and each with the
      taken quantity as its remaining one, the book, and the part of the exit left unmatched. */
  datatype Consumption = Consumption(consumed: seq<Entry>, book: seq<Entry>, rest: real)

  function Consume(book: seq<Entry>, rest: real): Consumption {
    if rest <= TOLERANCE || book == [] then Consumption([], book, rest)
    else
      var top, below := book[|book| - 1], book[..|book| - 1];
      var available := Available(top);
      if available <= TOLERANCE then Consume(below, rest)
      else
        var take := Min(available, rest);
        var taken := top.(remaining := take);
        if available - take <= TOLERANCE then
          Prefixed([taken], Consume(below, rest - take))
        else
          Consumption([taken], below + [top.(remaining := available - take)], 0.0)
  }

  function Prefixed(taken: seq<Entry>, c: Consumption): Consumption {
    c.(consumed := taken + c.consumed)
  }

  lemma PrefixedTwice(a: seq<Entry>, b: seq<Entry>, c: Consumption)
    ensures Prefixed(a, Prefixed(b, c)) == Prefixed(a + b, c)
  {
    assert a + (b + c.consumed) == a + b + c.consumed;
  }

  function IDs(entries: seq<Entry>): (ids: seq<string>)
    ensures |ids| == |entries| && forall k :: 0 <= k < |ids| ==> ids[k] == entries[k].orderID
  {
    seq(|entries|, k requires 0 <= k < |entries| => entries[k].orderID)
  }

  function Intents(entries: seq<Entry>): seq<Intent> {
    seq(|entries|, k requires 0 <= k < |entries| => entries[k].intent)
  }

  function ChainOf(chainType: ChainType, entries: seq<Entry>, exit: ReplayOrder, intent: Intent): Chain {
    Chain(chainType, IDs(entries), [exit.order.id], Intents(entries), [intent],
          if entries == [] then intent.Label()
          else entries[0].intent.Label() + " \U{2192} " + intent.Label())
  }

  /** The effect of an exit on a non-empty book: the entries closed in arrival order, each with the
      closed quantity as its remaining one, the book left, and the mismatch if there is one. */
  datatype ExitOutcome = ExitOutcome(closed: seq<Entry>, book: seq<Entry>, mismatch: Option<real>)

  function CloseAgainst(book: seq<Entry>, quantity: real): ExitOutcome
    requires book != []
  {
    if quantity <= 0.0 then ExitOutcome([book[|book| - 1]], book[..|book| - 1], None)
    else
      var c := Consume(book, quantity);
      ExitOutcome(Reversed(c.consumed), c.book, if c.rest > TOLERANCE then Some(c.rest) else None)
  }

  datatype State = State(result: Result, longs: seq<Entry>, shorts: seq<Entry>) {
    function Book(intent: Intent): seq<Entry> {
      if intent == OpenLong || intent == CloseLong then longs else shorts
    }

    function WithBook(intent: Intent, book: seq<Entry>): State {
      if intent == OpenLong || intent == CloseLong then this.(longs := book) else this.(shorts := book)
    }

    function Opposite(intent: Intent): seq<Entry> {
      if intent == OpenLong || intent == CloseLong then shorts else longs
    }
  }

  const INITIAL := State(Result([], [], [], []), [], [])

  function Report(r: Result, v: Option<Violation>): Result {
    if v.Some? then r.(violations := r.violations + [v.value]) else r
  }

  function AppendExitViolation(r: Result, o: ReplayOrder, intent: Intent, oppositeOpen: bool): Result {
    var r1 := r.(orphans := r.orphans + [Orphan(o.order.id, intent)]);
    var r2 := Report(r1, CheckReduceOnlyConstraint(ToDomainOrder(o), intent, false));
    var r3 := Report(r2, Some(Violation(o.order.id, ExitWithoutPosition, intent, 0.0)));
    if oppositeOpen then Report(r3, Some(Violation(o.order.id, UnsupportedReversal, intent, 0.0))) else r3
  }

  function AppendChain(r: Result, chain: Chain, o: ReplayOrder, intent: Intent, mismatch: Option<real>): Result {
    var r1 := r.(chains := r.chains + [chain]);
    if mismatch.Some? then Report(r1, Some(Violation(o.order.id, QuantityMismatch, intent, mismatch.value))) else r1
  }

  function ChainTypeOf(intent: Intent): ChainType {
    if intent == CloseLong then OpenLongCloseLong else OpenShortCloseShort
  }

  function StepExit(s: State, o: ReplayOrder, intent: Intent): State
    requires intent.IsExit()
  {
    if s.Book(intent) == [] then
      s.(result := AppendExitViolation(s.result, o, intent, s.Opposite(intent) != []))
    else
      var out := CloseAgainst(s.Book(intent), o.order.quantity);
      var chain := ChainOf(ChainTypeOf(intent), out.closed, o, intent);
      s.WithBook(intent, out.book).(result := AppendChain(s.result, chain, o, intent, out.mismatch))
  }

  function StatusOf(o: ReplayOrder): string {
    ToUpper(TrimSpace(o.order.status))
  }

  /** What an order is, whatever the state: its intent, why it is ignored if it is, and the breach
      of the signal-kind contract if there is one. */
  datatype Reading = Reading(intent: Intent, ignored: Option<IgnoredReason>, breach: Option<Violation>)

  function Read(o: ReplayOrder): Reading {
    var intent := IntentOf(o);
    Reading(intent, IgnoredReasonOf(StatusOf(o), intent),
            CheckSignalKindContract(o.order.id, EffectiveSignalKind(o), intent))
  }

  function StepRead(s: State, o: ReplayOrder, reading: Reading): State {
    var intent := reading.intent;
    if reading.ignored.Some? then
      s.(result := s.result.(ignored := s.result.ignored + [Ignored(o.order.id, intent, reading.ignored.value)]))
    else
      var s1 := s.(result := Report(s.result, reading.breach));
      if intent.IsEntry() then s1.WithBook(intent, s1.Book(intent) + [EntryFromOrder(o)])
      else if intent.IsExit() then StepExit(s1, o, intent)
      else s1.(result := Report(s1.result, Some(Violation(o.order.id, UnknownIntentCode, intent, 0.0))))
  }

  /** One iteration of the replay loop. */
  function Step(s: State, o: ReplayOrder): State {
    StepRead(s, o, Read(o))
  }

  /** The state after a whole stream. */
  function Run(orders: seq<ReplayOrder>): State {
    if orders == [] then INITIAL else Step(Run(orders[..|orders| - 1]), orders[|orders| - 1])
  }

  // ----- the program -----

  method ChronologicalReplayEntries(entries: seq<Entry>) returns (chronological: seq<Entry>)
    ensures chronological == Reversed(entries)
  {
    chronological := [];
    var i := |entries| - 1;
    while i >= 0
      invariant -1 <= i < |entries|
      invariant |chronological| == |entries| - 1 - i
      invariant forall k :: 0 <= k < |chronological| ==> chronological[k] == entries[|entries| - 1 - k]
    {
      chronological := chronological + [entries[i]];
      i := i - 1;
    }
    ReversedIs(entries, chronological);
  }

  method TradingReplayChain(chainType: ChainType, entries: seq<Entry>, exit: ReplayOrder, intent: Intent)
    returns (chain: Chain)
    ensures chain == ChainOf(chainType, entries, exit, intent)
  {
    chain := Chain(chainType, [], [exit.order.id], [], [intent], intent.Label());
    for i := 0 to |entries|
      invariant chain.chainType == chainType
      invariant chain.exitOrderIDs == [exit.order.id] && chain.exitIntents == [intent]
      invariant chain.entryOrderIDs == IDs(entries[..i]) && chain.entryIntents == Intents(entries[..i])
      invariant chain.display == ChainOf(chainType, entries[..i], exit, intent).display
    {
      chain := chain.(entryOrderIDs := chain.entryOrderIDs + [entries[i].orderID],
                      entryIntents := chain.entryIntents + [entries[i].intent]);
      if chain.display == intent.Label() {
        chain := chain.(display := entries[i].intent.Label() + " \U{2192} " + intent.Label());
      }
    }
    assert entries[..|entries|] == entries;
  }

  /** The consuming loop of an exit with a positive quantity. */
  method ConsumeLoop(book: seq<Entry>, quantity: real)
    returns (consumed: seq<Entry>, stack: seq<Entry>, remainingExit: real)
    ensures Consumption(consumed, stack, remainingExit) == Consume(book, quantity)
  {
    stack, remainingExit, consumed := book, quantity, [];
    ghost var whole := Consume(book, quantity);
    while remainingExit > TOLERANCE && |stack| > 0
      invariant whole == Prefixed(consumed, Consume(stack, remainingExit))
      decreases |stack|, if remainingExit > TOLERANCE then 1 else 0
    {
      ghost var before, left := consumed, Consume(stack, remainingExit);
      var idx := |stack| - 1;
      var entry := stack[idx];
      var entryRemaining := entry.remaining;
      if entryRemaining <= 0.0 {
        entryRemaining := entry.quantity;
      }
      if entryRemaining <= TOLERANCE {
        stack := stack[..idx];
        continue;
      }
      var take := Min(entryRemaining, remainingExit);
      entry := entry.(remaining := take);
      consumed := consumed + [entry];
      entryRemaining := entryRemaining - take;
      remainingExit := remainingExit - take;
      if entryRemaining <= TOLERANCE {
        stack := stack[..idx];
      } else {
        stack := stack[idx := stack[idx].(remaining := entryRemaining)];
        assert stack == stack[..idx] + [stack[idx]];
      }
      assert left == Prefixed([entry], Consume(stack, remainingExit));
      PrefixedTwice(before, [entry], Consume(stack, remainingExit));
    }
    assert whole.consumed == consumed + [];
  }

  method ConsumeTradingReplayExit(chainType: ChainType, book: seq<Entry>, exit: ReplayOrder, intent: Intent)
    returns (chain: Chain, stack: seq<Entry>, mismatch: Option<real>)
    requires book != []
    ensures var out := CloseAgainst(book, exit.order.quantity);
      chain == ChainOf(chainType, out.closed, exit, intent) && stack == out.book && mismatch == out.mismatch
  {
    if exit.order.quantity <= 0.0 {
      var entry := book[|book| - 1];
      stack := book[..|book| - 1];
      chain := TradingReplayChain(chainType, [entry], exit, intent);
      return chain, stack, None;
    }
    var consumed, remainingExit;
    consumed, stack, remainingExit := ConsumeLoop(book, exit.order.quantity);
    var chronological := ChronologicalReplayEntries(consumed);
    chain := TradingReplayChain(chainType, chronological, exit, intent);
    mismatch := if remainingExit > TOLERANCE then Some(remainingExit) else None;
  }

  /** The body of the replay loop. */
  method ReplayOne(result0: Result, longs: seq<Entry>, shorts: seq<Entry>, order: ReplayOrder)
    returns (result: Result, longEntryStack: seq<Entry>, shortEntryStack: seq<Entry>)
    ensures State(result, longEntryStack, shortEntryStack) == Step(State(result0, longs, shorts), order)
  {
    result, longEntryStack, shortEntryStack := result0, longs, shorts;
    var intent := IntentOf(order);
    var reason := IgnoredReasonOf(StatusOf(order), intent);
    if reason.Some? {
      result := result.(ignored := result.ignored + [Ignored(order.order.id, intent, reason.value)]);
      return;
    }
    result := Report(result, CheckSignalKindContract(order.order.id, EffectiveSignalKind(order), intent));
    match intent
    case OpenLong =>
      longEntryStack := longEntryStack + [EntryFromOrder(order)];
    case OpenShort =>
      shortEntryStack := shortEntryStack + [EntryFromOrder(order)];
    case CloseLong =>
      if |longEntryStack| == 0 {
        result := AppendExitViolation(result, order, intent, |shortEntryStack| > 0);
        return;
      }
      var chain, stack, mismatch := ConsumeTradingReplayExit(OpenLongCloseLong, longEntryStack, order, intent);
      longEntryStack := stack;
      result := AppendChain(result, chain, order, intent, mismatch);
    case CloseShort =>
      if |shortEntryStack| == 0 {
        result := AppendExitViolation(result, order, intent, |longEntryStack| > 0);
        return;
      }
      var chain, stack, mismatch := ConsumeTradingReplayExit(OpenShortCloseShort, shortEntryStack, order, intent);
      shortEntryStack := stack;
      result := AppendChain(result, chain, order, intent, mismatch);
    case UnknownIntent =>
      result := Report(result, Some(Violation(order.order.id, UnknownIntentCode, intent, 0.0)));
  }

  /** The replay loop computes the fold of `Step` over the stream. */
  method ReplayTradingOrders(orders: seq<ReplayOrder>) returns (result: Result)
    ensures result == Run(orders).result
  {
    result := Result([], [], [], []);
    var longEntryStack: seq<Entry>, shortEntryStack: seq<Entry> := [], [];
    for i := 0 to |orders|
      invariant State(result, longEntryStack, shortEntryStack) == Run(orders[..i])
    {
      result, longEntryStack, shortEntryStack := ReplayOne(result, longEntryStack, shortEntryStack, orders[i]);
      assert orders[..i + 1][..i] == orders[..i];
    }
    assert orders[..|orders|] == orders;
  }
}
