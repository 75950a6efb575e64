/** What every chain of a replay looks like. */
module ReplayChains {
  import opened Orders
  import opened Replay
  import opened ReplayConservation
  import opened Seqs

  // ----- what a chain says -----

  ghost predicate AllOf(intent: Intent, entries: seq<Entry>) {
    forall k :: 0 <= k < |entries| ==> entries[k].intent == intent
  }

  /** One exit and the entries it closed: opened longs by a closing long, or opened shorts by a closing
      short, named one by one, under the label of the exit alone when there are none. */
  ghost predicate Pairs(c: Chain) {
    var long := c.chainType == OpenLongCloseLong;
    && |c.exitOrderIDs| == 1 && c.exitIntents == [if long then CloseLong else CloseShort]
    && |c.entryOrderIDs| == |c.entryIntents|
    && (forall k :: 0 <= k < |c.entryIntents| ==> c.entryIntents[k] == if long then OpenLong else OpenShort)
    && c.display == match (long, c.entryOrderIDs == [])
       case (true, true) => "\U{5E73}\U{591A}"
       case (true, false) => "\U{5F00}\U{591A} \U{2192} \U{5E73}\U{591A}"
       case (false, true) => "\U{5E73}\U{7A7A}"
       case (false, false) => "\U{5F00}\U{7A7A} \U{2192} \U{5E73}\U{7A7A}"
  }

  ghost predicate ChainsOk(s: State) {
    && AllOf(OpenLong, s.longs) && AllOf(OpenShort, s.shorts)
    && forall c :: c in s.result.chains ==> Pairs(c)
  }

  // ----- one close -----

  lemma {:induction false} ConsumeKeepsIntent(book: seq<Entry>, quantity: real, intent: Intent)
    requires AllOf(intent, book)
    ensures AllOf(intent, Consume(book, quantity).consumed) && AllOf(intent, Consume(book, quantity).book)
    decreases |book|
  {
    if quantity > TOLERANCE && book != [] {
      var below, available := book[..|book| - 1], Available(book[|book| - 1]);
      ConsumeKeepsIntent(below, quantity, intent);
      ConsumeKeepsIntent(below, quantity - Min(available, quantity), intent);
    }
  }

  lemma ReversedKeepsIntent(entries: seq<Entry>, intent: Intent)
    requires AllOf(intent, entries)
    ensures AllOf(intent, Reversed(entries))
  {
    forall k | 0 <= k < |entries| ensures Reversed(entries)[k].intent == intent {
      ReversedAt(entries, k);
    }
  }

  lemma CloseKeepsIntent(book: seq<Entry>, quantity: real, intent: Intent)
    requires book != [] && AllOf(intent, book)
    ensures AllOf(intent, CloseAgainst(book, quantity).closed) && AllOf(intent, CloseAgainst(book, quantity).book)
  {
    hide Consume;
    ConsumeKeepsIntent(book, quantity, intent);
    ReversedKeepsIntent(Consume(book, quantity).consumed, intent);
  }

  lemma ChainPairs(entries: seq<Entry>, exit: ReplayOrder, intent: Intent)
    requires intent.IsExit() && AllOf(if intent == CloseLong then OpenLong else OpenShort, entries)
    ensures Pairs(ChainOf(ChainTypeOf(intent), entries, exit, intent))
  {
    var c := ChainOf(ChainTypeOf(intent), entries, exit, intent);
    assert c.entryOrderIDs == [] <==> entries == [];
  }

  // ----- a whole replay -----

  lemma ResultChains(s: State, o: ReplayOrder)
    ensures var chains, intent := s.result.chains, IntentOf(o);
      Step(s, o).result.chains ==
        if Filled(o) && intent.IsExit() && s.Book(intent) != []
        then chains + [ChainOf(ChainTypeOf(intent), CloseAgainst(s.Book(intent), o.order.quantity).closed, o, intent)]
        else chains
  {
    hide IntentOf, CloseAgainst, ChainOf, StatusOf, EntryFromOrder, CheckSignalKindContract, CheckReduceOnlyConstraint, ToDomainOrder;
  }

  lemma EntryIsOfIntent(o: ReplayOrder)
    ensures EntryFromOrder(o).intent == IntentOf(o)
  {}

  lemma StepKeeps(s: State, o: ReplayOrder)
    requires ChainsOk(s)
    ensures ChainsOk(Step(s, o))
  {
    hide Step, IntentOf, CloseAgainst, ChainOf, Filled, Pairs, EntryFromOrder;
    StepBook(true, s, o);
    StepBook(false, s, o);
    ResultChains(s, o);
    EntryIsOfIntent(o);
    if s.longs != [] {
      CloseKeepsIntent(s.longs, o.order.quantity, OpenLong);
    }
    if s.shorts != [] {
      CloseKeepsIntent(s.shorts, o.order.quantity, OpenShort);
    }
    var intent := IntentOf(o);
    if intent.IsExit() && s.Book(intent) != [] {
      ChainPairs(CloseAgainst(s.Book(intent), o.order.quantity).closed, o, intent);
    }
  }

  /** In every replay the books hold entries of their own side only, and every chain pairs one exit with the
      entries it closed. */
  lemma {:induction false} ChainsMatch(orders: seq<ReplayOrder>)
    ensures ChainsOk(Run(orders))
  {
    hide ChainsOk, Step;
    if orders == [] {
      NothingChained();
    } else {
      ChainsMatch(orders[..|orders| - 1]);
      StepKeeps(Run(orders[..|orders| - 1]), orders[|orders| - 1]);
    }
  }

  lemma NothingChained()
    ensures ChainsOk(INITIAL)
  {}
}
