/** An order in its own words: side, status and flags as they are written, and what follows from them. */
module OrderTexts {
  import opened Options
  import opened Orders
  import opened Replay
  import opened ReplayConservation
  import opened ReplayFates
  import opened Text

  // ----- what an order says -----

  predicate Says(text: string, word: string) { ToUpper(TrimSpace(text)) == word }

  predicate Buys(o: ReplayOrder) { Says(o.order.side, "BUY") }

  predicate Sells(o: ReplayOrder) { Says(o.order.side, "SELL") }

  predicate Executed(o: ReplayOrder) { Says(o.order.status, "FILLED") }

  /** A metadata entry is set when it is the boolean or the word for true. */
  ghost predicate IsSet(metadata: map<string, MetaValue>, key: string) {
    key in metadata &&
    (metadata[key] == Flag(true) || exists text :: metadata[key] == Words(text) && ToLower(TrimSpace(text)) == "true")
  }

  /** Some flag, as a field or in the metadata, makes the order an exit. */
  ghost predicate Flagged(o: ReplayOrder) {
    || o.order.reduceOnly || o.order.closePosition
    || IsSet(o.order.metadata, "reduceOnly") || IsSet(o.order.metadata, "closePosition")
  }

  /** The order names the long side, as an entry or as an exit. */
  ghost predicate OnLong(o: ReplayOrder) { if Flagged(o) then Sells(o) else Buys(o) }

  ghost predicate OnShort(o: ReplayOrder) { if Flagged(o) then Buys(o) else Sells(o) }

  ghost predicate On(long: bool, o: ReplayOrder) { if long then OnLong(o) else OnShort(o) }

  lemma SetIsFlagValue(metadata: map<string, MetaValue>, key: string)
    ensures FlagValue(metadata, key) <==> IsSet(metadata, key)
  {}

  lemma OwnKindKeepsFlags(o: ReplayOrder)
    ensures FlagValue(ToDomainOrder(o).metadata, "reduceOnly") == FlagValue(o.order.metadata, "reduceOnly")
    ensures FlagValue(ToDomainOrder(o).metadata, "closePosition") == FlagValue(o.order.metadata, "closePosition")
  {
    hide TrimSpace, ToLower;
  }

  /** The classification, from side text and flags: buying opens longs and closes shorts, selling opens
      shorts and closes longs, and the flags decide which. */
  lemma IntentIsSideAndFlags(o: ReplayOrder)
    ensures IntentOf(o).IsExit() <==> Flagged(o) && (Buys(o) || Sells(o))
    ensures IntentOf(o).IsEntry() <==> !Flagged(o) && (Buys(o) || Sells(o))
    ensures OfBook(true, IntentOf(o)) <==> OnLong(o)
    ensures OfBook(false, IntentOf(o)) <==> OnShort(o)
  {
    hide TrimSpace, ToLower, ToUpper;
    SetIsFlagValue(o.order.metadata, "reduceOnly");
    SetIsFlagValue(o.order.metadata, "closePosition");
    OwnKindKeepsFlags(o);
  }

  // ----- fates -----

  predicate Cancelled(o: ReplayOrder) { Says(o.order.status, "CANCELLED") || Says(o.order.status, "CANCELED") }

  predicate Rejected(o: ReplayOrder) { Says(o.order.status, "REJECTED") }

  /** The kind an order is labelled with: its own, or else that of its metadata. */
  function Labelled(o: ReplayOrder): string {
    var own := ToLower(TrimSpace(o.signalKind));
    if own != "" then own
    else if "signalKind" in o.order.metadata then ToLower(TrimSpace(Printed(o.order.metadata["signalKind"])))
    else ""
  }

  /** Every order's fate, from its words and the book of the side it names: an order that is not executed
      is ignored, for a reason that says what it would have been; one without a side is not understood;
      one without a flag opens; one with a flag closes, or is an orphan when nothing is open. Its label
      is a breach when it names an entry and the order is none, or an exit and the order is none. */
  lemma FateByWords(s: State, o: ReplayOrder)
    ensures var fate, sided, exit := FateOf(s, Read(o)), Buys(o) || Sells(o), Flagged(o) && (Buys(o) || Sells(o));
      && (fate == Dismissed <==> !Executed(o))
      && (fate == NotUnderstood <==> Executed(o) && !sided)
      && (fate == Opened <==> Executed(o) && sided && !Flagged(o))
      && (fate == Orphaned <==> Executed(o) && exit && (if Sells(o) then s.longs == [] else s.shorts == []))
      && (fate == Chained <==> Executed(o) && exit && (if Sells(o) then s.longs != [] else s.shorts != []))
      && (Read(o).breach.Some? <==>
            (Labelled(o) in ENTRY_SIGNAL_KINDS && !(sided && !Flagged(o))) || (Labelled(o) in EXIT_SIGNAL_KINDS && !exit))
      && (!Executed(o) ==>
            Read(o).ignored == Some(if Cancelled(o) then if exit then CancelledExit else CancelledEntry
                                    else if Rejected(o) then if exit then RejectedExit else RejectedEntry
                                    else NotFilled))
  {
    hide TrimSpace, ToLower, ToUpper, IntentOf, Flagged, EffectiveSignalKind, Printed;
    IntentIsSideAndFlags(o);
    LabelIsKind(o);
  }

  /** An exit that finds nothing open on its side breaks the reduce-only rule and closes no position; it
      would be a reversal when the other side is open. */
  lemma OrphanByWords(s: State, o: ReplayOrder)
    requires Executed(o) && Flagged(o) && ((Sells(o) && s.longs == []) || (Buys(o) && s.shorts == []))
    ensures var id, intent := o.order.id, if Sells(o) then CloseLong else CloseShort;
      var reversal := if Sells(o) then s.shorts != [] else s.longs != [];
      Step(s, o).result.violations == s.result.violations +
        ((if Read(o).breach.Some? then [Read(o).breach.value] else []) +
         ([Violation(id, ReduceOnlyWithoutPosition, intent, 0.0), Violation(id, ExitWithoutPosition, intent, 0.0)] +
          if reversal then [Violation(id, UnsupportedReversal, intent, 0.0)] else []))
  {
    hide Step, Read, IntentOf, Flagged, ToUpper, TrimSpace;
    IntentIsSideAndFlags(o);
    BuysOrSells(o);
    FateByWords(s, o);
    ReadIntent(o);
    StepEffects(s, o);
  }

  lemma ReadIntent(o: ReplayOrder)
    ensures Read(o).intent == IntentOf(o)
  {}

  lemma BuysOrSells(o: ReplayOrder)
    ensures !(Buys(o) && Sells(o))
  {}

  lemma LabelIsKind(o: ReplayOrder)
    ensures ToLower(TrimSpace(EffectiveSignalKind(o))) == Labelled(o)
  {
    hide TrimSpace, ToLower, Printed;
    TrimTwice(o.signalKind);
    assert ToLower("") == "";
    if "signalKind" in o.order.metadata {
      TrimTwice(Printed(o.order.metadata["signalKind"]));
    }
  }

  lemma TrimTwice(text: string)
    ensures TrimSpace(TrimSpace(text)) == TrimSpace(text)
    ensures ToLower(TrimSpace(text)) == "" <==> TrimSpace(text) == ""
  {
    TrimSpaceTrims(text);
    TrimSpaceTrims(TrimSpace(text));
  }
}
