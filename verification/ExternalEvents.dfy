/** External breakout events: preparing them, choosing the next one, and what a whole replay does
    with them. */
module ExternalEvents {
  import opened Market
  import opened Options
  import opened SecondReplay
  import opened Text

  // ----- preparing -----

  /** An event as handed in: a missing column is `None` or empty. `shapeNames` are the columns that
      may name the shape, the preferred one first. */
  datatype Record = Record(
    side: string, signalStart: Option<int>, touchTime: Option<int>, symbol: string, eventKey: string,
    shapeNames: seq<string>)

  type Slot = (int, Side)

  function SideNamed(text: string): Option<Side> {
    var name := TrimSpace(ToLower(text));
    if name == "long" then Some(Long) else if name == "short" then Some(Short) else None
  }

  function FirstNonEmpty(names: seq<string>, default: string): string {
    if names == [] then default
    else if names[0] != "" then names[0] else FirstNonEmpty(names[1..], default)
  }

  /** The key of a record without one is made of its symbol, times and side; `iso` prints a time. */
  function KeyOf(r: Record, start: int, touch: int, side: Side, iso: int -> string): (key: string)
    ensures key != ""
  {
    var given := TrimSpace(r.eventKey);
    if given != "" then given
    else r.symbol + "|" + iso(start) + "|" + iso(touch) + "|" + if side == Long then "long" else "short"
  }

  /** Records without a known side or without both times are dropped. */
  function EventOf(r: Record, default: string, iso: int -> string): Option<(Slot, ExternalEvent)> {
    var side := SideNamed(r.side);
    if side.None? || r.signalStart.None? || r.touchTime.None? then None
    else
      var start, touch := r.signalStart.value, r.touchTime.value;
      Some(((start, side.value),
            ExternalEvent(KeyOf(r, start, touch, side.value, iso), FirstNonEmpty(r.shapeNames, default), touch)))
  }

  /** The events of one signal bar and side, in the order of the records. */
  function Listed(records: seq<Record>, slot: Slot, default: string, iso: int -> string): seq<ExternalEvent> {
    if records == [] then []
    else
      var event := EventOf(records[|records| - 1], default, iso);
      Listed(records[..|records| - 1], slot, default, iso) +
      if event.Some? && event.value.0 == slot then [event.value.1] else []
  }

  /** A stable sort by touch time. */
  function SortByTouch(events: seq<ExternalEvent>): seq<ExternalEvent> {
    if events == [] then []
    else InsertByTouch(SortByTouch(events[..|events| - 1]), events[|events| - 1])
  }

  function InsertByTouch(events: seq<ExternalEvent>, e: ExternalEvent): seq<ExternalEvent> {
    if events != [] && events[|events| - 1].touchTime > e.touchTime
    then InsertByTouch(events[..|events| - 1], e) + [events[|events| - 1]]
    else events + [e]
  }

  /** The prepared events of every slot are the listed ones, by touch time. */
  ghost predicate Arranged(prepared: map<Slot, seq<ExternalEvent>>, records: seq<Record>, default: string, iso: int -> string) {
    && (forall slot :: slot in prepared <==> Listed(records, slot, default, iso) != [])
    && (forall slot :: slot in prepared ==> prepared[slot] == SortByTouch(Listed(records, slot, default, iso)))
  }

  /** `_prepare_external_breakout_events`: group by signal bar and side, then sort each group. */
  method Prepare(records: seq<Record>, default: string, iso: int -> string)
    returns (prepared: map<Slot, seq<ExternalEvent>>)
    ensures Arranged(prepared, records, default, iso) && ByRecords(prepared, records, default, iso)
  {
    hide EventOf, SortByTouch, ByRecords;
    prepared := map[];
    for i := 0 to |records|
      invariant forall slot :: slot in prepared <==> Listed(records[..i], slot, default, iso) != []
      invariant forall slot :: slot in prepared ==> prepared[slot] == Listed(records[..i], slot, default, iso)
    {
      assert records[..i + 1][..i] == records[..i];
      var event := EventOf(records[i], default, iso);
      if event.None? {
        continue;
      }
      var slot := event.value.0;
      if slot !in prepared {
        prepared := prepared[slot := []];
      }
      prepared := prepared[slot := prepared[slot] + [event.value.1]];
    }
    assert records[..|records|] == records;
    var todo := prepared.Keys;
    while todo != {}
      invariant todo <= prepared.Keys
      invariant forall slot :: slot in prepared <==> Listed(records, slot, default, iso) != []
      invariant forall slot :: slot in prepared ==>
        prepared[slot] == if slot in todo then Listed(records, slot, default, iso)
                          else SortByTouch(Listed(records, slot, default, iso))
    {
      var slot :| slot in todo;
      prepared := prepared[slot := SortByTouch(prepared[slot])];
      todo := todo - {slot};
    }
    ArrangedByRecords(prepared, records, default, iso);
  }

  // ----- the sort -----

  ghost predicate TouchOrdered(events: seq<ExternalEvent>) {
    forall j, k :: 0 <= j < k < |events| ==> events[j].touchTime <= events[k].touchTime
  }

  /** The events touched at one time, in order. */
  function TouchedAt(events: seq<ExternalEvent>, time: int): seq<ExternalEvent> {
    if events == [] then []
    else
      var last := events[|events| - 1];
      TouchedAt(events[..|events| - 1], time) + if last.touchTime == time then [last] else []
  }

  lemma TouchedAtSnoc(events: seq<ExternalEvent>, e: ExternalEvent, time: int)
    ensures TouchedAt(events + [e], time) == TouchedAt(events, time) + if e.touchTime == time then [e] else []
  {
    assert (events + [e])[..|events|] == events;
  }

  lemma {:induction false} InsertAdds(events: seq<ExternalEvent>, e: ExternalEvent)
    ensures multiset(InsertByTouch(events, e)) == multiset(events) + multiset{e}
  {
    if events != [] && events[|events| - 1].touchTime > e.touchTime {
      InsertAdds(events[..|events| - 1], e);
      assert events == events[..|events| - 1] + [events[|events| - 1]];
    }
  }

  lemma OrderedSnoc(events: seq<ExternalEvent>, e: ExternalEvent)
    requires TouchOrdered(events) && forall x :: x in events ==> x.touchTime <= e.touchTime
    ensures TouchOrdered(events + [e])
  {}

  lemma OrderedInit(events: seq<ExternalEvent>)
    requires TouchOrdered(events) && events != []
    ensures TouchOrdered(events[..|events| - 1])
    ensures forall x :: x in events ==> x.touchTime <= events[|events| - 1].touchTime
  {}

  lemma {:induction false} InsertSorts(events: seq<ExternalEvent>, e: ExternalEvent)
    requires TouchOrdered(events)
    ensures TouchOrdered(InsertByTouch(events, e))
  {
    hide TouchOrdered;
    if events == [] {
      assert TouchOrdered([]) by { OrderedEmpty(); }
      OrderedSnoc([], e);
    } else {
      var init, last := events[..|events| - 1], events[|events| - 1];
      OrderedInit(events);
      if last.touchTime > e.touchTime {
        InsertSorts(init, e);
        var front := InsertByTouch(init, e);
        InsertAdds(init, e);
        forall x | x in front ensures x.touchTime <= last.touchTime {
          assert x in multiset(front);
        }
        OrderedSnoc(front, last);
      } else {
        OrderedSnoc(events, e);
      }
    }
  }

  lemma OrderedEmpty()
    ensures TouchOrdered([])
  {}

  lemma {:induction false} InsertIsStable(events: seq<ExternalEvent>, e: ExternalEvent, time: int)
    requires TouchOrdered(events)
    ensures TouchedAt(InsertByTouch(events, e), time) == TouchedAt(events + [e], time)
  {
    hide TouchedAt, TouchOrdered;
    TouchedAtSnoc(events, e, time);
    if events != [] && events[|events| - 1].touchTime > e.touchTime {
      OrderedInit(events);
      var init, last := events[..|events| - 1], events[|events| - 1];
      InsertIsStable(init, e, time);
      assert events == init + [last];
      TouchedAtSnoc(InsertByTouch(init, e), last, time);
      TouchedAtSnoc(init, last, time);
      TouchedAtSnoc(init, e, time);
    }
  }

  /** The sort orders by touch time, loses and invents nothing, and keeps the order of events touched
      at the same time. */
  lemma {:induction false} SortIsStable(events: seq<ExternalEvent>)
    ensures TouchOrdered(SortByTouch(events))
    ensures multiset(SortByTouch(events)) == multiset(events)
    ensures forall time :: TouchedAt(SortByTouch(events), time) == TouchedAt(events, time)
  {
    hide TouchedAt, InsertByTouch;
    if events != [] {
      var init, last := events[..|events| - 1], events[|events| - 1];
      SortIsStable(init);
      InsertSorts(SortByTouch(init), last);
      InsertAdds(SortByTouch(init), last);
      assert events == init + [last];
      forall time ensures TouchedAt(SortByTouch(events), time) == TouchedAt(events, time) {
        InsertIsStable(SortByTouch(init), last, time);
        TouchedAtSnoc(SortByTouch(init), last, time);
        TouchedAtSnoc(init, last, time);
      }
    }
  }

  // ----- what is prepared, record by record -----

  /** The record's side, in its own words. */
  predicate Names(r: Record, side: Side) {
    TrimSpace(ToLower(r.side)) == match side case Long => "long" case Short => "short"
  }

  /** The record is for a signal bar and a side, and says when it was touched. */
  predicate Concerns(r: Record, slot: Slot) {
    Names(r, slot.1) && r.signalStart == Some(slot.0) && r.touchTime.Some?
  }

  /** The records that concern a slot, in order. */
  function Concerning(records: seq<Record>, slot: Slot): seq<Record> {
    if records == [] then []
    else
      var last := records[|records| - 1];
      Concerning(records[..|records| - 1], slot) + if Concerns(last, slot) then [last] else []
  }

  /** The key a record goes by: its own, or its symbol, times and side in words. */
  function KeyFor(r: Record, slot: Slot, iso: int -> string): string
    requires r.touchTime.Some?
  {
    if TrimSpace(r.eventKey) != "" then TrimSpace(r.eventKey)
    else r.symbol + "|" + iso(slot.0) + "|" + iso(r.touchTime.value) + "|" + TrimSpace(ToLower(r.side))
  }

  /** An event is that of a record: its key, its touch time, and the first shape name that is one. */
  ghost predicate IsOf(e: ExternalEvent, r: Record, slot: Slot, default: string, iso: int -> string) {
    && Concerns(r, slot)
    && e.key == KeyFor(r, slot, iso) && e.touchTime == r.touchTime.value
    && (if exists k :: 0 <= k < |r.shapeNames| && r.shapeNames[k] != ""
        then exists k :: 0 <= k < |r.shapeNames| && r.shapeNames[k] == e.shape != ""
               && forall j :: 0 <= j < k ==> r.shapeNames[j] == ""
        else e.shape == default)
  }

  /** Both words for a side read back as that side. */
  lemma SideReadsBack(r: Record)
    ensures SideNamed(r.side) == if Names(r, Long) then Some(Long) else if Names(r, Short) then Some(Short) else None
  {
    hide TrimSpace, ToLower;
  }

  lemma {:induction false} FirstNameIsFirst(names: seq<string>, default: string)
    ensures var name := FirstNonEmpty(names, default);
      if exists k :: 0 <= k < |names| && names[k] != ""
      then exists k :: 0 <= k < |names| && names[k] == name != "" && forall j :: 0 <= j < k ==> names[j] == ""
      else name == default
  {
    if names != [] && names[0] == "" {
      FirstNameIsFirst(names[1..], default);
      if exists k :: 0 <= k < |names| && names[k] != "" {
        var i :| 0 <= i < |names| && names[i] != "";
        assert names[1..][i - 1] != "";
        var k :| 0 <= k < |names[1..]| && names[1..][k] == FirstNonEmpty(names, default) != ""
          && forall j :: 0 <= j < k ==> names[1..][j] == "";
        assert names[k + 1] == FirstNonEmpty(names, default);
        forall j | 0 <= j < k + 1 ensures names[j] == "" {
          if j > 0 {
            assert names[1..][j - 1] == "";
          }
        }
      }
    }
  }

  lemma EventIsOfRecord(r: Record, slot: Slot, default: string, iso: int -> string)
    ensures var event := EventOf(r, default, iso);
      && (event.Some? && event.value.0 == slot <==> Concerns(r, slot))
      && (Concerns(r, slot) ==> IsOf(event.value.1, r, slot, default, iso))
  {
    hide TrimSpace, ToLower, FirstNonEmpty;
    SideReadsBack(r);
    FirstNameIsFirst(r.shapeNames, default);
  }

  /** The key made for a record without one ends in a word that reads back as the slot's side. */
  lemma KeySideReadsBack(r: Record, slot: Slot, default: string, iso: int -> string)
    requires Concerns(r, slot) && TrimSpace(r.eventKey) == ""
    ensures var event := EventOf(r, default, iso);
      event.Some? && event.value.0 == slot &&
      exists word :: SideNamed(word) == Some(slot.1) &&
        event.value.1.key == r.symbol + "|" + iso(slot.0) + "|" + iso(r.touchTime.value) + "|" + word
  {
    hide IsOf, Names;
    EventIsOfRecord(r, slot, default, iso);
    assert Names(r, slot.1);
    var word := match slot.1 case Long => "long" case Short => "short";
    SideWords();
    assert SideNamed(word) == Some(slot.1);
    SideReadsBack(r);
    assert KeyFor(r, slot, iso) == r.symbol + "|" + iso(slot.0) + "|" + iso(r.touchTime.value) + "|" + TrimSpace(ToLower(r.side));
  }

  lemma SideWords()
    ensures SideNamed("long") == Some(Long) && SideNamed("short") == Some(Short)
  {
    assert ToLower("long") == "long" && ToLower("short") == "short";
    assert Trimmed("long") && Trimmed("short");
    TrimSpaceTrims("long");
    TrimSpaceTrims("short");
  }

  lemma {:induction false} ListedIsConcerning(records: seq<Record>, slot: Slot, default: string, iso: int -> string)
    ensures |Listed(records, slot, default, iso)| == |Concerning(records, slot)|
    ensures forall k :: 0 <= k < |Concerning(records, slot)| ==>
      IsOf(Listed(records, slot, default, iso)[k], Concerning(records, slot)[k], slot, default, iso)
  {
    hide EventOf, IsOf, Concerns;
    if records != [] {
      ListedIsConcerning(records[..|records| - 1], slot, default, iso);
      EventIsOfRecord(records[|records| - 1], slot, default, iso);
    }
  }

  /** `order` lists the places of `events` by touch time, equal times in the order they came. */
  ghost predicate IsOrder(events: seq<ExternalEvent>, order: seq<nat>) {
    && |order| == |events|
    && (forall j :: 0 <= j < |order| ==> order[j] < |events|)
    && (forall j, k :: 0 <= j < k < |order| ==>
          var a, b := events[order[j]], events[order[k]];
          a.touchTime < b.touchTime || (a.touchTime == b.touchTime && order[j] < order[k]))
  }

  ghost predicate Reordered(sorted: seq<ExternalEvent>, events: seq<ExternalEvent>, order: seq<nat>) {
    IsOrder(events, order) && |sorted| == |events| && forall j :: 0 <= j < |order| ==> sorted[j] == events[order[j]]
  }

  lemma {:induction false} InsertPlace(events: seq<ExternalEvent>, e: ExternalEvent) returns (p: nat)
    requires TouchOrdered(events)
    ensures p <= |events| && InsertByTouch(events, e) == events[..p] + [e] + events[p..]
    ensures forall j :: 0 <= j < p ==> events[j].touchTime <= e.touchTime
    ensures forall j :: p <= j < |events| ==> e.touchTime < events[j].touchTime
  {
    hide TouchOrdered;
    if events != [] && events[|events| - 1].touchTime > e.touchTime {
      var init, last := events[..|events| - 1], events[|events| - 1];
      OrderedInit(events);
      p := InsertPlace(init, e);
      assert events == init + [last];
      assert init[..p] + [e] + init[p..] + [last] == events[..p] + [e] + events[p..];
    } else {
      p := |events|;
      if events != [] {
        OrderedInit(events);
      }
      assert events[..p] + [e] + events[p..] == events + [e];
    }
  }

  lemma {:induction false} SortReorders(events: seq<ExternalEvent>) returns (order: seq<nat>)
    ensures Reordered(SortByTouch(events), events, order)
  {
    hide InsertByTouch, TouchOrdered, Reordered, TouchedAt;
    if events == [] {
      order := [];
      assert Reordered([], [], []) by { NothingReordered(); }
    } else {
      var n := |events| - 1;
      var e, sorted := events[n], SortByTouch(events[..n]);
      var before := SortReorders(events[..n]);
      SortIsStable(events[..n]);
      var p := InsertPlace(sorted, e);
      SameLength(sorted, events[..n], before);
      order := before[..p] + [n] + before[p..];
      InsertedOrder(events, before, sorted, p, order);
    }
  }

  lemma NothingReordered()
    ensures Reordered([], [], [])
  {}

  lemma SameLength(sorted: seq<ExternalEvent>, events: seq<ExternalEvent>, order: seq<nat>)
    requires Reordered(sorted, events, order)
    ensures |sorted| == |events| == |order|
  {}

  lemma InsertedOrder(events: seq<ExternalEvent>, before: seq<nat>, sorted: seq<ExternalEvent>, p: nat, order: seq<nat>)
    requires events != [] && Reordered(sorted, events[..|events| - 1], before) && p <= |before|
    requires order == before[..p] + [|events| - 1] + before[p..]
    requires forall j :: 0 <= j < p ==> sorted[j].touchTime <= events[|events| - 1].touchTime
    requires forall j :: p <= j < |sorted| ==> events[|events| - 1].touchTime < sorted[j].touchTime
    ensures Reordered(sorted[..p] + [events[|events| - 1]] + sorted[p..], events, order)
  {}

  /** What preparing promises, record by record: a slot is there exactly when some record concerns it, and
      then holds one event for each of its records, by touch time, equal times in the order of the
      records. */
  ghost predicate ByRecords(prepared: map<Slot, seq<ExternalEvent>>, records: seq<Record>, default: string, iso: int -> string) {
    && (forall slot :: slot in prepared <==> Concerning(records, slot) != [])
    && (forall slot :: slot in prepared ==> SlotIs(prepared[slot], Concerning(records, slot), slot, default, iso))
  }

  ghost predicate SlotIs(events: seq<ExternalEvent>, concerning: seq<Record>, slot: Slot, default: string, iso: int -> string) {
    |events| == |concerning| &&
    exists order: seq<nat> ::
      && |order| == |concerning|
      && (forall j :: 0 <= j < |order| ==>
            order[j] < |concerning| && IsOf(events[j], concerning[order[j]], slot, default, iso))
      && (forall j, k :: 0 <= j < k < |order| ==>
            events[j].touchTime < events[k].touchTime || (events[j].touchTime == events[k].touchTime && order[j] < order[k]))
  }

  lemma SortedSlot(records: seq<Record>, slot: Slot, default: string, iso: int -> string)
    ensures SlotIs(SortByTouch(Listed(records, slot, default, iso)), Concerning(records, slot), slot, default, iso)
  {
    hide IsOf, Listed, Concerning, SortByTouch;
    var listed := Listed(records, slot, default, iso);
    ListedIsConcerning(records, slot, default, iso);
    var order := SortReorders(listed);
  }

  lemma ArrangedByRecords(prepared: map<Slot, seq<ExternalEvent>>, records: seq<Record>, default: string, iso: int -> string)
    requires Arranged(prepared, records, default, iso)
    ensures ByRecords(prepared, records, default, iso)
  {
    hide SlotIs, Listed, Concerning, SortByTouch;
    forall slot
      ensures |Listed(records, slot, default, iso)| == |Concerning(records, slot)|
      ensures SlotIs(SortByTouch(Listed(records, slot, default, iso)), Concerning(records, slot), slot, default, iso)
    {
      ListedIsConcerning(records, slot, default, iso);
      SortedSlot(records, slot, default, iso);
    }
  }

  // ----- choosing -----

  /** Due: touched and not consumed. */
  predicate Due(e: ExternalEvent, now: int, consumed: set<string>) {
    e.touchTime <= now && e.key !in consumed
  }

  lemma {:induction false} ReadyIsDue(events: seq<ExternalEvent>, now: int, consumed: set<string>)
    ensures var chosen := EventReady(events, now, consumed);
      chosen.Some? ==> chosen.value in events && Due(chosen.value, now, consumed)
  {
    if events != [] && events[0].key in consumed {
      ReadyIsDue(events[1..], now, consumed);
    }
  }

  /** Against one unconsumed event of the list. */
  lemma {:induction false} ReadyAgainst(events: seq<ExternalEvent>, now: int, consumed: set<string>, k: nat)
    requires TouchOrdered(events) && k < |events| && events[k].key !in consumed
    ensures var chosen := EventReady(events, now, consumed);
      if chosen.None? then events[k].touchTime > now else chosen.value.touchTime <= events[k].touchTime
  {
    if events[0].key in consumed {
      assert events[1..][k - 1] == events[k];
      ReadyAgainst(events[1..], now, consumed, k - 1);
    }
  }

  /** In a list by touch time, the chosen event is due and no unconsumed event was touched earlier;
      none is chosen exactly when none is due. */
  lemma ReadyIsEarliest(events: seq<ExternalEvent>, now: int, consumed: set<string>)
    requires TouchOrdered(events)
    ensures EventReady(events, now, consumed).None? <==> forall e :: e in events ==> !Due(e, now, consumed)
    ensures EventReady(events, now, consumed).Some? ==>
      var chosen := EventReady(events, now, consumed).value;
      chosen in events && Due(chosen, now, consumed) &&
      forall e :: e in events && e.key !in consumed ==> chosen.touchTime <= e.touchTime
  {
    hide EventReady, TouchOrdered;
    ReadyIsDue(events, now, consumed);
    forall e | e in events && e.key !in consumed
      ensures var chosen := EventReady(events, now, consumed);
        if chosen.None? then e.touchTime > now else chosen.value.touchTime <= e.touchTime
    {
      var k :| 0 <= k < |events| && events[k] == e;
      ReadyAgainst(events, now, consumed, k);
    }
  }

  // ----- a whole replay -----

  /** The keys of the external events among the breakouts, and how many there are. */
  function KeysOf(locks: seq<Lock>): set<string> {
    if locks == [] then {}
    else
      var last := locks[|locks| - 1];
      KeysOf(locks[..|locks| - 1]) + if last.event.Some? then {last.event.value.key} else {}
  }

  function ExternalCount(locks: seq<Lock>): nat {
    if locks == [] then 0
    else ExternalCount(locks[..|locks| - 1]) + if locks[|locks| - 1].event.Some? then 1 else 0
  }

  /** Every external breakout took the event that was ready then, given the events taken before. */
  ghost predicate TakenInTurn(feed: Feed, locks: seq<Lock>) {
    forall k :: 0 <= k < |locks| && locks[k].event.Some? ==>
      && 0 <= locks[k].bar < |feed.signal|
      && EventReady(EventsOf(feed, feed.signal[locks[k].bar].time, locks[k].side), locks[k].time, KeysOf(locks[..k]))
           == locks[k].event
  }

  ghost predicate OnePerBar(locks: seq<Lock>) {
    forall j, k :: 0 <= j < k < |locks| && locks[j].event.Some? && locks[k].event.Some? ==> locks[j].bar != locks[k].bar
  }

  ghost predicate EventsOk(feed: Feed, s: State) {
    && s.consumed == KeysOf(s.locks)
    && |s.consumed| == ExternalCount(s.locks)
    && TakenInTurn(feed, s.locks)
    && OnePerBar(s.locks)
  }

  ghost predicate LocksBefore(s: State, bar: int) {
    forall k :: 0 <= k < |s.locks| ==> s.locks[k].bar < bar
  }

  ghost predicate BetweenBars(feed: Feed, s: State, i: int) {
    EventsOk(feed, s) && LocksBefore(s, i)
  }

  ghost predicate InsideBar(feed: Feed, s: State, i: int) {
    EventsOk(feed, s) && LocksBefore(s, i + 1) && (!s.lockedThisBar ==> LocksBefore(s, i))
  }

  lemma HistorySnoc(feed: Feed, locks: seq<Lock>, lock: Lock)
    ensures var more := locks + [lock];
      && KeysOf(more) == KeysOf(locks) + (if lock.event.Some? then {lock.event.value.key} else {})
      && ExternalCount(more) == ExternalCount(locks) + (if lock.event.Some? then 1 else 0)
  {
    assert (locks + [lock])[..|locks|] == locks;
  }

  lemma TurnSnoc(feed: Feed, locks: seq<Lock>, lock: Lock)
    requires TakenInTurn(feed, locks)
    requires lock.event.Some? ==> 0 <= lock.bar < |feed.signal|
    requires lock.event.Some? ==>
      EventReady(EventsOf(feed, feed.signal[lock.bar].time, lock.side), lock.time, KeysOf(locks)) == lock.event
    ensures TakenInTurn(feed, locks + [lock])
  {
    hide EventReady, EventsOf, KeysOf;
    var more := locks + [lock];
    assert more[..|locks|] == locks;
    forall k | 0 <= k < |locks| ensures more[..k] == locks[..k] && more[k] == locks[k] {}
  }

  lemma LockKeeps(cfg: Config, feed: Feed, s: State, here: Here, side: Side)
    requires InsideBar(feed, s, here.bar)
    ensures InsideBar(feed, TryLock(cfg, s, here, side), here.bar)
  {
    hide BreakoutOf, LockAllowed, TakenInTurn, KeysOf, ExternalCount;
    var t := TryLock(cfg, s, here, side);
    if t != s {
      HistorySnoc(feed, s.locks, t.locks[|s.locks|]);
      TurnSnoc(feed, s.locks, t.locks[|s.locks|]);
    }
  }

  lemma ExternalKeeps(feed: Feed, s: State, here: Here, side: Side)
    requires InsideBar(feed, s, here.bar)
    requires here.bar < |feed.signal| && here.sig.row == feed.signal[here.bar]
    ensures InsideBar(feed, TryExternal(feed, s, here, side), here.bar)
  {
    hide EventReady, EventsOf, TakenInTurn, KeysOf, ExternalCount;
    var events := EventsOf(feed, here.sig.row.time, side);
    var event := EventReady(events, here.second.time, s.consumed);
    if event.Some? && s.tradesInBar == 0 && !s.lockedThisBar {
      var lock := Lock(side, here.bar, here.pos, here.second.time, event.value.shape, event);
      ReadyIsDue(events, here.second.time, s.consumed);
      HistorySnoc(feed, s.locks, lock);
      TurnSnoc(feed, s.locks, lock);
    }
  }

  /** The invariant looks at the breakouts, the consumed keys and the flag of the bar only. */
  ghost predicate SameEvents(s: State, t: State) {
    s.locks == t.locks && s.consumed == t.consumed && s.lockedThisBar == t.lockedThisBar
  }

  lemma FillKeepsEvents(cfg: Config, s: State, here: Here, side: Side)
    ensures SameEvents(s, TryFill(cfg, s, here, side))
  {
    hide FillTriggered, ReentryPrice, AtrStop, OrderShare;
  }

  lemma HoldKeepsEvents(cfg: Config, s: State, here: Here, p: Position)
    ensures SameEvents(s, HoldStep(cfg, s, here, p))
  {
    hide PreCheck, PostCheck, ExitTrigger, TrailAllowed, ExitPrice, Pnl;
  }

  lemma EventsCarry(feed: Feed, s: State, t: State, i: nat)
    requires InsideBar(feed, s, i) && SameEvents(s, t)
    ensures InsideBar(feed, t, i)
  {
    hide TakenInTurn, OnePerBar, KeysOf, ExternalCount;
  }

  lemma FlatKeeps(cfg: Config, feed: Feed, s: State, here: Here, side: Side)
    requires InsideBar(feed, s, here.bar)
    requires here.bar < |feed.signal| && here.sig.row == feed.signal[here.bar]
    ensures InsideBar(feed, FlatStep(cfg, feed, s, here, side), here.bar)
  {
    hide InsideBar, TryLock, TryExternal, TryFill, SameEvents;
    var s1 := TryLock(cfg, s, here, side);
    var s2 := TryExternal(feed, s1, here, side);
    LockKeeps(cfg, feed, s, here, side);
    ExternalKeeps(feed, s1, here, side);
    FillKeepsEvents(cfg, s2, here, side);
    EventsCarry(feed, s2, TryFill(cfg, s2, here, side), here.bar);
  }

  lemma StepKeeps(cfg: Config, feed: Feed, i: nat, start: nat, pos: nat, s: State)
    requires i < |feed.signal| && pos < |feed.seconds| && feed.signal[i].atr.Some?
    requires InsideBar(feed, s, i)
    ensures InsideBar(feed, StepSecond(cfg, feed, i, start, pos, s), i)
  {
    hide InsideBar, FlatStep, HoldStep, SideReady, Forced, Higher, Lower;
    var here := HereAt(cfg, feed, i, start, pos, s);
    var s1 := Observe(cfg, feed, s, here);
    EventsCarry(feed, s, s1, i);
    if s1.position.Some? {
      HoldKeepsEvents(cfg, s1, here, s1.position.value);
      EventsCarry(feed, s1, HoldStep(cfg, s1, here, s1.position.value), i);
    } else {
      FlatKeeps(cfg, feed, s1, here, Long);
      FlatKeeps(cfg, feed, s1, here, Short);
    }
  }

  lemma BarsApart(feed: Feed, s: State, i: nat)
    ensures BetweenBars(feed, s, i) ==> BetweenBars(feed, s, i + 1) && InsideBar(feed, StartBar(s, i), i)
    ensures InsideBar(feed, s, i) ==> BetweenBars(feed, s, i + 1)
  {
    hide TakenInTurn, OnePerBar, KeysOf, ExternalCount;
  }

  lemma EventsKept(cfg: Config, feed: Feed, initial: real)
    ensures PhasesKept(cfg, feed, (s, i) => BetweenBars(feed, s, i), (s, i) => InsideBar(feed, s, i), initial)
  {
    hide BetweenBars, InsideBar, StepSecond, StartBar;
    InitialEvents(feed, initial);
    forall s, i: nat | BetweenBars(feed, s, i)
      ensures BetweenBars(feed, s, i + 1) && InsideBar(feed, StartBar(s, i), i)
    {
      BarsApart(feed, s, i);
    }
    forall s, i: nat | InsideBar(feed, s, i) ensures BetweenBars(feed, s, i + 1) {
      BarsApart(feed, s, i);
    }
    forall s, i: nat, start: nat, pos: nat
      | i < |feed.signal| && start <= pos < |feed.seconds| && feed.signal[i].atr.Some? && InsideBar(feed, s, i)
      ensures InsideBar(feed, StepSecond(cfg, feed, i, start, pos, s), i)
    {
      StepKeeps(cfg, feed, i, start, pos, s);
    }
  }

  lemma InitialEvents(feed: Feed, initial: real)
    ensures BetweenBars(feed, Initial(initial), 0)
  {}

  /** Over a whole replay the consumed keys are those of the external breakouts, each consumed once;
      no signal bar has two external breakouts; and each took the event that was ready for its bar,
      side and second, given the ones taken before. */
  lemma ExternalBreakouts(cfg: Config, feed: Feed, initial: real)
    ensures EventsOk(feed, Replay(cfg, feed, initial))
  {
    hide RunBars, PhasesKept, EventsOk, ExitPrice, Pnl;
    var n := if |feed.signal| == 0 then 0 else |feed.signal| - 1;
    EventsKept(cfg, feed, initial);
    PhasesKeep(cfg, feed, (s, i) => BetweenBars(feed, s, i), (s, i) => InsideBar(feed, s, i), initial, n);
    BooksDoNotMatter(feed, RunBars(cfg, feed, n, initial), Replay(cfg, feed, initial));
  }

  lemma BooksDoNotMatter(feed: Feed, s: State, t: State)
    requires EventsOk(feed, s) && s.locks == t.locks && s.consumed == t.consumed
    ensures EventsOk(feed, t)
  {
    hide TakenInTurn, OnePerBar, KeysOf, ExternalCount;
  }

  /** Breakout `k` takes, of the records of its bar and side whose keys no earlier breakout took, one
      touched first, and not before it is touched. */
  ghost predicate TakesAnEarliest(
      feed: Feed, records: seq<Record>, default: string, iso: int -> string, locks: seq<Lock>, k: nat)
    requires k < |locks| && locks[k].event.Some?
  {
    var lock, taken := locks[k], KeysOf(locks[..k]);
    0 <= lock.bar < |feed.signal| &&
    var slot := (feed.signal[lock.bar].time, lock.side);
    && (exists r :: r in Concerning(records, slot) && IsOf(lock.event.value, r, slot, default, iso))
    && lock.event.value.touchTime <= lock.time && lock.event.value.key !in taken
    && forall r :: r in Concerning(records, slot) && r.touchTime.Some? && KeyFor(r, slot, iso) !in taken ==>
         lock.event.value.touchTime <= r.touchTime.value
  }

  /** With prepared events, every external breakout of a replay does. */
  lemma TakesTheEarliest(
      cfg: Config, feed: Feed, initial: real, records: seq<Record>, default: string, iso: int -> string, k: nat)
    requires Arranged(feed.events, records, default, iso)
    ensures var locks := Replay(cfg, feed, initial).locks;
      k < |locks| && locks[k].event.Some? ==> TakesAnEarliest(feed, records, default, iso, locks, k)
  {
    hide Replay, KeysOf, OnePerBar, TakesAnEarliest, Arranged;
    var locks := Replay(cfg, feed, initial).locks;
    ExternalBreakouts(cfg, feed, initial);
    if k < |locks| && locks[k].event.Some? {
      InTurnIsEarliest(feed, records, default, iso, locks, k);
    }
  }

  lemma InTurnIsEarliest(
      feed: Feed, records: seq<Record>, default: string, iso: int -> string, locks: seq<Lock>, k: nat)
    requires Arranged(feed.events, records, default, iso) && TakenInTurn(feed, locks)
    requires k < |locks| && locks[k].event.Some?
    ensures TakesAnEarliest(feed, records, default, iso, locks, k)
  {
    hide EventReady, KeysOf, Listed, SortByTouch, TouchedAt, Concerning;
    var lock, taken := locks[k], KeysOf(locks[..k]);
    var slot := (feed.signal[lock.bar].time, lock.side);
    var listed, sorted := Listed(records, slot, default, iso), EventsOf(feed, slot.0, slot.1);
    SortIsStable(listed);
    SortOfNone();
    assert sorted == SortByTouch(listed);
    ReadyIsEarliest(sorted, lock.time, taken);
    forall e ensures e in sorted <==> e in listed {
      assert e in multiset(sorted) <==> e in multiset(listed);
    }
    ListedNames(records, slot, default, iso, lock.event.value);
  }

  /** The listed events in terms of the records. */
  lemma ListedNames(records: seq<Record>, slot: Slot, default: string, iso: int -> string, e: ExternalEvent)
    ensures var listed := Listed(records, slot, default, iso);
      && (e in listed ==> exists r :: r in Concerning(records, slot) && IsOf(e, r, slot, default, iso))
      && forall r :: r in Concerning(records, slot) && r.touchTime.Some? ==>
           exists x :: x in listed && x.key == KeyFor(r, slot, iso) && x.touchTime == r.touchTime.value
  {
    hide Listed, Concerning, KeyFor, Concerns, FirstNonEmpty;
    var listed, concerning := Listed(records, slot, default, iso), Concerning(records, slot);
    ListedIsConcerning(records, slot, default, iso);
    if e in listed {
      var k :| 0 <= k < |listed| && listed[k] == e;
      assert IsOf(e, concerning[k], slot, default, iso);
    }
    forall r | r in concerning && r.touchTime.Some?
      ensures exists x :: x in listed && x.key == KeyFor(r, slot, iso) && x.touchTime == r.touchTime.value
    {
      var k :| 0 <= k < |concerning| && concerning[k] == r;
      assert IsOf(listed[k], r, slot, default, iso);
      assert listed[k] in listed;
    }
  }

  lemma SortOfNone()
    ensures SortByTouch([]) == []
  {}
}
