/** What can be found again in the log: entries by the time, level and component they were recorded with. */
module LogQueries {
  import opened LogStore
  import opened Options
  import opened Pagination
  import opened Persistence
  import opened Restart
  import opened Seqs
  import opened Text

  // ----- ranges -----

  /** The instant an entry is recorded for: its own, or the clock when it has none. */
  function TimeOf(r: Recording): int { if r.entry.createdAt == ZERO_TIME then r.now else r.entry.createdAt }

  /** Two ranges that meet split what the unbounded query wants: every entry is wanted by one of them,
      and none by both. */
  lemma RangesSplit(q: SystemLogQuery, e: LogEntry, last: int)
    requires q.from == q.to == ZERO_TIME && last != ZERO_TIME && last + 1 != ZERO_TIME
    ensures MatchesQuery(q)(e) <==> MatchesQuery(q.(to := last))(e) || MatchesQuery(q.(from := last + 1))(e)
    ensures !(MatchesQuery(q.(to := last))(e) && MatchesQuery(q.(from := last + 1))(e))
  {
    hide Wanted, ComponentFits, LevelFits, MatchesQuery;
    MatchesWanted(q, e);
    MatchesWanted(q.(to := last), e);
    MatchesWanted(q.(from := last + 1), e);
    RangesMeet(e.createdAt, last);
    WantedInRange(q, e);
    WantedInRange(q.(to := last), e);
    WantedInRange(q.(from := last + 1), e);
  }

  lemma RangesMeet(time: int, last: int)
    requires last != ZERO_TIME && last + 1 != ZERO_TIME
    ensures InRange(ZERO_TIME, ZERO_TIME, time)
    ensures InRange(ZERO_TIME, last, time) <==> !InRange(last + 1, ZERO_TIME, time)
  {}

  lemma WantedInRange(q: SystemLogQuery, e: LogEntry)
    ensures Wanted(q, e) <==>
      InRange(q.from, q.to, e.createdAt) && LevelFits(q.level, e.level) && ComponentFits(q.component, e.attributes)
  {}

  // ----- levels -----

  /** A level as people write it: case and surrounding space do not matter, and two words are one. */
  function Canonical(level: string): string {
    var word := ToLower(TrimSpace(level));
    if word == "warn" then "warning" else word
  }

  /** Asking for a level finds what was recorded with it; nothing and "all" find every level, and an
      entry recorded without a level is an information. */
  predicate Finds(asked: string, recorded: string) {
    || Canonical(asked) == "" || Canonical(asked) == "all"
    || Canonical(asked) == if Canonical(recorded) == "" then "info" else Canonical(recorded)
  }

  lemma LevelIsFound(asked: string, recorded: string)
    ensures LevelFits(asked, NormalizeStoredLevel(recorded)) <==> Finds(asked, recorded)
  {
    hide TrimSpace, ToLower;
  }

  // ----- a recorded run -----

  /** The instants of a run increase. */
  ghost predicate TimesIncrease(inputs: seq<Recording>) {
    && (forall k :: 0 <= k < |inputs| ==> TimeOf(inputs[k]) != ZERO_TIME)
    && (forall j, k :: 0 <= j < k < |inputs| ==> TimeOf(inputs[j]) < TimeOf(inputs[k]))
  }

  lemma {:induction false} HistoryKeeps(inputs: seq<Recording>, capacity: nat, k: nat)
    requires k < |inputs|
    ensures |History(inputs, capacity)| == |inputs|
    ensures var e, r := History(inputs, capacity)[k], inputs[k];
      && e.createdAt == TimeOf(r) && e.level == NormalizeStoredLevel(r.entry.level)
      && e.attributes == r.entry.attributes && e.message == r.entry.message
      && (r.entry.id != "" ==> e.id == r.entry.id)
    decreases |inputs|
  {
    hide NormalizeStoredLevel, SequenceAfter, GeneratedID;
    if |inputs| > 1 {
      HistoryKeeps(inputs[..|inputs| - 1], capacity, if k < |inputs| - 1 then k else 0);
    } else {
      assert History(inputs[..0], capacity) == [];
    }
  }

  lemma {:induction false} ContentsAreLast(inputs: seq<Recording>, capacity: nat)
    ensures AddAll(EMPTY, inputs, capacity).contents == LastN(History(inputs, capacity), capacity)
  {
    hide Stored, LastN, SequenceAfter;
    if inputs == [] {
      LastNOfNothing<LogEntry>(capacity);
    } else {
      var init, last := inputs[..|inputs| - 1], inputs[|inputs| - 1];
      ContentsAreLast(init, capacity);
      LastNAppend(History(init, capacity), [Stored(last.entry, last.now, AddAll(EMPTY, init, capacity).sequence)], capacity);
    }
  }

  lemma KeysFollowTimes(inputs: seq<Recording>, capacity: nat)
    requires TimesIncrease(inputs)
    ensures KeysIncrease(AddAll(EMPTY, inputs, capacity).contents, KeyOf)
  {
    hide History, AddAll;
    ContentsAreLast(inputs, capacity);
    var items := AddAll(EMPTY, inputs, capacity).contents;
    HistoryLength(inputs, capacity);
    var skipped := |inputs| - |items|;
    forall i | 0 < i < |items| ensures Before(KeyOf(items[i - 1]), KeyOf(items[i])) {
      HistoryKeeps(inputs, capacity, skipped + i - 1);
      HistoryKeeps(inputs, capacity, skipped + i);
      assert TimeOf(inputs[skipped + i - 1]) < TimeOf(inputs[skipped + i]);
    }
  }

  lemma {:induction false} HistoryLength(inputs: seq<Recording>, capacity: nat)
    ensures |History(inputs, capacity)| == |inputs|
  {
    if inputs != [] {
      HistoryKeeps(inputs, capacity, 0);
    }
  }

  /** In a run whose instants increase, whoever follows the cursors of a query to the end finds a recorded
      entry that is still in the ring if and only if its instant is in the range asked for and its level
      and component are those asked for. */
  lemma FoundAgain(inputs: seq<Recording>, capacity: nat, k: nat, q: SystemLogQuery)
    requires TimesIncrease(inputs) && k < |inputs| && |inputs| - capacity <= k
    ensures |History(inputs, capacity)| == |inputs|
    ensures var r, walk := inputs[k],
        Walk(AddAll(EMPTY, inputs, capacity).contents, KeyOf, MatchesQuery(q), NormalizeLimit(q.limit), None);
      History(inputs, capacity)[k] in walk <==>
        && (q.from == ZERO_TIME || q.from <= TimeOf(r)) && (q.to == ZERO_TIME || TimeOf(r) <= q.to)
        && Finds(q.level, r.entry.level) && ComponentFits(q.component, r.entry.attributes)
  {
    hide History, AddAll, Wanted, MatchesQuery, NormalizeStoredLevel, Finds, LevelFits, ComponentFits, Filter, Reversed;
    var items := AddAll(EMPTY, inputs, capacity).contents;
    ContentsAreLast(inputs, capacity);
    HistoryLength(inputs, capacity);
    KeysFollowTimes(inputs, capacity);
    WalkFrom(items, KeyOf, MatchesQuery(q), NormalizeLimit(q.limit), None);
    FilterMembers(Eligible(KeyOf, MatchesQuery(q), None), items);
    ReversedMembers(Remaining(items, KeyOf, MatchesQuery(q), None));
    var e := History(inputs, capacity)[k];
    assert e in items by { assert items[k - (|inputs| - |items|)] == e; }
    MatchesWanted(q, e);
    WantedInRange(q, e);
    HistoryKeeps(inputs, capacity, k);
    LevelIsFound(q.level, inputs[k].entry.level);
  }
}
