/** The in-memory system log: entries get an ID and a normal form, go into the ring, and are
    queried newest first through a cursor. */
module LogStore {
  import opened Options
  import opened Pagination
  import opened RingBuffers
  import opened Seqs
  import opened Text

  const DEFAULT_SYSTEM_LOG_CAPACITY := 2048
  const DEFAULT_QUERY_LIMIT := 100
  const MAX_QUERY_LIMIT := 200
  const ID_PREFIX := "system-log-"

  /** Instants are integers; one of them is Go's zero time. */
  const ZERO_TIME := 0

  datatype Attribute = TextAttribute(text: string) | OtherAttribute(printed: string)

  datatype LogEntry = LogEntry(
    id: string, level: string, message: string, createdAt: int, attributes: map<string, Attribute>)

  function KeyOf(e: LogEntry): Key { Key(e.createdAt, e.id) }

  function NormalizeStoredLevel(level: string): string {
    var l := ToLower(TrimSpace(level));
    if l == "warn" then "warning" else if l == "" then "info" else l
  }

  function NormalizeTime(t: int, now: int): int { if t == ZERO_TIME then now else t }

  // ----- the sequence -----

  const MAX_INT64 := 0x7FFF_FFFF_FFFF_FFFF
  const MIN_INT64 := -0x8000_0000_0000_0000

  predicate IsInt64(n: int) { MIN_INT64 <= n <= MAX_INT64 }

  /** Adding one to a 64-bit counter wraps around. */
  function NextInt64(n: int): int { if n == MAX_INT64 then MIN_INT64 else n + 1 }

  /** `strconv.ParseInt(s, 10, 64)` */
  function ParseInt64(s: string): Option<int> {
    var signed := s != "" && (s[0] == '+' || s[0] == '-');
    var digits := if signed then s[1..] else s;
    if digits == "" || exists k :: 0 <= k < |digits| && !IsDigit(digits[k]) then None
    else
      var magnitude: int := DigitsValue(digits);
      var value := if signed && s[0] == '-' then -magnitude else magnitude;
      if IsInt64(value) then Some(value) else None
  }

  function TrimPrefix(s: string, prefix: string): string {
    if prefix <= s then s[|prefix|..] else s
  }

  /** The sequence number an entry ID stands for, if it is a positive one. */
  function SequenceOf(id: string): Option<int> {
    var raw := TrimSpace(TrimPrefix(id, ID_PREFIX));
    var parsed := if raw == "" then None else ParseInt64(raw);
    if parsed.Some? && parsed.value > 0 then parsed else None
  }

  /** The counter after `bumpAtomicSequence`. */
  function Bumped(sequence: int, id: string): int {
    var n := SequenceOf(id);
    if n.Some? && n.value > sequence then n.value else sequence
  }

  function SequenceAfter(sequence: int, id: string): int {
    if id == "" then NextInt64(sequence) else Bumped(sequence, id)
  }

  function GeneratedID(sequence: int): string { ID_PREFIX + DecimalInt(NextInt64(sequence)) }

  /** The entry that `add` stores. */
  function Stored(e: LogEntry, now: int, sequence: int): LogEntry {
    e.(level := NormalizeStoredLevel(e.level),
       createdAt := NormalizeTime(e.createdAt, now),
       id := if e.id == "" then GeneratedID(sequence) else e.id)
  }

  // ----- queries -----

  datatype SystemLogQuery = SystemLogQuery(level: string, component: string, from: int, to: int, limit: int)

  function NormalizeLimit(limit: int): (n: nat)
    ensures 0 < n <= MAX_QUERY_LIMIT
  {
    if limit <= 0 then DEFAULT_QUERY_LIMIT else if limit > MAX_QUERY_LIMIT then MAX_QUERY_LIMIT else limit
  }

  lemma LimitIsKept(limit: int)
    ensures 0 < limit ==> NormalizeLimit(limit) <= limit
  {}

  function NormalizeLevelFilter(level: string): string {
    var l := ToLower(TrimSpace(level));
    if l == "" || l == "all" then "" else if l == "warn" then "warning" else l
  }

  function ComponentOf(e: LogEntry): string {
    if "component" in e.attributes && e.attributes["component"].TextAttribute?
      then TrimSpace(e.attributes["component"].text) else ""
  }

  /** The filter of a query, cursor and limit apart. */
  function MatchesQuery(q: SystemLogQuery): LogEntry -> bool {
    (e: LogEntry) =>
      && (NormalizeLevelFilter(q.level) != "" ==> e.level == NormalizeLevelFilter(q.level))
      && (TrimSpace(q.component) != "" ==> ComponentOf(e) == TrimSpace(q.component))
      && (q.from != ZERO_TIME ==> e.createdAt >= q.from)
      && (q.to != ZERO_TIME ==> e.createdAt <= q.to)
  }

  // ----- what is wanted, in the words of the query -----

  /** A stored level answers to an asked one: any to none or to "all", "warning" to "warn", otherwise the
      same word, however it is spelled. */
  predicate LevelFits(asked: string, stored: string) {
    var word := ToLower(TrimSpace(asked));
    word == "" || word == "all" || (word == "warn" && stored == "warning") || (word != "warn" && stored == word)
  }

  /** The component is named by a text attribute; no name asks for none. */
  ghost predicate ComponentFits(asked: string, attributes: map<string, Attribute>) {
    || TrimSpace(asked) == ""
    || ("component" in attributes &&
        exists text :: attributes["component"] == TextAttribute(text) && TrimSpace(text) == TrimSpace(asked))
  }

  /** Not before a given start and not after a given end. */
  predicate InRange(from: int, to: int, time: int) {
    (from == ZERO_TIME || from <= time) && (to == ZERO_TIME || time <= to)
  }

  ghost predicate Wanted(q: SystemLogQuery, e: LogEntry) {
    InRange(q.from, q.to, e.createdAt) && LevelFits(q.level, e.level) && ComponentFits(q.component, e.attributes)
  }

  /** The filter keeps exactly what is wanted. */
  lemma MatchesWanted(q: SystemLogQuery, e: LogEntry)
    ensures MatchesQuery(q)(e) <==> Wanted(q, e)
  {
    hide TrimSpace, ToLower;
  }

  /** A scan from the newest end has collected the kept entries of the part it has seen. */
  lemma ScanExtends<T>(p: T -> bool, items: seq<T>, i: nat)
    requires i < |items|
    ensures Reversed(Filter(p, items[i..])) ==
      Reversed(Filter(p, items[i + 1..])) + if p(items[i]) then [items[i]] else []
  {
    assert items[i..] == [items[i]] + items[i + 1..];
    FilterAppend(p, [items[i]], items[i + 1..]);
    FilterOne(p, items[i]);
    hide Filter;
    var rest := Filter(p, items[i + 1..]);
    ReversedCons(items[i], rest);
    assert [] + rest == rest;
  }

  lemma NothingScanned<T>(p: T -> bool, items: seq<T>)
    ensures Reversed(Filter(p, items[|items|..])) == []
  {}

  /** A scan cut off one past the limit still determines the page. */
  lemma ScannedPage<T>(p: T -> bool, items: seq<T>, i: nat, key: T -> Key, limit: nat)
    requires i <= |items| && limit > 0
    requires i == 0 || |Filter(p, items[i..])| > limit
    requires |Filter(p, items[i..])| <= limit + 1
    ensures var out := Reversed(Filter(p, items[i..]));
      PageOf(Filter(p, items), key, limit) ==
        if |out| > limit then Page(out[..limit], Some(key(out[limit - 1]))) else Page(out, None)
  {
    var seen, older, all := Filter(p, items[i..]), Filter(p, items[..i]), Filter(p, items);
    FilterAppend(p, items[..i], items[i..]);
    assert items == items[..i] + items[i..];
    if i == 0 {
      assert items[i..] == items;
    }
    hide Filter;
    PageOfTail(older, seen, all, key, limit);
  }

  lemma PageOfTail<T>(older: seq<T>, seen: seq<T>, all: seq<T>, key: T -> Key, limit: nat)
    requires limit > 0 && all == older + seen
    requires |seen| == limit + 1 || (|seen| <= limit && seen == all)
    ensures var out := Reversed(seen);
      PageOf(all, key, limit) ==
        if |out| > limit then Page(out[..limit], Some(key(out[limit - 1]))) else Page(out, None)
  {
    if |seen| > limit {
      var cut := |all| - limit;
      assert all[cut..] == seen[1..] && all[cut] == seen[1];
      assert seen == [seen[0]] + seen[1..];
      ReversedCons(seen[0], seen[1..]);
      ReversedAt(seen, limit - 1);
      assert Reversed(seen)[..limit] == Reversed(seen[1..]);
    }
  }

  /** A page shows wanted entries only, at most as many as asked for, and all of them beyond the cursor
      when there is no next one. */
  ghost predicate ShowsWanted(items: seq<LogEntry>, q: SystemLogQuery, cursor: Option<Key>, page: Page<LogEntry>) {
    && |page.items| <= MAX_QUERY_LIMIT && (0 < q.limit ==> |page.items| <= q.limit)
    && (forall e :: e in page.items ==> e in items && Beyond(cursor, KeyOf(e)) && Wanted(q, e))
    && (page.next.None? ==>
          forall e :: e in items && Beyond(cursor, KeyOf(e)) && Wanted(q, e) ==> e in page.items)
  }

  lemma PageShowsWanted(items: seq<LogEntry>, q: SystemLogQuery, cursor: Option<Key>)
    ensures ShowsWanted(items, q, cursor,
      PageOf(Remaining(items, KeyOf, MatchesQuery(q), cursor), KeyOf, NormalizeLimit(q.limit)))
  {
    hide Wanted, MatchesQuery, NormalizeLimit, Remaining, PageOf, Beyond, KeyOf;
    LimitIsKept(q.limit);
    PageShows(items, KeyOf, MatchesQuery(q), cursor, NormalizeLimit(q.limit));
    forall e ensures MatchesQuery(q)(e) <==> Wanted(q, e) {
      MatchesWanted(q, e);
    }
  }

  class SystemLogStore {
    var sequence: int
    const buffer: RingBuffer<LogEntry>

    ghost predicate Valid()
      reads this, buffer
    {
      buffer.Valid() && IsInt64(sequence)
    }

    constructor (capacity: int)
      ensures Valid() && fresh(buffer) && fresh(buffer.items)
      ensures sequence == 0 && buffer.Contents() == []
      ensures buffer.capacity == if capacity < 1 then 1 else capacity
    {
      sequence := 0;
      buffer := new RingBuffer<LogEntry>(capacity);
    }

    method BumpAtomicSequence(id: string)
      requires IsInt64(sequence)
      modifies this`sequence
      ensures sequence == Bumped(old(sequence), id) && IsInt64(sequence)
    {
      var raw := TrimSpace(TrimPrefix(id, ID_PREFIX));
      if raw == "" {
        return;
      }
      var parsed := ParseInt64(raw);
      if parsed.None? || parsed.value <= 0 {
        return;
      }
      if sequence < parsed.value {
        sequence := parsed.value;
      }
    }

    method Add(entry: LogEntry, now: int) returns (stored: LogEntry)
      requires Valid()
      modifies this`sequence, buffer, buffer.items
      ensures Valid()
      ensures stored == Stored(entry, now, old(sequence))
      ensures sequence == SequenceAfter(old(sequence), entry.id)
      ensures buffer.Contents() == LastN(old(buffer.Contents()) + [stored], buffer.capacity)
    {
      stored := entry.(level := NormalizeStoredLevel(entry.level), createdAt := NormalizeTime(entry.createdAt, now));
      if stored.id == "" {
        sequence := NextInt64(sequence);
        stored := stored.(id := ID_PREFIX + DecimalInt(sequence));
      } else {
        BumpAtomicSequence(stored.id);
      }
      buffer.Append(stored);
    }

    /** The chain of tests that a scanned entry must pass. */
    method Passes(item: LogEntry, query: SystemLogQuery, cursor: Option<Key>) returns (kept: bool)
      ensures kept == Eligible(KeyOf, MatchesQuery(query), cursor)(item)
    {
      var level := NormalizeLevelFilter(query.level);
      var component := TrimSpace(query.component);
      hide NormalizeLevelFilter, ComponentOf, TrimSpace, Before;
      if cursor.Some? && !Before(Key(item.createdAt, item.id), cursor.value) {
        return false;
      }
      if level != "" && item.level != level {
        return false;
      }
      if component != "" && ComponentOf(item) != component {
        return false;
      }
      if query.from != ZERO_TIME && item.createdAt < query.from {
        return false;
      }
      if query.to != ZERO_TIME && item.createdAt > query.to {
        return false;
      }
      return true;
    }

    /** A query returns the page that the cursor, the filter and the limit determine; it shows what is
        wanted. */
    method Query(query: SystemLogQuery, cursor: Option<Key>) returns (page: Page<LogEntry>)
      requires Valid()
      ensures page == PageOf(Remaining(buffer.Contents(), KeyOf, MatchesQuery(query), cursor),
                             KeyOf, NormalizeLimit(query.limit))
      ensures ShowsWanted(buffer.Contents(), query, cursor, page)
    {
      var items := buffer.Snapshot();
      var limit := NormalizeLimit(query.limit);
      ghost var p := Eligible(KeyOf, MatchesQuery(query), cursor);
      var out := [];
      var i := |items|;
      assert Remaining(items, KeyOf, MatchesQuery(query), cursor) == Filter(p, items);
      hide Filter, Reversed, PageOf, Eligible, MatchesQuery, Remaining, NormalizeLimit, ShowsWanted;
      NothingScanned(p, items);
      while i > 0
        invariant 0 <= i <= |items|
        invariant out == Reversed(Filter(p, items[i..]))
        invariant |out| <= limit
      {
        i := i - 1;
        var item := items[i];
        ScanExtends(p, items, i);
        var kept := Passes(item, query, cursor);
        if !kept {
          continue;
        }
        out := out + [item];
        if |out| >= limit + 1 {
          break;
        }
      }
      ScannedPage(p, items, i, KeyOf, limit);
      PageShowsWanted(items, query, cursor);
      page := Page(out, None);
      if |out| > limit {
        page := Page(out[..limit], Some(KeyOf(out[limit - 1])));
      }
    }
  }
}
