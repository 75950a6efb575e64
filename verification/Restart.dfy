/** Restarting from the persisted log: the ring, and the counter behind the IDs, come back. */
module Restart {
  import opened Lines
  import opened LogStore
  import opened Options
  import opened Persistence
  import opened Seqs
  import opened Text

  // ----- adding, as a fold -----

  /** The state of a store: what the ring shows and the sequence counter. */
  datatype Memory = Memory(contents: seq<LogEntry>, sequence: int)

  const EMPTY := Memory([], 0)

  function AddTo(m: Memory, e: LogEntry, now: int, capacity: nat): Memory {
    Memory(LastN(m.contents + [Stored(e, now, m.sequence)], capacity), SequenceAfter(m.sequence, e.id))
  }

  /** An entry with the clock at which it is recorded. */
  datatype Recording = Recording(entry: LogEntry, now: int)

  function AddAll(m: Memory, inputs: seq<Recording>, capacity: nat): Memory {
    if inputs == [] then m
    else
      var last := inputs[|inputs| - 1];
      AddTo(AddAll(m, inputs[..|inputs| - 1], capacity), last.entry, last.now, capacity)
  }

  /** Everything ever stored, in order: what the mirror files receive. */
  function History(inputs: seq<Recording>, capacity: nat): seq<LogEntry> {
    if inputs == [] then []
    else
      var init, last := inputs[..|inputs| - 1], inputs[|inputs| - 1];
      History(init, capacity) + [Stored(last.entry, last.now, AddAll(EMPTY, init, capacity).sequence)]
  }

  // ----- the stored form -----

  ghost predicate Recorded(e: LogEntry) {
    e.id != "" && e.createdAt != ZERO_TIME && NormalizeStoredLevel(e.level) == e.level
  }

  lemma LevelIsStable(level: string)
    ensures NormalizeStoredLevel(NormalizeStoredLevel(level)) == NormalizeStoredLevel(level)
  {
    TrimSpaceTrims(level);
    ToLowerTrimmed(TrimSpace(level));
    TrimSpaceTrims(ToLower(TrimSpace(level)));
    ToLowerIdempotent(TrimSpace(level));
    NamedLevelIsStable("warning");
    NamedLevelIsStable("info");
  }

  lemma NamedLevelIsStable(level: string)
    requires level == "warning" || level == "info"
    ensures ToLower(TrimSpace(level)) == level
  {
    assert Trimmed(level);
    TrimSpaceTrims(level);
    assert forall k :: 0 <= k < |level| ==> LowerChar(level[k]) == level[k];
    assert ToLower(level) == level;
  }

  lemma StoredIsRecorded(e: LogEntry, now: int, sequence: int)
    requires now != ZERO_TIME
    ensures Recorded(Stored(e, now, sequence))
  {
    LevelIsStable(e.level);
  }

  /** Adding an entry that was recorded before changes nothing in it. */
  lemma RecordedIsStored(e: LogEntry, now: int, sequence: int)
    requires Recorded(e)
    ensures Stored(e, now, sequence) == e
  {}

  lemma {:induction false} HistoryIsRecorded(inputs: seq<Recording>, capacity: nat)
    requires forall k :: 0 <= k < |inputs| ==> inputs[k].now != ZERO_TIME
    ensures |History(inputs, capacity)| == |inputs|
    ensures forall k :: 0 <= k < |inputs| ==> Recorded(History(inputs, capacity)[k])
    ensures AddAll(EMPTY, inputs, capacity).contents == LastN(History(inputs, capacity), capacity)
  {
    hide Stored, Recorded, LastN;
    if inputs == [] {
      LastNOfNothing<LogEntry>(capacity);
    } else {
      var init, last := inputs[..|inputs| - 1], inputs[|inputs| - 1];
      HistoryIsRecorded(init, capacity);
      var m := AddAll(EMPTY, init, capacity);
      StoredIsRecorded(last.entry, last.now, m.sequence);
      LastNAppend(History(init, capacity), [Stored(last.entry, last.now, m.sequence)], capacity);
    }
  }

  // ----- the files -----

  /** Each entry is one line of JSON. */
  function WriteAll(entries: seq<LogEntry>, encode: LogEntry -> string): string {
    if entries == [] then "" else encode(entries[0]) + "\n" + WriteAll(entries[1..], encode)
  }

  /** What is asked of the JSON coding: a recorded entry becomes one line without surrounding
      space, and reading the line gives the entry back. */
  ghost predicate Codec(encode: LogEntry -> string, decode: string -> Option<LogEntry>) {
    forall e :: Recorded(e) ==>
      && decode(encode(e)) == Some(e)
      && encode(e) != "" && NewlineFree(encode(e)) && Trimmed(encode(e))
  }

  function Encoded(entries: seq<LogEntry>, encode: LogEntry -> string): seq<string> {
    if entries == [] then [] else [encode(entries[0])] + Encoded(entries[1..], encode)
  }

  lemma OneLine(line: string)
    requires line != "" && NewlineFree(line) && Trimmed(line)
    ensures LinesOf(line) == [line]
  {
    SplitWhole(line);
    TrimSpaceTrims(line);
    assert NonBlank([line]) == NonBlank([line][..0]) + [line];
  }

  lemma {:induction false} LinesOfWritten(
      entries: seq<LogEntry>, encode: LogEntry -> string, decode: string -> Option<LogEntry>)
    requires Codec(encode, decode) && forall k :: 0 <= k < |entries| ==> Recorded(entries[k])
    ensures LinesOf(WriteAll(entries, encode)) == Encoded(entries, encode)
  {
    if entries == [] {
      assert Split("") == [""] && NonBlank([""]) == [];
    } else {
      hide LinesOf, Recorded, NewlineFree, Trimmed;
      LinesOfWritten(entries[1..], encode, decode);
      assert Recorded(entries[0]);
      OneLine(encode(entries[0]));
      LinesOfJoin(encode(entries[0]), WriteAll(entries[1..], encode));
    }
  }

  lemma {:induction false} EncodedAppend(a: seq<LogEntry>, b: seq<LogEntry>, encode: LogEntry -> string)
    ensures Encoded(a + b, encode) == Encoded(a, encode) + Encoded(b, encode)
  {
    if a == [] {
      assert a + b == b;
    } else {
      assert (a + b)[1..] == a[1..] + b;
      EncodedAppend(a[1..], b, encode);
    }
  }

  /** Rotated files that together hold a history: file `i` holds segment `i`. */
  ghost predicate Holds(files: seq<string>, segments: seq<seq<LogEntry>>, encode: LogEntry -> string) {
    |files| == |segments| && forall i :: 0 <= i < |files| ==> files[i] == WriteAll(segments[i], encode)
  }

  lemma {:induction false} LinesOfFiles(files: seq<string>, segments: seq<seq<LogEntry>>,
      encode: LogEntry -> string, decode: string -> Option<LogEntry>)
    requires Codec(encode, decode) && Holds(files, segments, encode)
    requires forall k :: 0 <= k < |Concat(segments)| ==> Recorded(Concat(segments)[k])
    ensures AllLines(files) == Encoded(Concat(segments), encode)
  {
    hide Recorded, Codec, LinesOf, WriteAll;
    if files != [] {
      var n := |files| - 1;
      var older, newest := Concat(segments[..n]), segments[n];
      assert Concat(segments) == older + newest;
      forall k | 0 <= k < |older| ensures Recorded(older[k]) {
        assert older[k] == Concat(segments)[k];
      }
      forall k | 0 <= k < |newest| ensures Recorded(newest[k]) {
        assert newest[k] == Concat(segments)[|older| + k];
      }
      LinesOfFiles(files[..n], segments[..n], encode, decode);
      LinesOfWritten(newest, encode, decode);
      EncodedAppend(older, newest, encode);
    }
  }

  lemma {:induction false} LastEncoded(entries: seq<LogEntry>, encode: LogEntry -> string, n: nat)
    ensures LastN(Encoded(entries, encode), n) == Encoded(LastN(entries, n), encode)
  {
    EncodedLength(entries, encode);
    if |entries| > n {
      var cut := |entries| - n;
      assert entries == entries[..cut] + entries[cut..];
      EncodedAppend(entries[..cut], entries[cut..], encode);
      EncodedLength(entries[..cut], encode);
    }
  }

  lemma {:induction false} EncodedLength(entries: seq<LogEntry>, encode: LogEntry -> string)
    ensures |Encoded(entries, encode)| == |entries|
  {
    if entries != [] {
      EncodedLength(entries[1..], encode);
    }
  }

  // ----- decoding -----

  /** The entries that decode, and how many lines were skipped. */
  datatype Decoded = Decoded(items: seq<LogEntry>, skipped: nat)

  function DecodeAll(lines: seq<string>, decode: string -> Option<LogEntry>): Decoded {
    if lines == [] then Decoded([], 0)
    else
      var d, item := DecodeAll(lines[..|lines| - 1], decode), decode(lines[|lines| - 1]);
      if item.Some? then d.(items := d.items + [item.value]) else d.(skipped := d.skipped + 1)
  }

  /** Every line is decoded or skipped: as many are skipped as do not decode. */
  lemma {:induction false} DecodedOrSkipped(lines: seq<string>, decode: string -> Option<LogEntry>)
    ensures var d := DecodeAll(lines, decode);
      && |d.items| + d.skipped == |lines|
      && d.skipped == |Filter(line => decode(line).None?, lines)|
  {
    if lines != [] {
      DecodedOrSkipped(lines[..|lines| - 1], decode);
    }
  }

  lemma {:induction false} DecodeEncoded(
      entries: seq<LogEntry>, encode: LogEntry -> string, decode: string -> Option<LogEntry>)
    requires Codec(encode, decode) && forall k :: 0 <= k < |entries| ==> Recorded(entries[k])
    ensures DecodeAll(Encoded(entries, encode), decode) == Decoded(entries, 0)
  {
    hide Recorded;
    if entries != [] {
      var n := |entries| - 1;
      assert entries == entries[..n] + [entries[n]];
      EncodedAppend(entries[..n], [entries[n]], encode);
      assert Encoded([entries[n]], encode) == [encode(entries[n])] + Encoded([entries[n]][1..], encode);
      DecodeEncoded(entries[..n], encode, decode);
      assert Encoded(entries, encode)[..|Encoded(entries, encode)| - 1] == Encoded(entries[..n], encode);
    }
  }

  // ----- the program -----

  function AtClock(items: seq<LogEntry>, now: int): seq<Recording> {
    seq(|items|, k requires 0 <= k < |items| => Recording(items[k], now))
  }

  /** `BootstrapFromDisk` for the system log. */
  method BootstrapFromDisk(
      files: seq<string>, decode: string -> Option<LogEntry>, store: SystemLogStore, now: int)
    returns (recovered: nat, skippedLines: nat)
    requires store.Valid()
    modifies store`sequence, store.buffer, store.buffer.items
    ensures store.Valid()
    ensures var d := DecodeAll(LoadedLines(files, DEFAULT_SYSTEM_LOG_CAPACITY), decode);
      && recovered == |d.items| && skippedLines == d.skipped
      && Memory(store.buffer.Contents(), store.sequence) ==
           AddAll(old(Memory(store.buffer.Contents(), store.sequence)), AtClock(d.items, now), store.buffer.capacity)
  {
    hide Stored, SequenceAfter, LastN, LoadedLines;
    var lines := LoadPersistedTail(files, DEFAULT_SYSTEM_LOG_CAPACITY);
    var items: seq<LogEntry> := [];
    skippedLines := 0;
    for i := 0 to |lines|
      invariant Decoded(items, skippedLines) == DecodeAll(lines[..i], decode)
    {
      assert lines[..i + 1][..i] == lines[..i];
      var item := decode(lines[i]);
      if item.None? {
        skippedLines := skippedLines + 1;
        continue;
      }
      items := items + [item.value];
    }
    assert lines[..|lines|] == lines;
    ghost var before := Memory(store.buffer.Contents(), store.sequence);
    for i := 0 to |items|
      invariant store.Valid()
      invariant Memory(store.buffer.Contents(), store.sequence) ==
        AddAll(before, AtClock(items, now)[..i], store.buffer.capacity)
    {
      assert AtClock(items, now)[..i + 1][..i] == AtClock(items, now)[..i];
      var _ := store.Add(items[i], now);
    }
    assert AtClock(items, now)[..|items|] == AtClock(items, now);
    recovered := |items|;
  }

  // ----- what a restart brings back -----

  lemma {:induction false} AddingRecorded(items: seq<LogEntry>, now: int, capacity: nat)
    requires forall k :: 0 <= k < |items| ==> Recorded(items[k])
    ensures AddAll(EMPTY, AtClock(items, now), capacity).contents == LastN(items, capacity)
  {
    hide Recorded, Stored, SequenceAfter, LastN;
    if items == [] {
      LastNOfNothing<LogEntry>(capacity);
    } else {
      var n := |items| - 1;
      AddingRecorded(items[..n], now, capacity);
      assert AtClock(items, now)[..n] == AtClock(items[..n], now);
      RecordedIsStored(items[n], now, AddAll(EMPTY, AtClock(items[..n], now), capacity).sequence);
      LastNAppend(items[..n], [items[n]], capacity);
      assert items == items[..n] + [items[n]];
    }
  }

  /** For every run of recordings since an empty start: if the mirror files hold the history in path
      order and the read windows reach, then bootstrapping an empty store skips nothing and its ring
      shows exactly what it showed before, the last `capacity` entries in order. */
  lemma RestartRecovers(
      inputs: seq<Recording>, files: seq<string>, segments: seq<seq<LogEntry>>,
      encode: LogEntry -> string, decode: string -> Option<LogEntry>, now: int, capacity: nat)
    requires forall k :: 0 <= k < |inputs| ==> inputs[k].now != ZERO_TIME
    requires Codec(encode, decode)
    requires Concat(segments) == History(inputs, capacity) && Holds(files, segments, encode)
    requires WindowsReach(files, capacity)
    ensures var before, d := AddAll(EMPTY, inputs, capacity), DecodeAll(LoadedLines(files, capacity), decode);
      && d.skipped == 0
      && d.items == before.contents == LastN(History(inputs, capacity), capacity)
      && AddAll(EMPTY, AtClock(d.items, now), capacity).contents == before.contents
  {
    hide Recorded, Codec, AddAll, AddTo, History, LoadedLines, WindowsReach, Encoded, LastN;
    var history := History(inputs, capacity);
    HistoryIsRecorded(inputs, capacity);
    LinesOfFiles(files, segments, encode, decode);
    LoadedIsLast(files, capacity);
    LastEncoded(history, encode, capacity);
    LastNIsPart(history, capacity);
    var kept := LastN(history, capacity);
    DecodeEncoded(kept, encode, decode);
    AddingRecorded(kept, now, capacity);
    LastNTwice(history, capacity);
  }

  lemma LastNIsPart<T>(s: seq<T>, n: nat)
    ensures forall k :: 0 <= k < |LastN(s, n)| ==> LastN(s, n)[k] == s[|s| - |LastN(s, n)| + k]
    ensures |LastN(s, n)| <= |s|
  {}

  lemma LastNTwice<T>(s: seq<T>, n: nat)
    ensures LastN(LastN(s, n), n) == LastN(s, n)
  {}

  // ----- the ID counter -----

  /** A printed number, with or without a sign, reads back as itself when it fits 64 bits, and not at all
      otherwise. */
  lemma NumberParses(n: int)
    ensures ParseInt64(DecimalInt(n)) == if IsInt64(n) then Some(n) else None
    ensures n >= 0 ==> ParseInt64("+" + Decimal(n)) == if IsInt64(n) then Some(n) else None
  {
    hide Decimal;
    var digits := Decimal(if n < 0 then -n else n);
    DecimalReadsBack(if n < 0 then -n else n);
    assert digits[0] in digits;
    assert forall k :: 0 <= k < |digits| ==> digits[k] in digits;
    assert ("-" + digits)[1..] == digits && ("+" + digits)[1..] == digits;
  }

  /** A generated ID stands for the number it was made from. */
  lemma GeneratedIDReadsBack(sequence: int)
    requires 0 <= sequence < MAX_INT64
    ensures SequenceOf(GeneratedID(sequence)) == Some(sequence + 1)
  {
    hide ParseInt64, Decimal, TrimSpace;
    var digits := Decimal(sequence + 1);
    assert TrimPrefix(ID_PREFIX + digits, ID_PREFIX) == digits;
    assert digits[0] in digits && digits[|digits| - 1] in digits;
    TrimSpaceTrims(digits);
    NumberParses(sequence + 1);
  }

  lemma ParseFits(s: string)
    ensures ParseInt64(s).Some? ==> IsInt64(ParseInt64(s).value)
  {}

  lemma BumpCovers(sequence: int, id: string)
    requires 0 <= sequence <= MAX_INT64 && id != ""
    ensures var next := SequenceAfter(sequence, id);
      && sequence <= next <= MAX_INT64
      && (SequenceOf(id).Some? ==> SequenceOf(id).value <= next)
  {
    hide TrimSpace, TrimPrefix, ParseInt64;
    ParseFits(TrimSpace(TrimPrefix(id, ID_PREFIX)));
  }

  /** The counter never falls, and ends at or above the number of every entry added. */
  lemma {:induction false} CounterCovers(items: seq<LogEntry>, now: int, capacity: nat)
    requires forall k :: 0 <= k < |items| ==> Recorded(items[k])
    ensures var sequence := AddAll(EMPTY, AtClock(items, now), capacity).sequence;
      && 0 <= sequence <= MAX_INT64
      && forall k :: 0 <= k < |items| ==>
           SequenceOf(items[k].id).Some? ==> SequenceOf(items[k].id).value <= sequence
  {
    hide SequenceOf, SequenceAfter, Stored, LastN, AtClock;
    if items == [] {
      AtClockSnoc(items, now);
    } else {
      var n := |items| - 1;
      CounterCovers(items[..n], now, capacity);
      AtClockSnoc(items, now);
      assert Recorded(items[n]);
      BumpCovers(AddAll(EMPTY, AtClock(items[..n], now), capacity).sequence, items[n].id);
    }
  }

  lemma AtClockSnoc(items: seq<LogEntry>, now: int)
    ensures if items == [] then AtClock(items, now) == [] else
      var n, r := |items| - 1, AtClock(items, now);
      |r| == n + 1 && r[..n] == AtClock(items[..n], now) && r[n] == Recording(items[n], now)
  {}

  /** After a restart the next generated ID differs from every restored one, unless the counter
      stands at the largest 64-bit integer: then it wraps, and collides exactly with an entry that
      carries the wrapped number. */
  lemma NextIDIsFresh(items: seq<LogEntry>, now: int, capacity: nat)
    requires forall k :: 0 <= k < |items| ==> Recorded(items[k])
    ensures var sequence := AddAll(EMPTY, AtClock(items, now), capacity).sequence;
      (forall k :: 0 <= k < |items| ==> items[k].id != GeneratedID(sequence)) <==>
        sequence < MAX_INT64 || forall k :: 0 <= k < |items| ==> items[k].id != ID_PREFIX + DecimalInt(MIN_INT64)
  {
    hide SequenceOf, AddAll, Recorded, DecimalInt;
    CounterCovers(items, now, capacity);
    var sequence := AddAll(EMPTY, AtClock(items, now), capacity).sequence;
    if sequence < MAX_INT64 {
      GeneratedIDReadsBack(sequence);
    } else {
      assert GeneratedID(sequence) == ID_PREFIX + DecimalInt(MIN_INT64);
    }
  }

  /** A log whose newest number is the largest: its restored counter wraps, onto the other entry. */
  const WRAPPING := [LogEntry(GeneratedID(MAX_INT64), "info", "", 1, map[]),
                     LogEntry(GeneratedID(MAX_INT64 - 1), "info", "", 2, map[])]

  lemma WrappedIDCollides(now: int, capacity: nat)
    ensures forall k :: 0 <= k < |WRAPPING| ==> Recorded(WRAPPING[k])
    ensures GeneratedID(AddAll(EMPTY, AtClock(WRAPPING, now), capacity).sequence) == WRAPPING[0].id
  {
    hide SequenceOf, AddAll, DecimalInt, Stored;
    NamedLevelIsStable("info");
    GeneratedIDReadsBack(MAX_INT64 - 1);
    CounterCovers(WRAPPING, now, capacity);
    assert SequenceOf(WRAPPING[1].id) == Some(MAX_INT64);
  }
}
