/** Reading back the end of the persisted log: the last lines of rotated files, each through a
    bounded window. */
module Persistence {
  import opened Lines
  import opened Seqs
  import opened Text

  const BOOTSTRAP_TAIL_READ_BYTES := 0x40_0000

  /** The part of a file that is read: everything, or what follows the first newline in the window. */
  function TailPayload(content: string): string {
    if |content| <= BOOTSTRAP_TAIL_READ_BYTES then content
    else AfterNewline(content[|content| - BOOTSTRAP_TAIL_READ_BYTES..])
  }

  /** What follows the first newline, or nothing. */
  function AfterNewline(s: string): string {
    if s == "" then "" else if s[0] == '\n' then s[1..] else AfterNewline(s[1..])
  }

  /** The lines `readTailLines` returns. */
  function TailLines(content: string, maxLines: nat): seq<string> {
    LastN(LinesOf(TailPayload(content)), maxLines)
  }

  lemma {:induction false} AfterNewlineSplits(s: string)
    ensures AfterNewline(s) == "" || exists before: string :: s == before + "\n" + AfterNewline(s)
  {
    if s != "" && s[0] != '\n' {
      AfterNewlineSplits(s[1..]);
      if AfterNewline(s) != "" {
        var before: string :| s[1..] == before + "\n" + AfterNewline(s[1..]);
        assert s == ([s[0]] + before) + "\n" + AfterNewline(s);
      }
    } else if s != "" {
      assert s == "" + "\n" + s[1..];
    }
  }

  /** Whatever the window cuts off, the payload holds whole lines: its lines are the last lines of
      the file. */
  lemma PayloadIsSuffix(content: string)
    ensures var all, got := LinesOf(content), LinesOf(TailPayload(content));
      |got| <= |all| && got == all[|all| - |got|..]
  {
    if |content| > BOOTSTRAP_TAIL_READ_BYTES {
      var cut := |content| - BOOTSTRAP_TAIL_READ_BYTES;
      AfterNewlineSplits(content[cut..]);
      var payload := TailPayload(content);
      if payload != "" {
        var before: string :| content[cut..] == before + "\n" + payload;
        assert content == (content[..cut] + before) + "\n" + payload;
        LinesOfJoin(content[..cut] + before, payload);
      } else {
        assert Split("") == [""] && NonBlank([""]) == [];
      }
    }
  }

  /** A read returns the last `maxLines` lines of the file when the window reaches far enough: it
      covers the file, or holds that many lines. Otherwise it returns fewer, still the last ones. */
  lemma TailLinesExact(content: string, maxLines: nat)
    ensures var all, got := LinesOf(content), TailLines(content, maxLines);
      && |got| <= maxLines && got == LastN(all, |got|)
      && (got == LastN(all, maxLines) <==>
            |LinesOf(TailPayload(content))| >= maxLines || |LinesOf(TailPayload(content))| == |all|)
  {
    PayloadIsSuffix(content);
    hide LinesOf, TailPayload;
  }

  // ----- all files -----

  /** The lines `loadPersistedTail` collects from the files in path order. */
  function LoadedLines(files: seq<string>, limit: nat): seq<string> {
    if files == [] || limit == 0 then []
    else
      var tail := TailLines(files[|files| - 1], limit);
      LoadedLines(files[..|files| - 1], limit - |tail|) + tail
  }

  function AllLines(files: seq<string>): seq<string> {
    if files == [] then [] else AllLines(files[..|files| - 1]) + LinesOf(files[|files| - 1])
  }

  /** Every file that is read fits the window or fills what is still wanted from within it. */
  predicate WindowsReach(files: seq<string>, limit: nat) {
    files == [] || limit == 0 ||
    var last, init := files[|files| - 1], files[..|files| - 1];
    var got := |LinesOf(TailPayload(last))|;
    if got >= limit then true else |last| <= BOOTSTRAP_TAIL_READ_BYTES && WindowsReach(init, limit - got)
  }

  lemma {:induction false} SmallFilesReach(files: seq<string>, limit: nat)
    requires forall k :: 0 <= k < |files| ==> |files[k]| <= BOOTSTRAP_TAIL_READ_BYTES
    ensures WindowsReach(files, limit)
  {
    if files != [] && limit > 0 {
      var got := |LinesOf(TailPayload(files[|files| - 1]))|;
      if got < limit {
        SmallFilesReach(files[..|files| - 1], limit - got);
      }
    }
  }

  /** If the windows reach, loading yields the last `limit` lines of all files together. */
  lemma {:induction false} LoadedIsLast(files: seq<string>, limit: nat)
    requires WindowsReach(files, limit)
    ensures LoadedLines(files, limit) == LastN(AllLines(files), limit)
  {
    hide LinesOf, TailPayload, LastN;
    if files != [] && limit == 0 {
      LastNLength(AllLines(files), 0);
    } else if files == [] {
      LastNOfNothing<string>(limit);
    } else {
      var last, init := files[|files| - 1], files[..|files| - 1];
      var tail, lines := TailLines(last, limit), LinesOf(last);
      PayloadIsSuffix(last);
      LastNOfAppend(AllLines(init), lines, limit);
      TailLinesLength(last, limit);
      LastNOfSuffix(lines, LinesOf(TailPayload(last)), limit);
      if |LinesOf(TailPayload(last))| < limit {
        assert TailPayload(last) == last by { SmallPayload(last); }
        LoadedIsLast(init, limit - |tail|);
      } else {
        assert |tail| == limit by { LastNLength(LinesOf(TailPayload(last)), limit); }
        assert LoadedLines(init, 0) == [];
        assert [] + tail == tail;
      }
    }
  }

  lemma SmallPayload(content: string)
    requires |content| <= BOOTSTRAP_TAIL_READ_BYTES
    ensures TailPayload(content) == content
  {}

  lemma LastNOfNothing<T>(n: nat)
    ensures LastN<T>([], n) == []
  {}

  lemma LastNLength<T>(s: seq<T>, n: nat)
    requires n <= |s|
    ensures |LastN(s, n)| == n
  {}

  lemma LastNOfAppend<T>(a: seq<T>, b: seq<T>, n: nat)
    ensures LastN(a + b, n) == if |b| < n then LastN(a, n - |b|) + b else LastN(b, n)
  {}

  lemma LastNOfSuffix<T>(whole: seq<T>, part: seq<T>, n: nat)
    requires |part| <= |whole| && part == whole[|whole| - |part|..]
    ensures n <= |part| ==> LastN(part, n) == LastN(whole, n)
    ensures |part| < n ==> LastN(part, n) == part
  {}

  // ----- the program -----

  /** The line loop of `ReadTailLines`. */
  method TrimmedLines(rawLines: seq<string>) returns (lines: seq<string>)
    ensures lines == NonBlank(rawLines)
  {
    hide TrimSpace;
    lines := [];
    for i := 0 to |rawLines|
      invariant lines == NonBlank(rawLines[..i])
    {
      var line := TrimSpace(rawLines[i]);
      assert rawLines[..i + 1][..i] == rawLines[..i];
      if line == "" {
        continue;
      }
      lines := lines + [line];
    }
    assert rawLines[..|rawLines|] == rawLines;
  }

  method ReadTailLines(content: string, maxLines: int) returns (lines: seq<string>)
    ensures lines == if maxLines <= 0 then [] else TailLines(content, maxLines)
  {
    hide NonBlank, Split, AfterNewline;
    if maxLines <= 0 {
      return [];
    }
    var offset := |content| - BOOTSTRAP_TAIL_READ_BYTES;
    if offset < 0 {
      offset := 0;
    }
    var payload := content[offset..];
    if offset > 0 {
      payload := AfterNewline(payload);
    }
    assert payload == TailPayload(content);
    lines := TrimmedLines(Split(payload));
    if |lines| > maxLines {
      lines := lines[|lines| - maxLines..];
    }
  }

  method ReverseStrings(values: array<string>)
    modifies values
    ensures values[..] == Reversed(old(values[..]))
  {
    var left, right := 0, values.Length - 1;
    while left < right
      invariant 0 <= left <= right + 1 && right == values.Length - 1 - left
      invariant forall k :: 0 <= k < left ==> values[k] == old(values[values.Length - 1 - k])
      invariant forall k :: right < k < values.Length ==> values[k] == old(values[values.Length - 1 - k])
      invariant forall k :: left <= k <= right ==> values[k] == old(values[k])
    {
      values[left], values[right] := values[right], values[left];
      left, right := left + 1, right - 1;
    }
    ReversedIs(old(values[..]), values[..]);
  }

  /** The inner loop of `LoadPersistedTail`: one file's lines, newest first. */
  method PushLines<T>(reversedLines: seq<T>, tail: seq<T>, limit: nat) returns (pushed: seq<T>)
    requires |reversedLines| + |tail| <= limit
    ensures |pushed| == |reversedLines| + |tail|
    ensures Reversed(pushed) == tail + Reversed(reversedLines)
  {
    hide Reversed;
    pushed := reversedLines;
    var j := |tail| - 1;
    assert tail[j + 1..] + Reversed(pushed) == Reversed(pushed);
    while j >= 0 && |pushed| < limit
      invariant -1 <= j < |tail|
      invariant |pushed| == |reversedLines| + |tail| - 1 - j
      invariant Reversed(pushed) == tail[j + 1..] + Reversed(reversedLines)
    {
      ReversedSnoc(pushed, tail[j]);
      assert tail[j..] + Reversed(reversedLines) == [tail[j]] + (tail[j + 1..] + Reversed(reversedLines));
      pushed := pushed + [tail[j]];
      j := j - 1;
    }
    assert tail[0..] == tail;
  }

  method LoadPersistedTail(files: seq<string>, limit: nat) returns (lines: seq<string>)
    ensures lines == LoadedLines(files, limit)
  {
    hide LoadedLines, TailLines, Reversed;
    var reversedLines: seq<string> := [];
    var i := |files| - 1;
    assert files[..i + 1] == files;
    assert |Reversed(reversedLines)| == 0;
    while i >= 0 && |reversedLines| < limit
      invariant -1 <= i < |files| && |reversedLines| <= limit
      invariant LoadedLines(files, limit) ==
        LoadedLines(files[..i + 1], limit - |reversedLines|) + Reversed(reversedLines)
    {
      var want := limit - |reversedLines|;
      var tail := ReadTailLines(files[i], want);
      LoadedStep(files, i, want);
      ghost var older, collected := LoadedLines(files[..i], want - |tail|), Reversed(reversedLines);
      assert older + tail + collected == older + (tail + collected);
      reversedLines := PushLines(reversedLines, tail, limit);
      i := i - 1;
    }
    NothingMoreLoaded(files[..i + 1], limit - |reversedLines|);
    assert [] + Reversed(reversedLines) == Reversed(reversedLines);
    var values := new string[|reversedLines|](k requires 0 <= k < |reversedLines| => reversedLines[k]);
    assert values[..] == reversedLines;
    ReverseStrings(values);
    lines := values[..];
  }

  lemma NothingMoreLoaded(files: seq<string>, want: nat)
    requires files == [] || want == 0
    ensures LoadedLines(files, want) == []
  {}

  lemma TailLinesLength(content: string, maxLines: nat)
    ensures |TailLines(content, maxLines)| <= maxLines
  {
    hide LinesOf, TailPayload;
  }

  lemma LoadedStep(files: seq<string>, i: nat, want: nat)
    requires i < |files| && want > 0
    ensures var tail := TailLines(files[i], want);
      |tail| <= want && LoadedLines(files[..i + 1], want) == LoadedLines(files[..i], want - |tail|) + tail
  {
    hide TailLines;
    TailLinesLength(files[i], want);
    assert files[..i + 1][..i] == files[..i];
  }
}
