/** Splitting text at newlines. */
module Lines {
  import opened Text

  predicate NewlineFree(s: string) { forall k :: 0 <= k < |s| ==> s[k] != '\n' }

  /** `strings.Split(s, "\n")`: the pieces between newlines, at least one. */
  function Split(s: string): (lines: seq<string>)
    ensures |lines| > 0
  {
    if s == "" then [""]
    else if s[0] == '\n' then [""] + Split(s[1..])
    else
      var rest := Split(s[1..]);
      [[s[0]] + rest[0]] + rest[1..]
  }

  /** A newline separates what is before it from what is after it. */
  lemma {:induction false} SplitAtNewline(a: string, b: string)
    ensures Split(a + "\n" + b) == Split(a) + Split(b)
  {
    var s := a + "\n" + b;
    if a == "" {
      assert s[1..] == b;
    } else {
      assert s[1..] == a[1..] + "\n" + b;
      SplitAtNewline(a[1..], b);
    }
  }

  lemma {:induction false} SplitWhole(s: string)
    requires NewlineFree(s)
    ensures Split(s) == [s]
  {
    if s != "" {
      SplitWhole(s[1..]);
      assert [s[0]] + s[1..] == s;
    }
  }

  /** The trimmed lines that are not blank. */
  function NonBlank(raw: seq<string>): seq<string> {
    if raw == [] then []
    else
      var line := TrimSpace(raw[|raw| - 1]);
      NonBlank(raw[..|raw| - 1]) + if line == "" then [] else [line]
  }

  lemma {:induction false} NonBlankAppend(a: seq<string>, b: seq<string>)
    ensures NonBlank(a + b) == NonBlank(a) + NonBlank(b)
  {
    if b == [] {
      assert a + b == a;
    } else {
      hide TrimSpace;
      assert (a + b)[..|a + b| - 1] == a + b[..|b| - 1];
      NonBlankAppend(a, b[..|b| - 1]);
      var line := TrimSpace(b[|b| - 1]);
      var tail := if line == "" then [] else [line];
      assert NonBlank(a + b) == NonBlank(a + b[..|b| - 1]) + tail;
    }
  }

  /** The lines of a log file. */
  function LinesOf(content: string): seq<string> {
    NonBlank(Split(content))
  }

  lemma LinesOfJoin(a: string, b: string)
    ensures LinesOf(a + "\n" + b) == LinesOf(a) + LinesOf(b)
  {
    SplitAtNewline(a, b);
    NonBlankAppend(Split(a), Split(b));
  }
}
