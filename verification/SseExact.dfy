/** Exactly which messages survive being printed and parsed. */
module SseExact {
  import opened Lines
  import opened Sse
  import opened Text

  // ----- what the parser can hold -----

  /** Event types are always clean, and so is data that comes from a single line. */
  ghost predicate CleanEvents(p: Parser) {
    Clean(p.current.event) && forall k :: 0 <= k < |p.delivered| ==> Clean(p.delivered[k].event)
  }

  ghost predicate NewlineFreeLines(lines: seq<string>) {
    forall k :: 0 <= k < |lines| ==> NewlineFree(lines[k])
  }

  lemma {:induction false} SplitPieces(s: string)
    ensures NewlineFreeLines(Split(s)) && Lengths(Split(s)) <= |s|
  {
    if s != "" {
      SplitPieces(s[1..]);
      var rest := Split(s[1..]);
      if s[0] == '\n' {
        LengthsCons("", rest);
      } else {
        LengthsCons([s[0]] + rest[0], rest[1..]);
        LengthsCons(rest[0], rest[1..]);
        assert rest == [rest[0]] + rest[1..];
      }
    } else {
      LengthsCons("", []);
    }
  }

  ghost function Lengths(lines: seq<string>): nat {
    if lines == [] then 0 else |lines[0]| + Lengths(lines[1..])
  }

  lemma LengthsCons(line: string, rest: seq<string>)
    ensures Lengths([line] + rest) == |line| + Lengths(rest)
  {
    assert ([line] + rest)[1..] == rest;
  }

  lemma KeyIsPrefix(line: string)
    ensures |KeyOf(line)| <= |line|
  {}

  lemma ValueIsClean(line: string)
    requires NewlineFree(line)
    ensures Clean(ValueOf(line)) && |ValueOf(line)| + |KeyOf(line)| <= |line|
  {
    KeyIsPrefix(line);
    if |KeyOf(line)| < |line| {
      var rest := line[|KeyOf(line)| + 1..];
      TrimSpaceTrims(rest);
      forall k | 0 <= k < |TrimSpace(rest)| ensures TrimSpace(rest)[k] != '\n' {
        assert TrimSpace(rest)[k] in TrimSpace(rest);
      }
    }
  }

  lemma FeedKeepsClean(p: Parser, raw: string)
    requires CleanEvents(p) && NewlineFree(raw)
    ensures CleanEvents(Feed(p, raw))
    ensures p.buffer == "" ==> Clean(Feed(p, raw).buffer)
  {
    hide KeyOf, ValueOf, Trimmed;
    EmptyIsClean();
    ValueIsClean(TrimReturn(raw));
    assert "" + ValueOf(TrimReturn(raw)) == ValueOf(TrimReturn(raw));
  }

  lemma EmptyIsClean()
    ensures Clean("")
  {}

  lemma {:induction false} FeedAllKeepsClean(p: Parser, lines: seq<string>)
    requires CleanEvents(p) && NewlineFreeLines(lines)
    ensures CleanEvents(FeedAll(p, lines))
    decreases lines
  {
    hide Feed, CleanEvents;
    if lines != [] {
      FeedKeepsClean(p, lines[0]);
      FeedAllKeepsClean(Feed(p, lines[0]), lines[1..]);
    }
  }

  // ----- how much data it can hold -----

  /** All the data read so far, handed on or not. */
  ghost function Volume(p: Parser): nat {
    |p.buffer| + DataLengths(p.delivered)
  }

  ghost function DataLengths(events: seq<SSEEvent>): nat {
    if events == [] then 0 else DataLengths(events[..|events| - 1]) + |events[|events| - 1].data|
  }

  /** A line adds no more data than it has characters. */
  lemma FeedVolume(p: Parser, raw: string)
    ensures Volume(Feed(p, raw)) <= Volume(p) + |raw|
  {
    hide KeyOf, ValueOf;
    var line := TrimReturn(raw);
    KeyIsPrefix(line);
    ValueLength(line);
    var e := p.current.(data := p.buffer);
    assert (p.delivered + [e])[..|p.delivered|] == p.delivered;
  }

  lemma ValueLength(line: string)
    ensures |ValueOf(line)| + |KeyOf(line)| <= |line|
  {
    KeyIsPrefix(line);
    if |KeyOf(line)| < |line| {
      TrimSpaceTrims(line[|KeyOf(line)| + 1..]);
    }
  }

  lemma {:induction false} FeedAllVolume(p: Parser, lines: seq<string>)
    ensures Volume(FeedAll(p, lines)) <= Volume(p) + Lengths(lines)
    decreases lines
  {
    hide Feed, Volume;
    if lines != [] {
      FeedVolume(p, lines[0]);
      FeedAllVolume(Feed(p, lines[0]), lines[1..]);
    }
  }

  // ----- one message -----

  lemma {:induction false} FirstNewline(s: string) returns (head: string, tail: string)
    requires !NewlineFree(s)
    ensures s == head + "\n" + tail && NewlineFree(head)
  {
    if s[0] == '\n' {
      head, tail := "", s[1..];
    } else {
      assert exists k :: 0 <= k < |s[1..]| && s[1..][k] == '\n' by {
        var k :| 0 <= k < |s| && s[k] == '\n';
        assert s[1..][k - 1] == '\n';
      }
      head, tail := FirstNewline(s[1..]);
      head := [s[0]] + head;
      assert s == [s[0]] + s[1..];
    }
  }

  /** A data line holds at most its text, whatever the text looks like. */
  lemma DataLineVolume(p: Parser, text: string)
    requires p.buffer == ""
    ensures Volume(Feed(p, "data: " + text)) <= Volume(p) + |text|
  {
    hide KeyOf, TrimSpace;
    var shown := TrimReturn(text);
    var line := TrimReturn("data: " + text);
    assert line == "data" + ":" + (" " + shown);
    KeyBeforeColon("data", " " + shown);
    assert line[5..] == " " + shown;
    SpaceThenAnything(shown);
    assert Feed(p, "data: " + text) == p.(buffer := AppendData("", TrimSpace(" " + shown)));
  }

  lemma SpaceThenAnything(text: string)
    ensures |TrimSpace(" " + text)| <= |text|
  {
    assert (" " + text)[1..] == text;
    TrimSpaceTrims(text);
  }

  lemma OneMessageLines(kind: string, payload: string)
    ensures CompleteLines(Render(Message(kind, payload))) == FrameLines(Message(kind, payload))
  {
    hide FrameLines, Render;
    FrameThenRest(Message(kind, payload), "");
    SplitWhole("");
    assert Render(Message(kind, payload)) + "" == Render(Message(kind, payload));
    assert CompleteLines("") == [];
    assert FrameLines(Message(kind, payload)) + [] == FrameLines(Message(kind, payload));
  }

  predicate Survives(kind: string, payload: string) {
    Delivered(Render(Message(kind, payload))) == [SSEEvent(kind, payload, "")]
  }

  lemma SurvivingKindIsClean(kind: string, payload: string)
    requires Survives(kind, payload)
    ensures Clean(kind)
  {
    hide FeedAll, Render, Clean, CompleteLines, Split;
    OneMessageLines(kind, payload);
    SplitPieces("event: " + kind);
    SplitPieces("data: " + payload);
    EmptyIsClean();
    FeedAllKeepsClean(START, FrameLines(Message(kind, payload)));
    assert Clean(FeedAll(START, FrameLines(Message(kind, payload))).delivered[0].event);
  }

  /** What the parser holds after the type line. */
  lemma AfterKind(kind: string, payload: string)
    requires Clean(kind)
    ensures FeedAll(START, FrameLines(Message(kind, payload))) ==
      FeedAll(Parser(SSEEvent(kind, "", ""), "", []), Split("data: " + payload) + [""])
  {
    hide FeedAll, Feed, Split, Trimmed;
    SplitWhole("event: " + kind);
    FeedAllAppend(START, ["event: " + kind], Split("data: " + payload) + [""]);
    FeedOne(START, "event: " + kind);
    EventLine(START, kind);
  }

  lemma OneEventLength(e: SSEEvent)
    ensures DataLengths([e]) == |e.data|
  {
    assert [e][..0] == [];
  }

  /** A payload of several lines loses at least its first newline. */
  lemma MultilineDies(kind: string, payload: string)
    requires Clean(kind) && !NewlineFree(payload)
    ensures !Survives(kind, payload)
  {
    hide FeedAll, Feed, Split, Render, Clean, CompleteLines, NewlineFree, FrameLines;
    var head, tail := FirstNewline(payload);
    OneMessageLines(kind, payload);
    AfterKind(kind, payload);
    var p := Parser(SSEEvent(kind, "", ""), "", []);
    var line := "data: " + head;
    assert "data: " + payload == line + "\n" + tail;
    SplitAtNewline(line, tail);
    HeadLineIsWhole(head);
    assert Split("data: " + payload) + [""] == [line] + (Split(tail) + [""]);
    FeedAllAppend(p, [line], Split(tail) + [""]);
    FeedOne(p, line);
    DataLineVolume(p, head);
    FeedAllVolume(Feed(p, line), Split(tail) + [""]);
    SplitPieces(tail);
    LengthsSnocBlank(Split(tail));
    OneEventLength(SSEEvent(kind, payload, ""));
  }

  lemma HeadLineIsWhole(head: string)
    requires NewlineFree(head)
    ensures Split("data: " + head) == ["data: " + head]
  {
    SplitWhole("data: " + head);
  }

  lemma {:induction false} LengthsSnocBlank(lines: seq<string>)
    ensures Lengths(lines + [""]) == Lengths(lines)
  {
    if lines == [] {
      assert [] + [""] == [""] && [""][1..] == [];
    } else {
      assert (lines + [""])[1..] == lines[1..] + [""];
      LengthsSnocBlank(lines[1..]);
    }
  }

  lemma SurvivingPayloadIsClean(kind: string, payload: string)
    requires Survives(kind, payload) && Clean(kind) && NewlineFree(payload)
    ensures Clean(payload) && payload != ""
  {
    hide FeedAll, Feed, Split, Render, Clean, CompleteLines;
    OneMessageLines(kind, payload);
    AfterKind(kind, payload);
    HeadLineIsWhole(payload);
    var p := Parser(SSEEvent(kind, "", ""), "", []);
    var line := "data: " + payload;
    FeedAllAppend(p, [line], [""]);
    FeedOne(p, line);
    FeedOne(Feed(p, line), "");
    FeedKeepsClean(p, line);
    BlankDelivers(Feed(p, line));
    FieldLineDelivers(p, line);
    var delivered := Feed(Feed(p, line), "").delivered;
    assert delivered == [SSEEvent(kind, payload, "")];
    assert delivered[|delivered| - 1].data == payload;
  }

  lemma FieldLineDelivers(p: Parser, line: string)
    requires |line| > 1
    ensures Feed(p, line).delivered == p.delivered
  {
    hide KeyOf, ValueOf;
  }

  lemma BlankDelivers(p: Parser)
    ensures Feed(p, "").delivered ==
      if p.buffer != "" then p.delivered + [p.current.(data := p.buffer)] else p.delivered
  {}

  /** A message comes back as it was sent exactly when its type and its payload are single lines
      without surrounding white space and the payload is not empty. */
  lemma SurvivesExactly(kind: string, payload: string)
    ensures Survives(kind, payload) <==> Sendable(Message(kind, payload))
  {
    hide FeedAll, Render, Clean, CompleteLines, Split;
    if Survives(kind, payload) {
      SurvivingKindIsClean(kind, payload);
      if NewlineFree(payload) {
        SurvivingPayloadIsClean(kind, payload);
      } else {
        MultilineDies(kind, payload);
      }
    }
    if Sendable(Message(kind, payload)) {
      MessageFeeds(kind, payload, []);
      OneMessageLines(kind, payload);
    }
  }
}
