/** Server-sent events: the frames the log stream writes and the parser the client reads them with.
    The format is that of the WHATWG HTML Living Standard, sections 9.2.5 and 9.2.6. */
module Sse {
  import opened Lines
  import opened Text

  // ----- the writer -----

  /** A frame of the stream: a message, or a comment such as the keep-alive. */
  datatype Frame = Message(kind: string, payload: string) | Comment(text: string)

  function Render(f: Frame): string {
    match f
    case Message(kind, payload) => "event: " + kind + "\ndata: " + payload + "\n\n"
    case Comment(text) => ":" + text + "\n\n"
  }

  function RenderAll(frames: seq<Frame>): string {
    if frames == [] then "" else Render(frames[0]) + RenderAll(frames[1..])
  }

  // ----- the parser -----

  datatype SSEEvent = SSEEvent(event: string, data: string, id: string)

  const NO_EVENT := SSEEvent("", "", "")

  /** The parser's variables: the event being read, its data so far, and what was handed on. */
  datatype Parser = Parser(current: SSEEvent, buffer: string, delivered: seq<SSEEvent>)

  const START := Parser(NO_EVENT, "", [])

  function TrimReturn(line: string): string {
    if line != "" && line[|line| - 1] == '\r' then line[..|line| - 1] else line
  }

  /** The key of a field line is what precedes the first colon. */
  function KeyOf(line: string): string {
    if line == "" || line[0] == ':' then "" else [line[0]] + KeyOf(line[1..])
  }

  function ValueOf(line: string): string {
    if |KeyOf(line)| < |line| then TrimSpace(line[|KeyOf(line)| + 1..]) else ""
  }

  function AppendData(buffer: string, value: string): string {
    (if buffer != "" then buffer + "\n" else "") + value
  }

  /** One line, without its newline. */
  function Feed(p: Parser, raw: string): Parser {
    var line := TrimReturn(raw);
    if line == "" then
      if p.buffer != "" then Parser(NO_EVENT, "", p.delivered + [p.current.(data := p.buffer)]) else p
    else if line[0] == ':' then p
    else
      var key, value := KeyOf(line), ValueOf(line);
      if key == "event" then p.(current := p.current.(event := value))
      else if key == "data" then p.(buffer := AppendData(p.buffer, value))
      else if key == "id" then p.(current := p.current.(id := value))
      else p
  }

  function FeedAll(p: Parser, lines: seq<string>): Parser
    decreases lines
  {
    if lines == [] then p else FeedAll(Feed(p, lines[0]), lines[1..])
  }

  /** Only lines that end in a newline are read; an unfinished last line is dropped. */
  function CompleteLines(input: string): seq<string> {
    Split(input)[..|Split(input)| - 1]
  }

  function Delivered(input: string): seq<SSEEvent> {
    FeedAll(START, CompleteLines(input)).delivered
  }

  lemma {:induction false} FeedAllAppend(p: Parser, a: seq<string>, b: seq<string>)
    ensures FeedAll(p, a + b) == FeedAll(FeedAll(p, a), b)
    decreases a
  {
    hide Feed;
    if a == [] {
      assert a + b == b;
    } else {
      assert (a + b)[1..] == a[1..] + b;
      FeedAllAppend(Feed(p, a[0]), a[1..], b);
    }
  }

  method StreamSSE(input: string) returns (delivered: seq<SSEEvent>)
    ensures delivered == Delivered(input)
  {
    hide Split, KeyOf, ValueOf, TrimReturn;
    var lines := CompleteLines(input);
    var currentEvent, dataBuffer := NO_EVENT, "";
    delivered := [];
    for i := 0 to |lines|
      invariant FeedAll(Parser(currentEvent, dataBuffer, delivered), lines[i..]) == FeedAll(START, lines)
    {
      assert lines[i..][1..] == lines[i + 1..];
      var line := TrimReturn(lines[i]);
      if line == "" {
        if |dataBuffer| > 0 {
          currentEvent := currentEvent.(data := dataBuffer);
          delivered := delivered + [currentEvent];
          dataBuffer := "";
          currentEvent := NO_EVENT;
        }
        continue;
      }
      if line[0] == ':' {
        continue;
      }
      var key, value := KeyOf(line), ValueOf(line);
      match key
      case "event" =>
        currentEvent := currentEvent.(event := value);
      case "data" =>
        if |dataBuffer| > 0 {
          dataBuffer := dataBuffer + "\n";
        }
        dataBuffer := dataBuffer + value;
      case "id" =>
        currentEvent := currentEvent.(id := value);
      case _ =>
    }
  }

  // ----- print, then parse -----

  /** Text that survives a field line: one line without surrounding white space. */
  predicate Clean(s: string) { NewlineFree(s) && Trimmed(s) }

  predicate Sendable(f: Frame) {
    match f
    case Message(kind, payload) => Clean(kind) && Clean(payload) && payload != ""
    case Comment(text) => NewlineFree(text)
  }

  /** The events a list of frames stands for. */
  function Meaning(frames: seq<Frame>): seq<SSEEvent> {
    if frames == [] then []
    else
      (match frames[0]
       case Message(kind, payload) => [SSEEvent(kind, payload, "")]
       case Comment(_) => []) + Meaning(frames[1..])
  }

  lemma LineThenRest(line: string, rest: string)
    ensures CompleteLines(line + "\n" + rest) == Split(line) + CompleteLines(rest)
  {
    hide Split;
    SplitAtNewline(line, rest);
    var a, b := Split(line), Split(rest);
    assert (a + b)[..|a + b| - 1] == a + b[..|b| - 1];
  }

  /** The lines of a frame, split again where its own text has newlines. */
  function FrameLines(f: Frame): seq<string> {
    match f
    case Message(kind, payload) => Split("event: " + kind) + (Split("data: " + payload) + [""])
    case Comment(text) => Split(":" + text) + [""]
  }

  lemma BlankThenRest(rest: string)
    ensures CompleteLines("\n" + rest) == [""] + CompleteLines(rest)
  {
    LineThenRest("", rest);
    assert "" + "\n" + rest == "\n" + rest;
  }

  lemma FrameThenRest(f: Frame, rest: string)
    ensures CompleteLines(Render(f) + rest) == FrameLines(f) + CompleteLines(rest)
  {
    hide Split, CompleteLines;
    BlankThenRest(rest);
    match f
    case Message(kind, payload) =>
      var data := "data: " + payload;
      assert Render(f) + rest == "event: " + kind + "\n" + (data + "\n" + ("\n" + rest));
      LineThenRest(data, "\n" + rest);
      LineThenRest("event: " + kind, data + "\n" + ("\n" + rest));
    case Comment(text) =>
      assert Render(f) + rest == ":" + text + "\n" + ("\n" + rest);
      LineThenRest(":" + text, "\n" + rest);
  }

  lemma {:induction false} KeyBeforeColon(key: string, rest: string)
    requires forall k :: 0 <= k < |key| ==> key[k] != ':'
    ensures KeyOf(key + ":" + rest) == key
  {
    var line := key + ":" + rest;
    if key != "" {
      assert line[1..] == key[1..] + ":" + rest;
      KeyBeforeColon(key[1..], rest);
      assert key == [key[0]] + key[1..];
    }
  }

  /** A field line with clean text sets its field to that text. */
  lemma FieldLine(key: string, text: string)
    requires key != "" && (forall k :: 0 <= k < |key| ==> key[k] != ':') && Clean(text)
    ensures var line := key + ": " + text;
      TrimReturn(line) == line && line != "" && line[0] != ':' && KeyOf(line) == key && ValueOf(line) == text
  {
    hide TrimLeft, TrimRight;
    var line := key + ": " + text;
    assert line == key + ":" + (" " + text);
    KeyBeforeColon(key, " " + text);
    assert line[|key| + 1..] == " " + text;
    SpaceThenText(text);
    if text != "" {
      assert line[|line| - 1] == text[|text| - 1];
    }
  }

  lemma SpaceThenText(text: string)
    requires Trimmed(text)
    ensures TrimSpace(" " + text) == text
  {
    assert (" " + text)[1..] == text;
    assert TrimLeft(" " + text) == TrimLeft(text);
    TrimSpaceTrims(text);
  }

  lemma EventLine(p: Parser, kind: string)
    requires Clean(kind)
    ensures Feed(p, "event: " + kind) == p.(current := p.current.(event := kind))
  {
    hide KeyOf, ValueOf, TrimReturn, Clean;
    FieldLine("event", kind);
    assert "event" + ": " + kind == "event: " + kind;
  }

  lemma DataLine(p: Parser, payload: string)
    requires Clean(payload)
    ensures Feed(p, "data: " + payload) == p.(buffer := AppendData(p.buffer, payload))
  {
    hide KeyOf, ValueOf, TrimReturn, Clean;
    FieldLine("data", payload);
    assert "data" + ": " + payload == "data: " + payload;
  }

  lemma FeedOne(p: Parser, line: string)
    ensures FeedAll(p, [line]) == Feed(p, line)
  {
    hide Feed;
    assert [line][1..] == [];
    assert FeedAll(Feed(p, line), []) == Feed(p, line);
  }

  lemma MessageFeeds(kind: string, payload: string, delivered: seq<SSEEvent>)
    requires Clean(kind) && Clean(payload) && payload != ""
    ensures FeedAll(Parser(NO_EVENT, "", delivered), FrameLines(Message(kind, payload))) ==
      Parser(NO_EVENT, "", delivered + [SSEEvent(kind, payload, "")])
  {
    hide FeedAll, Split, KeyOf, ValueOf;
    var p := Parser(NO_EVENT, "", delivered);
    var first, second := "event: " + kind, "data: " + payload;
    SplitWhole(first);
    SplitWhole(second);
    EventLine(p, kind);
    var p1 := p.(current := SSEEvent(kind, "", ""));
    DataLine(p1, payload);
    assert "" + payload == payload;
    var p2 := p1.(buffer := payload);
    FeedAllAppend(p, [first], [second] + [""]);
    FeedAllAppend(p1, [second], [""]);
    FeedOne(p, first);
    FeedOne(p1, second);
    FeedOne(p2, "");
  }

  lemma CommentFeeds(text: string, p: Parser)
    requires NewlineFree(text) && p.buffer == ""
    ensures FeedAll(p, FrameLines(Comment(text))) == p
  {
    hide FeedAll, Split, KeyOf, ValueOf;
    SplitWhole(":" + text);
    FeedAllAppend(p, [":" + text], [""]);
    FeedOne(p, ":" + text);
    FeedOne(p, "");
  }

  lemma FrameFeeds(f: Frame, delivered: seq<SSEEvent>)
    requires Sendable(f)
    ensures FeedAll(Parser(NO_EVENT, "", delivered), FrameLines(f)) ==
      Parser(NO_EVENT, "", delivered + Meaning([f]))
  {
    hide FeedAll, FrameLines, Clean;
    assert Meaning([f][1..]) == [];
    match f
    case Message(kind, payload) => MessageFeeds(kind, payload, delivered);
    case Comment(text) => CommentFeeds(text, Parser(NO_EVENT, "", delivered));
  }

  lemma {:induction false} StreamFeeds(frames: seq<Frame>, delivered: seq<SSEEvent>)
    requires forall k :: 0 <= k < |frames| ==> Sendable(frames[k])
    ensures FeedAll(Parser(NO_EVENT, "", delivered), CompleteLines(RenderAll(frames))) ==
      Parser(NO_EVENT, "", delivered + Meaning(frames))
    decreases frames
  {
    hide Feed, FrameLines, Render, Split, Sendable;
    if frames == [] {
      assert CompleteLines("") == [] by { SplitWhole(""); }
      assert delivered + [] == delivered;
    } else {
      var f := frames[0];
      FrameThenRest(f, RenderAll(frames[1..]));
      FeedAllAppend(Parser(NO_EVENT, "", delivered), FrameLines(f), CompleteLines(RenderAll(frames[1..])));
      FrameFeeds(f, delivered);
      StreamFeeds(frames[1..], delivered + Meaning([f]));
      MeaningCons(frames);
      assert delivered + Meaning([f]) + Meaning(frames[1..]) == delivered + (Meaning([f]) + Meaning(frames[1..]));
    }
  }

  lemma MeaningCons(frames: seq<Frame>)
    requires frames != []
    ensures Meaning(frames) == Meaning([frames[0]]) + Meaning(frames[1..])
  {
    assert Meaning([frames[0]][1..]) == [];
  }

  /** For every list of frames whose messages are sendable, whatever comments come between them, the
      parser hands on exactly the messages' types and payloads, in order. */
  lemma PrintThenParse(frames: seq<Frame>)
    requires forall k :: 0 <= k < |frames| ==> Sendable(frames[k])
    ensures Delivered(RenderAll(frames)) == Meaning(frames)
  {
    hide FeedAll, CompleteLines, RenderAll, Sendable;
    StreamFeeds(frames, []);
    assert [] + Meaning(frames) == Meaning(frames);
  }
}
