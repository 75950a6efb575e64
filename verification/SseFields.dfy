/** What the parser makes of any block of lines, not only of those that the log stream writes: several data
    lines, identifiers, unknown fields, comments, and lines that end in a carriage return. */
module SseFields {
  import opened Lines
  import opened Sse
  import opened Text

  // ----- a block as it is written -----

  /** A line of a block; a field has its value after the colon, with or without a space before it. */
  datatype Line = Field(key: string, value: string, spaced: bool, returned: bool) | Note(text: string)

  /** A value comes through when it is clean, that is one line without white space at its ends. */
  predicate Readable(line: Line) {
    match line
    case Field(key, value, _, _) => key != "" && NewlineFree(key) && (forall k :: 0 <= k < |key| ==> key[k] != ':') && Clean(value)
    case Note(text) => NewlineFree(text)
  }

  function Written(line: Line): string {
    match line
    case Field(key, value, spaced, returned) =>
      key + ":" + (if spaced then " " else "") + value + (if returned then "\r" else "")
    case Note(text) => ":" + text
  }

  /** A block ends in a blank line. */
  function Block(lines: seq<Line>): string {
    if lines == [] then "\n" else Written(lines[0]) + "\n" + Block(lines[1..])
  }

  // ----- what it means -----

  function ValueIn(line: Line, key: string): seq<string> {
    if line.Field? && line.key == key then [line.value] else []
  }

  /** The values of a field, in order. */
  function ValuesOf(lines: seq<Line>, key: string): seq<string> {
    if lines == [] then [] else ValueIn(lines[0], key) + ValuesOf(lines[1..], key)
  }

  /** The last value of a field counts. */
  function LastOf(values: seq<string>, default: string): string {
    if values == [] then default else values[|values| - 1]
  }

  /** Values one under the other. */
  function Joined(values: seq<string>): string {
    if values == [] then ""
    else if |values| == 1 then values[0]
    else values[0] + "\n" + Joined(values[1..])
  }

  /** Empty values before the first one that is not leave nothing behind. */
  function FromFirst(values: seq<string>): seq<string> {
    if values != [] && values[0] == "" then FromFirst(values[1..]) else values
  }

  /** The event of a block: its last type and identifier, and all its data; none without data. */
  function EventsOf(lines: seq<Line>): seq<SSEEvent> {
    var data := Joined(FromFirst(ValuesOf(lines, "data")));
    if data == "" then []
    else [SSEEvent(LastOf(ValuesOf(lines, "event"), ""), data, LastOf(ValuesOf(lines, "id"), ""))]
  }

  // ----- one line -----

  lemma FieldReads(key: string, value: string, spaced: bool, returned: bool)
    requires Readable(Field(key, value, spaced, returned))
    ensures var line := TrimReturn(Written(Field(key, value, spaced, returned)));
      line != "" && line[0] != ':' && KeyOf(line) == key && ValueOf(line) == value
  {
    hide KeyOf, ValueOf, Trimmed;
    var rest := (if spaced then " " else "") + value;
    var body, raw := key + ":" + rest, Written(Field(key, value, spaced, returned));
    LastOfBody(key, value, spaced);
    assert raw == if returned then body + "\r" else body;
    assert returned ==> raw[..|raw| - 1] == body;
    assert body[0] == key[0];
    BodyReads(key, rest, value, spaced);
  }

  lemma BodyReads(key: string, rest: string, value: string, spaced: bool)
    requires (forall k :: 0 <= k < |key| ==> key[k] != ':') && Trimmed(value)
    requires rest == (if spaced then " " else "") + value
    ensures KeyOf(key + ":" + rest) == key && ValueOf(key + ":" + rest) == value
  {
    hide TrimSpace;
    KeyBeforeColon(key, rest);
    assert (key + ":" + rest)[|key| + 1..] == rest;
    SpaceThenText(value);
    TrimSpaceTrims(value);
    assert "" + value == value;
  }

  /** Clean text does not end in a carriage return, which is white space. */
  lemma LastOfBody(key: string, value: string, spaced: bool)
    requires key != "" && Clean(value)
    ensures var body := key + ":" + ((if spaced then " " else "") + value);
      body != "" && body[|body| - 1] != '\r'
  {
    var body := key + ":" + ((if spaced then " " else "") + value);
    if value != "" {
      assert body[|body| - 1] == value[|value| - 1];
    }
  }

  lemma NoteReads(text: string)
    ensures var line := TrimReturn(":" + text); line != "" && line[0] == ':'
  {}

  /** What a line does to the parser. */
  lemma LineFeeds(p: Parser, line: Line)
    requires Readable(line)
    ensures Feed(p, Written(line)) ==
      match line
      case Field(key, value, _, _) =>
        if key == "event" then p.(current := p.current.(event := value))
        else if key == "data" then p.(buffer := if p.buffer == "" then value else p.buffer + "\n" + value)
        else if key == "id" then p.(current := p.current.(id := value))
        else p
      case Note(_) => p
  {
    hide KeyOf, ValueOf, TrimReturn, Written, Readable;
    match line
    case Field(key, value, spaced, returned) =>
      FieldReads(key, value, spaced, returned);
      assert "" + value == value;
    case Note(text) =>
      WrittenNote(text);
      NoteReads(text);
  }

  lemma WrittenNote(text: string)
    ensures Written(Note(text)) == ":" + text
  {}

  // ----- a block -----

  /** Data added under data. */
  function Under(buffer: string, values: seq<string>): string
    decreases values
  {
    if values == [] then buffer
    else Under(if buffer == "" then values[0] else buffer + "\n" + values[0], values[1..])
  }

  lemma {:induction false} UnderIsJoined(buffer: string, values: seq<string>)
    ensures Under(buffer, values) == if buffer == "" then Joined(FromFirst(values)) else Joined([buffer] + values)
    decreases |values|
  {
    if values == [] {
      assert [buffer] + values == [buffer];
    } else {
      var v, rest := values[0], values[1..];
      assert values == [v] + rest;
      if buffer == "" {
        UnderIsJoined(v, rest);
      } else {
        UnderIsJoined(buffer + "\n" + v, rest);
        assert ([buffer] + values)[1..] == values;
        JoinedHead(buffer, v, rest);
      }
    }
  }

  lemma JoinedHead(a: string, b: string, rest: seq<string>)
    ensures Joined([a + "\n" + b] + rest) == a + "\n" + Joined([b] + rest)
  {
    if rest != [] {
      assert ([a + "\n" + b] + rest)[1..] == rest && ([b] + rest)[1..] == rest;
      assert a + "\n" + b + "\n" + Joined(rest) == a + "\n" + (b + "\n" + Joined(rest));
    }
  }

  function Raw(lines: seq<Line>): seq<string> {
    if lines == [] then [] else [Written(lines[0])] + Raw(lines[1..])
  }

  lemma LastCons(first: seq<string>, rest: seq<string>, default: string)
    ensures LastOf(first + rest, default) == LastOf(rest, LastOf(first, default))
  {}

  lemma {:induction false} LinesFeed(p: Parser, lines: seq<Line>)
    requires forall k :: 0 <= k < |lines| ==> Readable(lines[k])
    ensures FeedAll(p, Raw(lines)) ==
      Parser(SSEEvent(LastOf(ValuesOf(lines, "event"), p.current.event), p.current.data,
                      LastOf(ValuesOf(lines, "id"), p.current.id)),
             Under(p.buffer, ValuesOf(lines, "data")), p.delivered)
    decreases lines
  {
    hide Feed, Written, Readable, LastOf;
    if lines == [] {
      NoValues(p);
    } else {
      var line, rest := lines[0], lines[1..];
      LineFeeds(p, line);
      assert Raw(lines)[1..] == Raw(rest);
      LinesFeed(Feed(p, Written(line)), rest);
      LastCons(ValueIn(line, "event"), ValuesOf(rest, "event"), p.current.event);
      LastCons(ValueIn(line, "id"), ValuesOf(rest, "id"), p.current.id);
      LastOfLine(line, "event", p.current.event);
      LastOfLine(line, "id", p.current.id);
      UnderCons(p.buffer, ValueIn(line, "data"), ValuesOf(rest, "data"));
    }
  }

  lemma NoValues(p: Parser)
    ensures LastOf([], p.current.event) == p.current.event && LastOf([], p.current.id) == p.current.id
  {}

  lemma LastOfLine(line: Line, key: string, default: string)
    ensures LastOf(ValueIn(line, key), default) == if line.Field? && line.key == key then line.value else default
  {}

  lemma UnderCons(buffer: string, first: seq<string>, rest: seq<string>)
    requires |first| <= 1
    ensures Under(buffer, first + rest) ==
      Under(if first == [] then buffer else if buffer == "" then first[0] else buffer + "\n" + first[0], rest)
  {
    if first == [] {
      assert first + rest == rest;
    } else {
      assert (first + rest)[1..] == rest;
    }
  }

  lemma {:induction false} LinesOfBlock(lines: seq<Line>)
    requires forall k :: 0 <= k < |lines| ==> Readable(lines[k])
    ensures CompleteLines(Block(lines)) == Raw(lines) + [""]
  {
    hide Split, Written, Readable, CompleteLines;
    if lines == [] {
      BlankThenRest("");
      assert "\n" + "" == "\n";
      NoLines();
    } else {
      LinesOfBlock(lines[1..]);
      LineThenRest(Written(lines[0]), Block(lines[1..]));
      WrittenIsOneLine(lines[0]);
    }
  }

  lemma NoLines()
    ensures CompleteLines("") == []
  {
    SplitWhole("");
  }

  lemma WrittenIsOneLine(line: Line)
    requires Readable(line)
    ensures Split(Written(line)) == [Written(line)]
  {
    hide Trimmed;
    SplitWhole(Written(line));
  }

  /** For every block of readable lines, the parser hands on exactly the event that the lines stand for: its
      last type and identifier and its data, one line under the other; without data it hands on nothing. */
  lemma BlockIsRead(lines: seq<Line>)
    requires forall k :: 0 <= k < |lines| ==> Readable(lines[k])
    ensures Delivered(Block(lines)) == EventsOf(lines)
  {
    hide FeedAll, CompleteLines, Block, Readable, Raw, Joined, FromFirst, Under, ValuesOf, LastOf;
    LinesOfBlock(lines);
    LinesFeed(START, lines);
    FeedAllAppend(START, Raw(lines), [""]);
    FeedOne(FeedAll(START, Raw(lines)), "");
    UnderIsJoined("", ValuesOf(lines, "data"));
  }
}
