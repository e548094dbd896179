/** The event-stream text format: printing frames, and the parser of the WHATWG HTML Living Standard,
    sections 9.2.5 and 9.2.6. */
module EventStream {
  import opened Values

  // ---------- printing ----------

  /** One server-sent event as it is written. */
  datatype Frame = Frame(event: string, data: string, id: Option<string>)

  function FieldLine(name: string, value: string): string {
    name + ": " + value
  }

  function FrameLines(frame: Frame): seq<string> {
    (if frame.id.Some? && frame.id.value != "" then [FieldLine("id", frame.id.value)] else [])
    + [FieldLine("event", frame.event), FieldLine("data", frame.data)]
  }

  /** Every line with its line break. */
  function Terminated(lines: seq<string>): string {
    if lines == [] then "" else lines[0] + "\n" + Terminated(lines[1..])
  }

  function Print(frame: Frame): string {
    Terminated(FrameLines(frame) + [""])
  }

  /** `"\n".join(lines)`. */
  function Join(lines: seq<string>): string
    requires lines != []
  {
    if |lines| == 1 then lines[0] else lines[0] + "\n" + Join(lines[1..])
  }

  lemma {:induction false} JoinTerminated(lines: seq<string>)
    requires lines != []
    ensures Join(lines) + "\n\n" == Terminated(lines + [""])
  {
    if |lines| == 1 {
      assert (lines + [""])[1..] == [""];
      assert Terminated([""]) == "\n" + Terminated([]);
    } else {
      assert (lines + [""])[1..] == lines[1..] + [""];
      JoinTerminated(lines[1..]);
    }
  }

  /** The encoder: it collects the lines and joins them. */
  method EncodeSse(event: string, data: string, eventId: Option<string>) returns (text: string)
    ensures text == Print(Frame(event, data, eventId))
  {
    var lines: seq<string> := [];
    if eventId.Some? && eventId.value != "" {
      lines := lines + [FieldLine("id", eventId.value)];
    }
    lines := lines + [FieldLine("event", event)];
    lines := lines + [FieldLine("data", data)];
    assert lines == FrameLines(Frame(event, data, eventId));
    JoinTerminated(lines);
    return Join(lines) + "\n\n";
  }

  // ---------- parsing: lines ----------

  predicate IsBreak(c: char) {
    c == '\r' || c == '\n'
  }

  predicate OneLine(s: string) {
    forall i :: 0 <= i < |s| ==> !IsBreak(s[i])
  }

  /** The length of the text before the first line break. */
  function LineLength(s: string): (n: nat)
    ensures n <= |s| && OneLine(s[..n])
    ensures n < |s| ==> IsBreak(s[n])
  {
    if s == "" || IsBreak(s[0]) then 0
    else
      var n := LineLength(s[1..]);
      assert s[..n + 1] == [s[0]] + s[1..][..n];
      n + 1
  }

  /** The complete lines of a text; CRLF, LF and CR each end one.  An unfinished last line is dropped. */
  function Lines(s: string): (lines: seq<string>)
    ensures forall line :: line in lines ==> OneLine(line)
    decreases |s|
  {
    var n := LineLength(s);
    if n == |s| then []
    else
      var width := if s[n] == '\r' && n + 1 < |s| && s[n + 1] == '\n' then 2 else 1;
      [s[..n]] + Lines(s[n + width..])
  }

  lemma {:induction false} LineLengthOf(line: string, rest: string)
    requires OneLine(line) && rest != "" && IsBreak(rest[0])
    ensures LineLength(line + rest) == |line|
  {
    if line == "" {
      assert line + rest == rest;
    } else {
      assert (line + rest)[1..] == line[1..] + rest;
      LineLengthOf(line[1..], rest);
    }
  }

  /** A line with any of the three line breaks after it; a lone CR only where no LF follows. */
  lemma LineEndedBy(line: string, ending: string, rest: string)
    requires OneLine(line) && ending in {"\n", "\r", "\r\n"}
    requires ending == "\r" && rest != "" ==> rest[0] != '\n'
    ensures Lines(line + ending + rest) == [line] + Lines(rest)
  {
    var s := line + ending + rest;
    assert s == line + (ending + rest) && (ending + rest)[0] == ending[0];
    LineLengthOf(line, ending + rest);
    assert s[..|line|] == line && s[|line|] == ending[0] && s[|line| + |ending|..] == rest;
  }

  lemma LinesOfLine(line: string, rest: string)
    requires OneLine(line)
    ensures Lines(line + "\n" + rest) == [line] + Lines(rest)
  {
    LineEndedBy(line, "\n", rest);
  }

  /** Every line with a line break of the given kind. */
  ghost function EndedBy(lines: seq<string>, ending: string): string {
    if lines == [] then "" else lines[0] + ending + EndedBy(lines[1..], ending)
  }

  /** The same lines are read from a text whichever of the three line breaks it is written with. */
  lemma {:induction false} AnyEndingReadBack(lines: seq<string>, ending: string)
    requires (forall line :: line in lines ==> OneLine(line)) && ending in {"\n", "\r", "\r\n"}
    ensures Lines(EndedBy(lines, ending)) == lines
  {
    hide Lines;
    if lines == [] {
      NoLines();
    } else {
      var rest := EndedBy(lines[1..], ending);
      StartsLike(lines[1..], ending);
      LineEndedBy(lines[0], ending, rest);
      AnyEndingReadBack(lines[1..], ending);
      assert lines == [lines[0]] + lines[1..];
    }
  }

  lemma NoLines()
    ensures Lines("") == []
  {
  }

  lemma StartsLike(lines: seq<string>, ending: string)
    requires (forall line :: line in lines ==> OneLine(line)) && ending != ""
    ensures var text := EndedBy(lines, ending); text != "" ==> text[0] == ending[0] || !IsBreak(text[0])
  {
    if lines != [] {
      assert OneLine(lines[0]);
    }
  }

  /** Printed lines are read back, whatever follows. */
  lemma {:induction false} LinesOfTerminated(lines: seq<string>, rest: string)
    requires forall line :: line in lines ==> OneLine(line)
    ensures Lines(Terminated(lines) + rest) == lines + Lines(rest)
  {
    hide Lines;
    if lines == [] {
      assert Terminated(lines) + rest == rest;
    } else {
      var tail := Terminated(lines[1..]) + rest;
      assert Terminated(lines) + rest == lines[0] + "\n" + tail;
      LinesOfLine(lines[0], tail);
      LinesOfTerminated(lines[1..], rest);
      assert lines == [lines[0]] + lines[1..];
    }
  }

  // ---------- parsing: fields and events ----------

  /** A dispatched event. */
  datatype Message = Message(event: string, data: string, lastEventId: string)

  /** The buffers of the parser. */
  datatype Parser = Parser(data: string, event: string, lastEventId: string)

  function ColonAt(line: string): (n: nat)
    ensures n <= |line|
    ensures forall i :: 0 <= i < n ==> line[i] != ':'
    ensures n < |line| ==> line[n] == ':'
  {
    if line == "" || line[0] == ':' then 0 else 1 + ColonAt(line[1..])
  }

  function FieldName(line: string): string {
    line[..ColonAt(line)]
  }

  /** What follows the colon, without one leading space. */
  function FieldValue(line: string): (value: string)
    ensures OneLine(line) ==> OneLine(value)
  {
    if ColonAt(line) == |line| then ""
    else
      var value := line[ColonAt(line) + 1..];
      if value != "" && value[0] == ' ' then value[1..] else value
  }

  /** A field line is split at its first colon, and one space after that is optional. */
  lemma FieldSplits(name: string, value: string)
    requires ':' !in name
    ensures FieldName(name) == name && FieldValue(name) == ""
    ensures FieldName(name + ":" + value) == name && FieldName(name + ": " + value) == name
    ensures FieldValue(name + ": " + value) == value
    ensures value == "" || value[0] != ' ' ==> FieldValue(name + ":" + value) == value
  {
    FirstColon(name, "");
    FirstColon(name, value);
    FirstColon(name, " " + value);
    assert name + ": " + value == name + ":" + (" " + value);
    assert (name + ":" + value)[|name| + 1..] == value;
    assert (name + ":" + (" " + value))[|name| + 1..] == " " + value;
  }

  lemma FirstColon(name: string, value: string)
    requires ':' !in name
    ensures ColonAt(name) == |name| && ColonAt(name + ":" + value) == |name|
  {
    var line := name + ":" + value;
    assert forall i :: 0 <= i < |name| ==> line[i] == name[i];
    assert line[|name|] == ':';
  }

  function ProcessField(parser: Parser, name: string, value: string): Parser {
    if name == "event" then parser.(event := value)
    else if name == "data" then parser.(data := parser.data + value + "\n")
    else if name == "id" then (if '\0' in value then parser else parser.(lastEventId := value))
    else parser
  }

  /** The event a blank line dispatches; none without data. */
  function Dispatch(parser: Parser): seq<Message> {
    if parser.data == "" then []
    else [Message(if parser.event == "" then "message" else parser.event,
                  if parser.data[|parser.data| - 1] == '\n' then parser.data[..|parser.data| - 1] else parser.data,
                  parser.lastEventId)]
  }

  function ProcessLines(parser: Parser, lines: seq<string>): seq<Message>
    decreases lines
  {
    if lines == [] then []
    else if lines[0] == "" then Dispatch(parser) + ProcessLines(Parser("", "", parser.lastEventId), lines[1..])
    else if lines[0][0] == ':' then ProcessLines(parser, lines[1..])
    else ProcessLines(ProcessField(parser, FieldName(lines[0]), FieldValue(lines[0])), lines[1..])
  }

  /** Several data lines make one text with line breaks in between. */
  lemma {:induction false} DataLinesJoin(parser: Parser, lines: seq<string>)
    requires lines != []
    ensures ProcessLines(parser, DataLines(lines) + [""])
      == [Message(if parser.event == "" then "message" else parser.event, parser.data + Join(lines), parser.lastEventId)]
    decreases lines
  {
    hide ProcessLines, FieldLine, Dispatch, ProcessField;
    var first, rest := FieldLine("data", lines[0]), DataLines(lines[1..]) + [""];
    var after := parser.(data := parser.data + lines[0] + "\n");
    assert DataLines(lines) + [""] == [first] + rest;
    ProcessPrintedField(parser, "data", lines[0], rest);
    DataField(parser, lines[0]);
    if |lines| == 1 {
      assert rest == [""] + [];
      ProcessBlank(after, []);
      DispatchData(parser, lines[0]);
    } else {
      DataLinesJoin(after, lines[1..]);
      assert after.data + Join(lines[1..]) == parser.data + Join(lines);
    }
  }

  lemma DataField(parser: Parser, value: string)
    ensures ProcessField(parser, "data", value) == parser.(data := parser.data + value + "\n")
  {
  }

  lemma DispatchData(parser: Parser, value: string)
    ensures Dispatch(parser.(data := parser.data + value + "\n")) + ProcessLines(Parser("", "", parser.lastEventId), [])
      == [Message(if parser.event == "" then "message" else parser.event, parser.data + value, parser.lastEventId)]
  {
    var data := parser.data + value + "\n";
    assert data[..|data| - 1] == parser.data + value;
  }

  ghost function DataLines(lines: seq<string>): seq<string> {
    if lines == [] then [] else [FieldLine("data", lines[0])] + DataLines(lines[1..])
  }

  const BYTE_ORDER_MARK: char := '\U{FEFF}'

  /** All events dispatched while reading a whole stream. */
  function Parse(stream: string): seq<Message> {
    var text := if stream != "" && stream[0] == BYTE_ORDER_MARK then stream[1..] else stream;
    ProcessLines(Parser("", "", ""), Lines(text))
  }

  // ---------- reading back what was printed ----------

  function PrintAll(frames: seq<Frame>): string {
    if frames == [] then "" else Print(frames[0]) + PrintAll(frames[1..])
  }

  predicate Printable(frame: Frame) {
    OneLine(frame.event) && OneLine(frame.data) && (frame.id.Some? ==> OneLine(frame.id.value))
  }

  /** The last event id after a frame: its own, unless it has none or one with a NUL. */
  function IdAfter(frame: Frame, previous: string): string {
    if frame.id.Some? && frame.id.value != "" && '\0' !in frame.id.value then frame.id.value else previous
  }

  function EventName(frame: Frame): string {
    if frame.event == "" then "message" else frame.event
  }

  /** The events the frames stand for, each with the most recent id. */
  function Messages(frames: seq<Frame>, lastEventId: string): seq<Message> {
    if frames == [] then []
    else
      var id := IdAfter(frames[0], lastEventId);
      [Message(EventName(frames[0]), frames[0].data, id)] + Messages(frames[1..], id)
  }

  /** One event for each frame, in order. */
  lemma {:induction false} MessagesInOrder(frames: seq<Frame>, lastEventId: string)
    ensures |Messages(frames, lastEventId)| == |frames|
    ensures forall i :: 0 <= i < |frames| ==>
      && Messages(frames, lastEventId)[i].event == EventName(frames[i])
      && Messages(frames, lastEventId)[i].data == frames[i].data
  {
    if frames != [] {
      MessagesInOrder(frames[1..], IdAfter(frames[0], lastEventId));
    }
  }

  /** Parsing any sequence of printed frames gives back their names, data and ids, in order. */
  lemma ParsePrinted(frames: seq<Frame>)
    requires forall frame :: frame in frames ==> Printable(frame)
    ensures Parse(PrintAll(frames)) == Messages(frames, "")
  {
    NoByteOrderMark(frames);
    ProcessPrinted(frames, "");
  }

  lemma NoByteOrderMark(frames: seq<Frame>)
    ensures PrintAll(frames) != "" ==> PrintAll(frames)[0] != BYTE_ORDER_MARK
  {
    if frames != [] {
      var lines := FrameLines(frames[0]) + [""];
      assert Print(frames[0]) == lines[0] + "\n" + Terminated(lines[1..]);
      assert PrintAll(frames)[0] == lines[0][0];
      assert lines[0][0] == 'i' || lines[0][0] == 'e';
    }
  }

  lemma {:induction false} ProcessPrinted(frames: seq<Frame>, lastEventId: string)
    requires forall frame :: frame in frames ==> Printable(frame)
    ensures ProcessLines(Parser("", "", lastEventId), Lines(PrintAll(frames))) == Messages(frames, lastEventId)
  {
    if frames == [] {
      assert Lines("") == [];
    } else {
      var frame, rest := frames[0], Lines(PrintAll(frames[1..]));
      PrintableLines(frame);
      LinesOfTerminated(FrameLines(frame) + [""], PrintAll(frames[1..]));
      ProcessFrame(frame, lastEventId, rest);
      ProcessPrinted(frames[1..], IdAfter(frame, lastEventId));
    }
  }

  lemma PrintableLines(frame: Frame)
    requires Printable(frame)
    ensures forall line :: line in FrameLines(frame) + [""] ==> OneLine(line)
  {
  }

  lemma ProcessFrame(frame: Frame, lastEventId: string, rest: seq<string>)
    ensures ProcessLines(Parser("", "", lastEventId), FrameLines(frame) + [""] + rest)
      == [Message(EventName(frame), frame.data, IdAfter(frame, lastEventId))]
         + ProcessLines(Parser("", "", IdAfter(frame, lastEventId)), rest)
  {
    hide ProcessLines, EventName, FieldLine;
    var body := [FieldLine("event", frame.event)] + ([FieldLine("data", frame.data)] + ([""] + rest));
    ProcessBody(frame, IdAfter(frame, lastEventId), rest);
    if frame.id.Some? && frame.id.value != "" {
      assert FrameLines(frame) + [""] + rest == [FieldLine("id", frame.id.value)] + body;
      ProcessPrintedField(Parser("", "", lastEventId), "id", frame.id.value, body);
    } else {
      assert FrameLines(frame) + [""] + rest == body;
    }
  }

  lemma ProcessBody(frame: Frame, id: string, rest: seq<string>)
    ensures ProcessLines(Parser("", "", id),
              [FieldLine("event", frame.event)] + ([FieldLine("data", frame.data)] + ([""] + rest)))
      == [Message(EventName(frame), frame.data, id)] + ProcessLines(Parser("", "", id), rest)
  {
    hide ProcessLines, FieldName, FieldValue, FieldLine;
    var parser := Parser("", frame.event, id);
    var ready := Parser(frame.data + "\n", frame.event, id);
    ProcessPrintedField(Parser("", "", id), "event", frame.event, [FieldLine("data", frame.data)] + ([""] + rest));
    ProcessPrintedField(parser, "data", frame.data, [""] + rest);
    assert "" + frame.data == frame.data;
    ProcessBlank(ready, rest);
    assert ready.data[..|ready.data| - 1] == frame.data;
  }

  lemma ProcessBlank(parser: Parser, rest: seq<string>)
    ensures ProcessLines(parser, [""] + rest)
      == Dispatch(parser) + ProcessLines(Parser("", "", parser.lastEventId), rest)
  {
    assert ([""] + rest)[1..] == rest;
  }

  lemma ProcessPrintedField(parser: Parser, name: string, value: string, rest: seq<string>)
    requires name != "" && ':' !in name
    ensures ProcessLines(parser, [FieldLine(name, value)] + rest)
      == ProcessLines(ProcessField(parser, name, value), rest)
  {
    hide FieldName, FieldValue, ProcessField;
    var line := FieldLine(name, value);
    FieldRead(name, value);
    assert ([line] + rest)[0] == line && ([line] + rest)[1..] == rest;
  }

  /** A printed field is read back. */
  lemma FieldRead(name: string, value: string)
    requires name != "" && ':' !in name
    ensures var line := FieldLine(name, value);
      FieldName(line) == name && FieldValue(line) == value && line != "" && line[0] != ':'
  {
    FieldSplits(name, value);
    assert FieldLine(name, value) == name + ":" + (" " + value);
  }

  // ---------- which ids survive ----------

  predicate CleanId(id: string) {
    OneLine(id) && '\0' !in id
  }

  /** No event ever carries an id with a line break or a NUL. */
  lemma {:induction false} DispatchedIdsClean(parser: Parser, lines: seq<string>)
    requires CleanId(parser.lastEventId) && forall line :: line in lines ==> OneLine(line)
    ensures forall message :: message in ProcessLines(parser, lines) ==> CleanId(message.lastEventId)
    decreases lines
  {
    if lines != [] {
      var rest := lines[1..];
      if lines[0] == "" {
        DispatchedIdsClean(Parser("", "", parser.lastEventId), rest);
      } else if lines[0][0] == ':' {
        DispatchedIdsClean(parser, rest);
      } else {
        DispatchedIdsClean(ProcessField(parser, FieldName(lines[0]), FieldValue(lines[0])), rest);
      }
    }
  }

  /** A frame whose name and data are single lines is read back with its id exactly when the id has neither
      a line break nor a NUL. */
  lemma FrameReadBackIff(frame: Frame)
    requires OneLine(frame.event) && OneLine(frame.data) && frame.id.Some? && frame.id.value != ""
    ensures Parse(Print(frame)) == [Message(EventName(frame), frame.data, frame.id.value)] <==> CleanId(frame.id.value)
  {
    assert PrintAll([frame]) == Print(frame);
    if CleanId(frame.id.value) {
      ParsePrinted([frame]);
      assert Messages([frame][1..], frame.id.value) == [];
    } else {
      var text := Print(frame);
      NoByteOrderMark([frame]);
      DispatchedIdsClean(Parser("", "", ""), Lines(text));
      var message := Message(EventName(frame), frame.data, frame.id.value);
      assert message !in Parse(text) && message in [message];
    }
  }

  // ---------- whole streams with any ids ----------

  predicate IdOneLine(frame: Frame) {
    frame.id.Some? ==> OneLine(frame.id.value)
  }

  /** Frames whose names and data are single lines, and whose ids have no NUL, are read back exactly when every id is
      a single line. */
  lemma StreamReadBackIff(frames: seq<Frame>)
    requires forall frame :: frame in frames ==> OneLine(frame.event) && OneLine(frame.data)
    requires forall frame :: frame in frames && frame.id.Some? ==> '\0' !in frame.id.value
    ensures Parse(PrintAll(frames)) == Messages(frames, "") <==> forall frame :: frame in frames ==> IdOneLine(frame)
  {
    if forall frame :: frame in frames ==> IdOneLine(frame) {
      ParsePrinted(frames);
    } else {
      var i :| 0 <= i < |frames| && !IdOneLine(frames[i]);
      var text := PrintAll(frames);
      NoByteOrderMark(frames);
      DispatchedIdsClean(Parser("", "", ""), Lines(text));
      IdIsStated(frames, "", i);
      assert Messages(frames, "")[i] in Messages(frames, "");
    }
  }

  /** The event of a frame with an id carries that id. */
  lemma {:induction false} IdIsStated(frames: seq<Frame>, lastEventId: string, i: nat)
    requires i < |frames| && frames[i].id.Some? && frames[i].id.value != "" && '\0' !in frames[i].id.value
    ensures i < |Messages(frames, lastEventId)|
    ensures Messages(frames, lastEventId)[i].lastEventId == frames[i].id.value
  {
    if i > 0 {
      IdIsStated(frames[1..], IdAfter(frames[0], lastEventId), i - 1);
    }
  }
}
