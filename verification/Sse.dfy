/**
 A decoder for server-sent events, written from sections 9.2.5 and 9.2.6 of the
 HTML Living Standard. It is the independent reading of the bytes that the frame
 pumps print: what a conforming client makes of them.

 A `char` stands for one decoded code point. The decoder reports the type and the
 data of each dispatched event; `id` and `retry` fields have no influence on
 either and are skipped like any unknown field.
 */
module Sse {

  datatype Event = Event(kind: string, data: string)

  /** The state between two characters: the unfinished line, whether the character
      before it was a CR (whose LF partner must be swallowed), the data and event
      type buffers, and the events dispatched so far. */
  datatype Decoder = Decoder(line: string, afterCR: bool, data: string, kind: string, events: seq<Event>)

  const START := Decoder("", false, "", "", [])
  const BOM: char := '\U{FEFF}'

  predicate IsBreak(c: char) {
    c == '\r' || c == '\n'
  }

  predicate OneLine(s: string) {
    forall i | 0 <= i < |s| :: !IsBreak(s[i])
  }

  /** The position of the first colon, or the length when there is none. */
  function Colon(line: string): (k: nat)
    ensures k <= |line|
    ensures forall i | 0 <= i < k :: line[i] != ':'
    ensures k < |line| ==> line[k] == ':'
  {
    if line == "" || line[0] == ':' then 0 else 1 + Colon(line[1..])
  }

  function FieldName(line: string): string {
    line[..Colon(line)]
  }

  function FieldValue(line: string): string {
    if Colon(line) == |line| then ""
    else
      var value := line[Colon(line) + 1..];
      if value != "" && value[0] == ' ' then value[1..] else value
  }

  /** An event whose type buffer is empty is a "message". */
  function EventName(kind: string): string {
    if kind == "" then "message" else kind
  }

  function DropFinalBreak(data: string): string {
    if data != "" && data[|data| - 1] == '\n' then data[..|data| - 1] else data
  }

  /** The "dispatch the event" steps: nothing is dispatched when the data buffer
      is empty, and both buffers are cleared either way. */
  function Dispatch(d: Decoder): Decoder {
    if d.data == "" then d.(kind := "")
    else d.(data := "", kind := "", events := d.events + [Event(EventName(d.kind), DropFinalBreak(d.data))])
  }

  function ProcessLine(d: Decoder, line: string): Decoder {
    if line == "" then Dispatch(d)
    else if line[0] == ':' then d
    else if FieldName(line) == "event" then d.(kind := FieldValue(line))
    else if FieldName(line) == "data" then d.(data := d.data + FieldValue(line) + "\n")
    else d
  }

  /** CRLF, a lone LF and a lone CR all end a line. */
  function Feed(d: Decoder, c: char): Decoder {
    if c == '\n' && d.afterCR then d.(afterCR := false)
    else if IsBreak(c) then ProcessLine(d.(line := "", afterCR := c == '\r'), d.line)
    else d.(line := d.line + [c], afterCR := false)
  }

  function Run(d: Decoder, text: string): Decoder
    decreases |text|
  {
    if text == "" then d else Run(Feed(d, text[0]), text[1..])
  }

  function StripBom(text: string): string {
    if text != "" && text[0] == BOM then text[1..] else text
  }

  /** What is still buffered at the end of the stream is discarded. */
  function Decode(text: string): seq<Event> {
    Run(START, StripBom(text)).events
  }

  /** One printed frame. */
  function FrameText(kind: string, data: string): string {
    "event: " + kind + "\ndata: " + data + "\n\n"
  }

  // ---------------------------------------------------------------- running

  lemma {:induction false} RunConcat(d: Decoder, a: string, b: string)
    ensures Run(d, a + b) == Run(Run(d, a), b)
    decreases |a|
  {
    if a == "" {
      assert a + b == b;
    } else {
      assert (a + b)[0] == a[0] && (a + b)[1..] == a[1..] + b;
      RunConcat(Feed(d, a[0]), a[1..], b);
    }
  }

  lemma {:induction false} RunOneLine(d: Decoder, text: string)
    requires OneLine(text)
    ensures Run(d, text) == d.(line := d.line + text, afterCR := d.afterCR && text == "")
    decreases |text|
  {
    if text == "" {
      assert d.line + text == d.line;
    } else {
      RunOneLine(Feed(d, text[0]), text[1..]);
      assert d.line + [text[0]] + text[1..] == d.line + text;
    }
  }

  /** A line fed to a decoder with an unfinished line completes that line. */
  lemma RunLine(d: Decoder, text: string)
    requires OneLine(text) && text != ""
    ensures Run(d, text + "\n") == ProcessLine(d.(line := "", afterCR := false), d.line + text)
  {
    RunConcat(d, text, "\n");
    RunOneLine(d, text);
    var m := Run(d, text);
    assert Run(m, "\n") == Run(Feed(m, '\n'), "");
  }

  lemma RunBlank(d: Decoder)
    requires d.line == "" && !d.afterCR
    ensures Run(d, "\n") == Dispatch(d)
  {
    assert Run(d, "\n") == Run(Feed(d, '\n'), "");
    assert d.(line := "", afterCR := false) == d;
  }

  lemma ColonAt(name: string, rest: string)
    requires ':' !in name
    ensures Colon(name + ":" + rest) == |name|
  {
    var line := name + ":" + rest;
    assert line[|name|] == ':';
    assert forall i | 0 <= i < |name| :: line[i] == name[i];
  }

  lemma FieldOf(name: string, value: string)
    requires ':' !in name
    ensures FieldName(name + ": " + value) == name && FieldValue(name + ": " + value) == value
  {
    var line := name + ": " + value;
    assert line == name + ":" + (" " + value);
    ColonAt(name, " " + value);
    assert line[..|name|] == name;
    assert line[|name| + 1..] == " " + value;
    assert (" " + value)[1..] == value;
  }

  lemma RunLineThen(d: Decoder, line: string, rest: string)
    requires OneLine(line) && line != ""
    ensures Run(d, line + "\n" + rest) == Run(ProcessLine(d.(line := "", afterCR := false), d.line + line), rest)
  {
    RunConcat(d, line + "\n", rest);
    RunLine(d, line);
  }

  lemma ProcessLineKeepsPlace(d: Decoder, line: string)
    ensures ProcessLine(d, line).line == d.line && ProcessLine(d, line).afterCR == d.afterCR
  {
  }

  lemma RunLineAndBlank(d: Decoder, line: string)
    requires OneLine(line) && line != "" && d.line == "" && !d.afterCR
    ensures Run(d, line + "\n" + "\n") == Dispatch(ProcessLine(d, line))
  {
    RunLineThen(d, line, "\n");
    assert d.(line := "", afterCR := false) == d && d.line + line == line;
    ProcessLineKeepsPlace(d, line);
    RunBlank(ProcessLine(d, line));
  }

  lemma RunTwoLines(d: Decoder, first: string, second: string)
    requires OneLine(first) && OneLine(second) && first != "" && second != ""
    ensures Run(d, first + "\n" + (second + "\n" + "\n")) ==
            Dispatch(ProcessLine(ProcessLine(d.(line := "", afterCR := false), d.line + first), second))
  {
    RunLineThen(d, first, second + "\n" + "\n");
    ProcessLineKeepsPlace(d.(line := "", afterCR := false), d.line + first);
    RunLineAndBlank(ProcessLine(d.(line := "", afterCR := false), d.line + first), second);
  }

  function EventLine(kind: string): (line: string)
    ensures line != "" && (OneLine(kind) ==> OneLine(line))
  {
    "event: " + kind
  }

  function DataLine(data: string): (line: string)
    ensures line != "" && (OneLine(data) ==> OneLine(line))
  {
    "data: " + data
  }

  lemma FrameLines(kind: string, data: string)
    ensures FrameText(kind, data) == EventLine(kind) + "\n" + (DataLine(data) + "\n" + "\n")
  {
  }

  /** A frame fed to any decoder: its two lines and the blank line, the first of
      them appended to whatever line was unfinished. */
  lemma RunFrame(d: Decoder, kind: string, data: string)
    requires OneLine(kind) && OneLine(data)
    ensures Run(d, FrameText(kind, data)) ==
            Dispatch(ProcessLine(ProcessLine(d.(line := "", afterCR := false), d.line + EventLine(kind)), DataLine(data)))
  {
    FrameLines(kind, data);
    RunTwoLines(d, EventLine(kind), DataLine(data));
  }

  lemma ProcessEventLine(d: Decoder, kind: string)
    ensures ProcessLine(d, EventLine(kind)) == d.(kind := kind)
  {
    FieldOf("event", kind);
    assert "event" + ": " + kind == EventLine(kind);
  }

  lemma ProcessDataLine(d: Decoder, data: string)
    ensures ProcessLine(d, DataLine(data)) == d.(data := d.data + data + "\n")
  {
    FieldOf("data", data);
    assert "data" + ": " + data == DataLine(data);
  }

  /** At an event boundary a one-line frame decodes to exactly itself. */
  lemma FrameDecodes(d: Decoder, kind: string, data: string)
    requires d.line == "" && d.data == "" && OneLine(kind) && OneLine(data)
    ensures Run(d, FrameText(kind, data)) == Decoder("", false, "", "", d.events + [Event(EventName(kind), data)])
  {
    RunFrame(d, kind, data);
    assert "" + EventLine(kind) == EventLine(kind);
    var start := d.(line := "", afterCR := false);
    ProcessEventLine(start, kind);
    ProcessDataLine(start.(kind := kind), data);
    assert "" + data + "\n" == data + "\n";
    assert (data + "\n")[..|data|] == data;
  }
}
