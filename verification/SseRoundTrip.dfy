/**
 What a client recovers from a stream of printed frames: exactly when it recovers
 every frame, and exactly when it recovers a frame appended to arbitrary bytes.
 */
module SseRoundTrip {
  import opened Sse

  datatype Frame = Frame(kind: string, data: string)

  /** The bytes of a sequence of frames. */
  function StreamText(frames: seq<Frame>): string {
    if frames == [] then "" else FrameText(frames[0].kind, frames[0].data) + StreamText(frames[1..])
  }

  /** The events those frames are meant to be. */
  function Events(frames: seq<Frame>): (events: seq<Event>)
    ensures |events| == |frames|
    ensures forall i | 0 <= i < |frames| :: events[i] == Event(EventName(frames[i].kind), frames[i].data)
  {
    if frames == [] then [] else [Event(EventName(frames[0].kind), frames[0].data)] + Events(frames[1..])
  }

  predicate AllOneLine(frames: seq<Frame>) {
    forall i | 0 <= i < |frames| :: OneLine(frames[i].kind) && OneLine(frames[i].data)
  }

  predicate AtBoundary(d: Decoder) {
    d.line == "" && d.data == "" && d.kind == ""
  }

  lemma {:induction false} StreamConcat(a: seq<Frame>, b: seq<Frame>)
    ensures StreamText(a + b) == StreamText(a) + StreamText(b)
    decreases |a|
  {
    if a == [] {
      assert a + b == b;
    } else {
      assert (a + b)[1..] == a[1..] + b && (a + b)[0] == a[0];
      StreamConcat(a[1..], b);
      Reassociate(FrameText(a[0].kind, a[0].data), StreamText(a[1..]), StreamText(b));
    }
  }

  lemma Reassociate(a: string, b: string, c: string)
    ensures a + (b + c) == (a + b) + c
  {
  }

  // ------------------------------------------------------ frames that round-trip

  lemma {:induction false} RunStream(d: Decoder, frames: seq<Frame>)
    requires AtBoundary(d) && AllOneLine(frames)
    ensures Run(d, StreamText(frames)).events == d.events + Events(frames)
    decreases |frames|
  {
    if frames == [] {
    } else {
      var first, rest := FrameText(frames[0].kind, frames[0].data), StreamText(frames[1..]);
      var event := Event(EventName(frames[0].kind), frames[0].data);
      RunConcat(d, first, rest);
      FrameDecodes(d, frames[0].kind, frames[0].data);
      RunStream(Run(d, first), frames[1..]);
      EventsAppend(d.events, event, Events(frames[1..]));
    }
  }

  lemma EventsAppend(before: seq<Event>, event: Event, after: seq<Event>)
    ensures (before + [event]) + after == before + ([event] + after)
  {
  }

  lemma StreamHasNoBom(frames: seq<Frame>)
    ensures StripBom(StreamText(frames)) == StreamText(frames)
  {
    if frames != [] {
      assert FrameText(frames[0].kind, frames[0].data)[0] == 'e';
    }
  }

  // -------------------------------------------------- frames that cannot round-trip

  /** The number of characters that do not end a line. */
  function Plain(s: string): (n: nat)
    ensures n <= |s|
  {
    if s == "" then 0 else (if IsBreak(s[0]) then 0 else 1) + Plain(s[1..])
  }

  function EventsWeight(events: seq<Event>): nat {
    if events == [] then 0 else EventsWeight(events[..|events| - 1]) + |events[|events| - 1].data| + 1
  }

  /** Every character that can still end up in, or is already in, some event's data;
      a finished event counts one more, for the line break its data lost. */
  function Weight(d: Decoder): nat {
    |d.line| + |d.data| + EventsWeight(d.events)
  }

  /** What every run from the start keeps. */
  predicate Sane(d: Decoder) {
    && (d.data != "" ==> d.data[|d.data| - 1] == '\n')
    && (d.afterCR ==> d.line == "")
    && OneLine(d.line) && OneLine(d.kind)
    && (forall i | 0 <= i < |d.events| :: OneLine(d.events[i].kind))
  }

  lemma LineKeepsSane(d: Decoder, line: string)
    requires Sane(d) && d.line == "" && OneLine(line)
    ensures Sane(ProcessLine(d, line)) && ProcessLine(d, line).line == ""
    ensures Weight(ProcessLine(d, line)) <= Weight(d) + |line|
  {
    if line == "" {
      DispatchKeepsSane(d);
    } else {
      assert OneLine(FieldValue(line));
      assert |FieldValue(line)| + |FieldName(line)| <= |line|;
    }
  }

  lemma DispatchKeepsSane(d: Decoder)
    requires Sane(d)
    ensures Sane(Dispatch(d)) && Weight(Dispatch(d)) <= Weight(d)
  {
    if d.data != "" {
      var event := Event(EventName(d.kind), DropFinalBreak(d.data));
      assert (d.events + [event])[..|d.events|] == d.events;
    }
  }

  lemma FeedKeepsSane(d: Decoder, c: char)
    requires Sane(d)
    ensures Sane(Feed(d, c))
    ensures c == '\n' ==> Feed(d, c).line == ""
    ensures Weight(Feed(d, c)) <= Weight(d) + if IsBreak(c) then 0 else 1
  {
    if IsBreak(c) && !(c == '\n' && d.afterCR) {
      LineKeepsSane(d.(line := "", afterCR := c == '\r'), d.line);
    }
  }

  lemma {:induction false} RunKeepsSane(d: Decoder, text: string)
    requires Sane(d)
    ensures Sane(Run(d, text))
    ensures Weight(Run(d, text)) <= Weight(d) + Plain(text)
    decreases |text|
  {
    if text != "" {
      FeedKeepsSane(d, text[0]);
      RunKeepsSane(Feed(d, text[0]), text[1..]);
    }
  }

  lemma {:induction false} PlainConcat(a: string, b: string)
    ensures Plain(a + b) == Plain(a) + Plain(b)
    decreases |a|
  {
    if a == "" {
      assert a + b == b;
    } else {
      assert (a + b)[0] == a[0] && (a + b)[1..] == a[1..] + b;
      PlainConcat(a[1..], b);
    }
  }

  lemma {:induction false} PlainIsAll(s: string)
    ensures Plain(s) == |s| <==> OneLine(s)
    decreases |s|
  {
    if s != "" {
      PlainIsAll(s[1..]);
      if OneLine(s) {
        assert forall i | 0 <= i < |s[1..]| :: s[1..][i] == s[i + 1];
      } else {
        var i :| 0 <= i < |s| && IsBreak(s[i]);
        assert i > 0 ==> s[1..][i - 1] == s[i];
      }
    }
  }

  /** The longest prefix without a line break. */
  function FirstLine(s: string): (k: nat)
    ensures k <= |s| && OneLine(s[..k])
    ensures k < |s| ==> IsBreak(s[k])
  {
    if s == "" || IsBreak(s[0]) then 0
    else
      var k := FirstLine(s[1..]);
      assert forall i | 0 < i < 1 + k :: s[i] == s[1..][..k][i - 1];
      1 + k
  }

  /** One frame adds at most the plain characters of its data, plus one: the field
      names it prints are spent on naming fields. */
  lemma FrameWeight(d: Decoder, kind: string, data: string)
    requires Sane(d) && d.line == "" && OneLine(kind)
    ensures var e := Run(d, FrameText(kind, data));
            Sane(e) && e.line == "" && Weight(e) <= Weight(d) + Plain(data) + 1
  {
    FrameLines(kind, data);
    var rest := DataLine(data) + "\n" + "\n";
    var m := Run(d, EventLine(kind) + "\n");
    RunConcat(d, EventLine(kind) + "\n", rest);
    RunKeepsSane(d, EventLine(kind) + "\n");
    RunLine(d, EventLine(kind));
    assert "" + EventLine(kind) == EventLine(kind);
    ProcessEventLine(d.(line := "", afterCR := false), kind);
    assert Weight(m) == Weight(d) && m.line == "";
    DataWeight(m, data);
  }

  /** The data line runs up to the first line break, be it the frame's own or one
      inside the data. */
  lemma DataLineEnds(m: Decoder, line: string, stop: char)
    requires m.line == "" && !m.afterCR && OneLine(line) && IsBreak(stop)
    ensures Run(m, DataLine(line) + [stop]) == m.(data := m.data + line + "\n", afterCR := stop == '\r')
  {
    RunConcat(m, DataLine(line), [stop]);
    RunOneLine(m, DataLine(line));
    var n := Run(m, DataLine(line));
    assert "" + DataLine(line) == DataLine(line);
    RunOne(n, stop);
    ProcessDataLine(n.(line := "", afterCR := stop == '\r'), line);
  }

  lemma RunOne(d: Decoder, c: char)
    ensures Run(d, [c]) == Feed(d, c)
  {
    assert Run(d, [c]) == Run(Feed(d, c), "");
  }

  lemma DataWeight(m: Decoder, data: string)
    requires Sane(m) && m.line == "" && !m.afterCR
    ensures var e := Run(m, DataLine(data) + "\n" + "\n");
            Sane(e) && e.line == "" && Weight(e) <= Weight(m) + Plain(data) + 1
  {
    var k := FirstLine(data);
    var padded := data + "\n" + "\n";
    var first, tail := DataLine(data[..k]) + [padded[k]], padded[k + 1..];
    DataLineSplit(data, k);
    RunConcat(m, first, tail);
    DataLineEnds(m, data[..k], padded[k]);
    var o := Run(m, first);
    RunKeepsSane(m, first);
    RunKeepsSane(o, tail);
    LineEndsAfter(o, tail, padded, k);
    PaddedPlain(data, k);
  }

  lemma DataLineSplit(data: string, k: nat)
    requires k <= |data|
    ensures var padded := data + "\n" + "\n";
            DataLine(data) + "\n" + "\n" == (DataLine(data[..k]) + [padded[k]]) + padded[k + 1..]
  {
  }

  lemma PaddedPlain(data: string, k: nat)
    requires k == FirstLine(data)
    ensures k + Plain((data + "\n" + "\n")[k + 1..]) <= Plain(data)
  {
    var padded := data + "\n" + "\n";
    assert padded == data[..k] + ([padded[k]] + padded[k + 1..]);
    PlainConcat(data[..k], [padded[k]] + padded[k + 1..]);
    PlainConcat([padded[k]], padded[k + 1..]);
    PlainIsAll(data[..k]);
    PlainConcat(data + "\n", "\n");
    PlainConcat(data, "\n");
    assert Plain("\n") == 0;
  }

  lemma LineEndsAfter(o: Decoder, tail: string, padded: string, k: nat)
    requires Sane(o) && o.line == ""
    requires |padded| >= 2 && padded[|padded| - 1] == '\n' && k + 1 < |padded| && tail == padded[k + 1..]
    ensures Run(o, tail).line == ""
  {
    var last := |tail| - 1;
    assert tail == tail[..last] + "\n";
    RunConcat(o, tail[..last], "\n");
    RunKeepsSane(o, tail[..last]);
    var p := Run(o, tail[..last]);
    assert Run(p, "\n") == Run(Feed(p, '\n'), "");
    FeedKeepsSane(p, '\n');
  }

  function PlainTotal(frames: seq<Frame>): nat {
    if frames == [] then 0 else Plain(frames[0].data) + 1 + PlainTotal(frames[1..])
  }

  lemma {:induction false} StreamWeight(d: Decoder, frames: seq<Frame>)
    requires Sane(d) && d.line == "" && forall i | 0 <= i < |frames| :: OneLine(frames[i].kind)
    ensures Weight(Run(d, StreamText(frames))) <= Weight(d) + PlainTotal(frames)
    decreases |frames|
  {
    if frames != [] {
      RunConcat(d, FrameText(frames[0].kind, frames[0].data), StreamText(frames[1..]));
      FrameWeight(d, frames[0].kind, frames[0].data);
      StreamWeight(Run(d, FrameText(frames[0].kind, frames[0].data)), frames[1..]);
    }
  }

  lemma {:induction false} EventsWeightConcat(a: seq<Event>, b: seq<Event>)
    ensures EventsWeight(a + b) == EventsWeight(a) + EventsWeight(b)
    decreases |b|
  {
    if b == [] {
      assert a + b == a;
    } else {
      assert (a + b)[..|a + b| - 1] == a + b[..|b| - 1];
      EventsWeightConcat(a, b[..|b| - 1]);
    }
  }

  /** The meant events weigh at least as much as the plain characters, and strictly
      more as soon as some frame holds a line break. */
  lemma {:induction false} MeantWeight(frames: seq<Frame>)
    ensures EventsWeight(Events(frames)) >= PlainTotal(frames)
    ensures EventsWeight(Events(frames)) <= PlainTotal(frames) ==> forall i | 0 <= i < |frames| :: OneLine(frames[i].data)
    decreases |frames|
  {
    if frames != [] {
      var head := [Event(EventName(frames[0].kind), frames[0].data)];
      EventsWeightConcat(head, Events(frames[1..]));
      assert EventsWeight(head) == EventsWeight(head[..0]) + |frames[0].data| + 1;
      MeantWeight(frames[1..]);
      PlainIsAll(frames[0].data);
      assert forall i | 1 <= i < |frames| :: frames[i] == frames[1..][i - 1];
    }
  }

  /** Main result for typed frames: a client recovers the whole stream exactly when
      no type and no frame contains a line break. */
  lemma StreamDecodesExactly(frames: seq<Frame>)
    ensures Decode(StreamText(frames)) == Events(frames) <==> AllOneLine(frames)
  {
    StreamHasNoBom(frames);
    if AllOneLine(frames) {
      RunStream(START, frames);
    } else if Decode(StreamText(frames)) == Events(frames) {
      RunKeepsSane(START, StreamText(frames));
      forall i | 0 <= i < |frames|
        ensures OneLine(frames[i].kind)
      {
        assert OneLine(Decode(StreamText(frames))[i].kind);
      }
      StreamWeight(START, frames);
      MeantWeight(frames);
      assert false;
    }
  }

  // ------------------------------------------------------- appending to raw bytes

  lemma {:induction false} RunShift(pre: seq<Event>, d: Decoder, text: string)
    ensures Run(d.(events := pre + d.events), text) == Run(d, text).(events := pre + Run(d, text).events)
    decreases |text|
  {
    if text != "" {
      var e := Feed(d, text[0]);
      assert Feed(d.(events := pre + d.events), text[0]) == e.(events := pre + e.events) by {
        if d.line == "" && IsBreak(text[0]) && d.data != "" {
          var event := Event(EventName(d.kind), DropFinalBreak(d.data));
          assert pre + d.events + [event] == pre + (d.events + [event]);
        }
      }
      RunShift(pre, e, text[1..]);
    }
  }

  /** The decoder after the bytes of a response so far. */
  function After(text: string): Decoder {
    Run(START, StripBom(text))
  }

  /** Decoding distributes over concatenation at an event boundary. */
  lemma DecodeConcat(a: string, b: string)
    requires AtBoundary(After(a))
    requires StripBom(b) == b
    ensures Decode(a + b) == Decode(a) + Decode(b)
  {
    AfterConcat(a, b);
    var d := After(a);
    assert d.events + [] == d.events;
    RunShift(d.events, d.(events := []), b);
    if d.afterCR && b != "" && b[0] == '\n' {
      assert Feed(d.(events := []), '\n') == START == Feed(START, '\n');
    } else if b != "" {
      assert Feed(d.(events := []), b[0]) == Feed(START, b[0]);
    }
  }

  lemma AfterConcat(a: string, b: string)
    requires StripBom(b) == b
    ensures After(a + b) == Run(After(a), b)
  {
    if a == "" {
      assert a + b == b;
    } else {
      assert StripBom(a + b) == StripBom(a) + b;
      RunConcat(START, StripBom(a), b);
    }
  }

  /** Exactly the decoder states from which an appended one-line frame is recovered:
      no data may be buffered, and an unfinished line is only harmless when it is
      neither a data nor an event field and the buffered type is already the frame's. */
  predicate TakesFrame(d: Decoder, kind: string) {
    && d.data == ""
    && (d.line == "" ||
        (EventName(d.kind) == kind && !(':' in d.line && FieldName(d.line) in {"data", "event"})))
  }

  /** Main result for appended frames, in both directions and for every decoder
      state that upstream bytes can leave behind. */
  lemma AppendedFrameRecovered(d: Decoder, kind: string, data: string)
    requires OneLine(kind) && OneLine(data) && kind != ""
    ensures Run(d, FrameText(kind, data)).events == d.events + [Event(kind, data)] <==> TakesFrame(d, kind)
  {
    RunFrame(d, kind, data);
    var start := d.(line := "", afterCR := false);
    var joined := d.line + EventLine(kind);
    var e := ProcessLine(start, joined);
    ProcessDataLine(e, data);
    var raw := e.data + data + "\n";
    assert DropFinalBreak(raw) == e.data + data;
    assert Run(d, FrameText(kind, data)).events == d.events + [Event(EventName(e.kind), e.data + data)];
    if d.line == "" {
      assert joined == EventLine(kind);
      ProcessEventLine(start, kind);
    } else {
      JoinedLine(start, d.line, kind);
    }
    if e.data == "" {
      assert e.data + data == data;
    }
    assert (d.events + [Event(EventName(e.kind), e.data + data)])[|d.events|] == Event(EventName(e.kind), e.data + data);
    assert (d.events + [Event(kind, data)])[|d.events|] == Event(kind, data);
  }

  /** How an unfinished line swallows the frame's event line. */
  lemma JoinedLine(d: Decoder, line: string, kind: string)
    requires line != "" && kind != ""
    ensures var e := ProcessLine(d, line + EventLine(kind));
            if ':' in line && FieldName(line) == "data" then e.data != ""
            else if ':' in line && FieldName(line) == "event" then EventName(e.kind) != kind && e.data == d.data
            else e.kind == d.kind && e.data == d.data
  {
    var joined := line + EventLine(kind);
    if ':' in line {
      ColonOfPrefix(line, EventLine(kind));
      assert FieldName(joined) == FieldName(line);
      assert |FieldValue(joined)| >= |EventLine(kind)| - 1;
    } else {
      NoColon(line);
      assert joined == (line + "event") + ":" + (" " + kind);
      assert ':' !in line + "event";
      ColonAt(line + "event", " " + kind);
      assert FieldName(joined) == line + "event";
      assert FieldName(joined)[|line|..] == "event";
    }
  }

  lemma NoColon(line: string)
    requires ':' !in line
    ensures Colon(line) == |line|
  {
  }

  lemma ColonOfPrefix(line: string, rest: string)
    requires ':' in line
    ensures Colon(line) < |line| && Colon(line + rest) == Colon(line)
  {
    var k, j := Colon(line), Colon(line + rest);
    assert k < |line|;
    assert (line + rest)[k] == ':';
    assert forall i | 0 <= i < k :: (line + rest)[i] == line[i];
  }
}
