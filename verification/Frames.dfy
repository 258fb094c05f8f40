/**
 The frame pumps: loops that read upstream messages and print them as server-sent
 events, or gather them into one JSON body.
 */
module Frames {
  import opened Sse
  import opened SseRoundTrip
  import opened Options
  import opened HttpWriter
  import opened Upstream
  import ErrorStatus
  import Json

  datatype Dialect = OpenAI | Anthropic | Responses

  /** How a pump ends; every error but a timeout is a normal end of stream. */
  datatype PumpError = NoError | ReadTimeout | WriteFailed

  const TERMINAL: set<string> :=
    {"response.completed", "response.failed", "response.cancelled", "response.incomplete", "error"}

  /** What unmarshalling a frame into its `type` and `response` members gives: `ok`
      is false when that fails, and the members hold what was set before it failed. */
  datatype Probe = Probe(ok: bool, kind: string, response: Option<string>)

  function ClassifyReadError(err: Error): PumpError {
    if IsTimeout(err) then ReadTimeout else NoError
  }

  // ------------------------------------------------------------- error frames

  const TIMEOUT_TEXT := "upstream read timeout"

  /** The payload of the proxy's own terminal frame in the dialect of the route. */
  function ErrorDoc(dialect: Dialect, msg: string, sequence: nat, startedAt: int): Json.Doc {
    var coded := Json.Dict([
      ("code", Json.Text("upstream_timeout")),
      ("message", Json.Text(msg)),
      ("type", Json.Text("proxy_error"))]);
    match dialect
    case Anthropic =>
      Json.Dict([
        ("error", Json.Dict([("message", Json.Text(msg)), ("type", Json.Text("proxy_error"))])),
        ("type", Json.Text("error"))])
    case Responses =>
      Json.Dict([
        ("response", Json.Dict([
          ("created_at", Json.Number(startedAt)),
          ("error", coded),
          ("id", Json.Text("resp_proxy_error")),
          ("model", Json.Text("")),
          ("object", Json.Text("response")),
          ("output", Json.List([])),
          ("status", Json.Text("failed"))])),
        ("sequence_number", Json.Number(sequence)),
        ("type", Json.Text("response.failed"))])
    case OpenAI =>
      Json.Dict([("error", coded)])
  }

  function ErrorKind(dialect: Dialect): string {
    if dialect == Responses then "response.failed" else "error"
  }

  function ErrorFrame(dialect: Dialect, msg: string, sequence: nat, startedAt: int): Frame {
    Frame(ErrorKind(dialect), Json.Marshal(ErrorDoc(dialect, msg, sequence, startedAt)))
  }

  function Printed(f: Frame): string {
    FrameText(f.kind, f.data)
  }

  lemma ErrorFrameIsOneLine(dialect: Dialect, msg: string, sequence: nat, startedAt: int)
    ensures var f := ErrorFrame(dialect, msg, sequence, startedAt);
            OneLine(f.kind) && OneLine(f.data) && f.kind in TERMINAL
  {
    Json.MarshalIsOneLine(ErrorDoc(dialect, msg, sequence, startedAt));
  }

  // ------------------------------------------------- calls on the response writer

  function SseHeaders(): seq<Call> {
    [SetHeader("Content-Type", "text/event-stream"),
     SetHeader("Cache-Control", "no-cache"),
     SetHeader("Connection", "keep-alive")]
  }

  /** Every chunk is written and flushed at once. */
  function Chunks(texts: seq<string>): seq<Call>
    decreases |texts|
  {
    if texts == [] then [] else Chunks(texts[..|texts| - 1]) + [Write(texts[|texts| - 1]), Flush]
  }

  function JsonReply(status: nat, body: string): seq<Call> {
    [SetHeader("Content-Type", "application/json"), WriteHeader(status), Write(body)]
  }

  function Flatten(texts: seq<string>): string {
    if texts == [] then "" else Flatten(texts[..|texts| - 1]) + texts[|texts| - 1]
  }

  /** The error frame that ends a stream which timed out after something was sent. */
  function Tail(emitted: bool, ending: PumpError, frame: Frame): seq<string> {
    if ending == ReadTimeout && emitted then [Printed(frame)] else []
  }

  // --------------------------------------------------------- specification: SSE

  /** The Unix time of Go's zero `time.Time`. */
  const ZERO_TIME := -62135596800

  function SseTail(emitted: bool, ending: PumpError, dialect: Dialect): seq<string> {
    Tail(emitted, ending, ErrorFrame(dialect, TIMEOUT_TEXT, 0, ZERO_TIME))
  }

  /** The stream mode of the SSE-bytes pump after its headers, for a client that
      takes `room` writes: the first refused write ends it. */
  function SseStream(msgs: seq<string>, ending: PumpError, dialect: Dialect, room: Option<nat>): seq<Call> {
    if room.Some? && room.value < |msgs| then
      Chunks(msgs[..room.value]) + [Write(msgs[room.value])]
    else
      Chunks(msgs) + Chunks(SseTail(|msgs| > 0, ending, dialect))
  }

  function SseStreamError(msgs: seq<string>, ending: PumpError, room: Option<nat>): PumpError {
    if room.Some? && room.value < |msgs| then WriteFailed else ending
  }

  /** The body's status: an error status when the body is an object with an `error`. */
  function BufferedStatus(doc: Option<ErrorStatus.Value>): nat {
    if doc.Some? && doc.value.Object? && (exists i | 0 <= i < |doc.value.fields| :: doc.value.fields[i].0 == "error")
    then ErrorStatus.MapErrorStatus(doc) else 200
  }

  function SseBuffered(msgs: seq<string>, ending: PumpError, parse: string -> Option<ErrorStatus.Value>): seq<Call> {
    if ending == ReadTimeout then [] else JsonReply(BufferedStatus(parse(Flatten(msgs))), Flatten(msgs))
  }

  // ------------------------------------------------------- specification: typed

  /** The position of the first message of a terminal type, or the number of
      messages when there is none. */
  function StopAt(msgs: seq<string>, probe: string -> Probe): (k: nat)
    ensures k <= |msgs|
    ensures forall i | 0 <= i < k :: probe(msgs[i]).kind !in TERMINAL
    ensures k < |msgs| ==> probe(msgs[k]).kind in TERMINAL
  {
    if msgs == [] || probe(msgs[0]).kind in TERMINAL then 0 else 1 + StopAt(msgs[1..], probe)
  }

  /** The messages up to and including that one. */
  function UpToTerminal(msgs: seq<string>, probe: string -> Probe): seq<string> {
    if StopAt(msgs, probe) < |msgs| then msgs[..StopAt(msgs, probe) + 1] else msgs
  }

  function TypedFrame(data: string, probe: string -> Probe): Frame {
    Frame(probe(data).kind, data)
  }

  function TypedTexts(msgs: seq<string>, probe: string -> Probe): (texts: seq<string>)
    ensures |texts| == |msgs|
  {
    seq(|msgs|, i requires 0 <= i < |msgs| => Printed(TypedFrame(msgs[i], probe)))
  }

  /** How the stream mode of the typed pump ends: a terminal frame comes first. */
  function TypedEnding(msgs: seq<string>, ending: PumpError, probe: string -> Probe): PumpError {
    if StopAt(msgs, probe) < |msgs| then NoError else ending
  }

  function TypedTail(msgs: seq<string>, ending: PumpError, probe: string -> Probe, dialect: Dialect, startedAt: int)
    : seq<string>
  {
    var taken := UpToTerminal(msgs, probe);
    Tail(|taken| > 0, TypedEnding(msgs, ending, probe), ErrorFrame(dialect, TIMEOUT_TEXT, |taken|, startedAt))
  }

  /** The stream mode of the typed pump after its headers; it takes no notice of
      refused writes. */
  function TypedStream(msgs: seq<string>, ending: PumpError, probe: string -> Probe, dialect: Dialect, startedAt: int)
    : seq<Call>
  {
    Chunks(TypedTexts(UpToTerminal(msgs, probe), probe)) + Chunks(TypedTail(msgs, ending, probe, dialect, startedAt))
  }

  /** The message the aggregating mode stops at: the first well-formed terminal one. */
  function FirstTerminal(msgs: seq<string>, probe: string -> Probe): Option<string> {
    if msgs == [] then None
    else if probe(msgs[0]).ok && probe(msgs[0]).kind in TERMINAL then Some(msgs[0])
    else FirstTerminal(msgs[1..], probe)
  }

  function AggregateStatus(stop: Option<string>, probe: string -> Probe, parse: string -> Option<ErrorStatus.Value>)
    : nat
  {
    if stop.None? || probe(stop.value).kind == "response.completed" then 200
    else ErrorStatus.MapErrorStatus(parse(stop.value))
  }

  function AggregateBody(stop: Option<string>, probe: string -> Probe): string {
    if stop.None? then "{}"
    else if probe(stop.value).kind != "response.completed" then stop.value
    else match probe(stop.value).response case Some(r) => r case None => "{}"
  }

  function TypedAggregate(msgs: seq<string>, ending: PumpError, probe: string -> Probe,
                          parse: string -> Option<ErrorStatus.Value>): seq<Call>
  {
    var stop := FirstTerminal(msgs, probe);
    if stop.None? && ending == ReadTimeout then []
    else JsonReply(AggregateStatus(stop, probe, parse), AggregateBody(stop, probe))
  }

  function TypedAggregateError(msgs: seq<string>, ending: PumpError, probe: string -> Probe): PumpError {
    if FirstTerminal(msgs, probe).None? then ending else NoError
  }

  // ------------------------------------------------------------------- methods

  method SetSseHeaders(w: ResponseWriter)
    modifies w.Objects()
    ensures w.Seen() == DoAll(old(w.Seen()), SseHeaders())
  {
    ghost var v := w.Seen();
    w.SetHeader("Content-Type", "text/event-stream");
    w.SetHeader("Cache-Control", "no-cache");
    w.SetHeader("Connection", "keep-alive");
    HeadersEffect(v);
  }

  lemma DoChunk(v: View, texts: seq<string>, text: string)
    ensures DoAll(v, Chunks(texts + [text])) == Do(Do(DoAll(v, Chunks(texts)), Write(text)), Flush)
  {
    var more := texts + [text];
    assert more[..|more| - 1] == texts;
    var c := Chunks(texts);
    assert Chunks(more) == (c + [Write(text)]) + [Flush];
    DoAllLast(v, c + [Write(text)], Flush);
    DoAllLast(v, c, Write(text));
  }

  /** How many of `n` writes the client still takes. */
  function Fit(room: Option<nat>, n: nat): nat {
    if room.Some? && room.value < n then room.value else n
  }

  function RoomAfter(room: Option<nat>, n: nat): Option<nat> {
    if room.Some? then Some(room.value - Fit(room, n)) else None
  }

  /** The effect of writing and flushing chunks: the first one commits, and the
      client gets the ones it still takes. */
  function AfterChunks(v: View, texts: seq<string>): View {
    if texts == [] then v
    else
      var w := Commit(v.wire, 200);
      var body := w.body + Flatten(texts[..Fit(w.room, |texts|)]);
      View(
        if v.rec.Some? then Some(v.rec.value.(committed := true)) else None,
        w.(body := body, flushed := |body|, room := RoomAfter(w.room, |texts|)))
  }

  lemma FlattenFit(room: Option<nat>, texts: seq<string>, last: string)
    ensures Flatten((texts + [last])[..Fit(room, |texts| + 1)]) ==
            Flatten(texts[..Fit(room, |texts|)]) + if room.Some? && room.value <= |texts| then "" else last
  {
    var more := texts + [last];
    if room.Some? && room.value <= |texts| {
      assert more[..room.value] == texts[..room.value];
    } else {
      assert more[..|more|] == more && texts[..|texts|] == texts;
      FlattenMore(texts, last);
    }
  }

  lemma FlattenMore(texts: seq<string>, last: string)
    ensures Flatten(texts + [last]) == Flatten(texts) + last
  {
    assert (texts + [last])[..|texts|] == texts;
  }

  lemma ChunkStep(v: View, texts: seq<string>, last: string)
    ensures AfterChunks(v, texts + [last]) == Do(Do(AfterChunks(v, texts), Write(last)), Flush)
  {
    FlattenFit(v.wire.room, texts, last);
    var sent := Flatten(texts[..Fit(v.wire.room, |texts|)]);
    Reassociate(v.wire.body, sent, last);
    if texts == [] {
      assert v.wire.body + sent == v.wire.body;
    }
  }

  lemma {:induction false} ChunksEffect(v: View, texts: seq<string>)
    ensures DoAll(v, Chunks(texts)) == AfterChunks(v, texts)
    ensures AfterChunks(v, texts).wire.room == RoomAfter(v.wire.room, |texts|)
    decreases |texts|
  {
    if texts != [] {
      var rest, last := texts[..|texts| - 1], texts[|texts| - 1];
      ChunksEffect(v, rest);
      assert rest + [last] == texts;
      DoChunk(v, rest, last);
      ChunkStep(v, rest, last);
    }
  }

  /** A stream is live: after each chunk everything the client has taken is pushed out,
      not only at the end. */
  lemma EachChunkIsFlushed(v: View, texts: seq<string>, n: nat)
    requires n <= |texts| && v.wire.flushed == |v.wire.body|
    ensures var w := DoAll(v, Chunks(texts[..n])).wire;
            w.flushed == |w.body| && (v.wire.room == None ==> w.body == v.wire.body + Flatten(texts[..n]))
  {
    ChunksEffect(v, texts[..n]);
    assert texts[..n][..n] == texts[..n];
    if n == 0 {
      assert texts[..n] == [] && v.wire.body + "" == v.wire.body;
    }
  }

  function AfterHeaders(v: View): View {
    var h := v.wire.header["Content-Type" := "text/event-stream"]["Cache-Control" := "no-cache"];
    v.(wire := v.wire.(header := h["Connection" := "keep-alive"]))
  }

  lemma HeadersEffect(v: View)
    ensures DoAll(v, SseHeaders()) == AfterHeaders(v)
  {
  }

  lemma HeadersThen(v: View, calls: seq<Call>)
    ensures DoAll(v, SseHeaders()).wire.room == v.wire.room
    ensures DoAll(v, SseHeaders() + calls) == DoAll(DoAll(v, SseHeaders()), calls)
  {
    HeadersEffect(v);
    DoAllConcat(v, SseHeaders(), calls);
  }

  method WriteErrorFrame(w: ResponseWriter, dialect: Dialect, msg: string, sequence: nat, startedAt: int)
    modifies w.Objects()
    ensures w.Seen() == DoAll(old(w.Seen()), Chunks([Printed(ErrorFrame(dialect, msg, sequence, startedAt))]))
  {
    ghost var v := w.Seen();
    var text := Printed(ErrorFrame(dialect, msg, sequence, startedAt));
    var _ := w.Write(text);
    w.Flush();
    DoChunk(v, [], text);
    assert [] + [text] == [text];
    assert DoAll(v, []) == v;
  }

  method WriteJsonReply(w: ResponseWriter, status: nat, body: string)
    modifies w.Objects()
    ensures w.Seen() == DoAll(old(w.Seen()), JsonReply(status, body))
  {
    ghost var v := w.Seen();
    w.SetHeader("Content-Type", "application/json");
    w.WriteHeader(status);
    var _ := w.Write(body);
    var h := JsonReply(status, body);
    DoAllLast(v, h[..2], h[2]);
    DoAllLast(v, h[..1], h[1]);
    DoAllOne(v, h[0]);
    assert h[..2] + [h[2]] == h && h[..1] + [h[1]] == h[..2] && h[..1] == [h[0]];
  }

  // ---------------------------------------------------------------- the pumps

  /** The end of a stream after a read error: a timeout is reported in the stream,
      unless nothing has been sent yet. */
  method EndStream(w: ResponseWriter, err: PumpError, emitted: bool, dialect: Dialect, sequence: nat, startedAt: int)
    modifies w.Objects()
    ensures var frame := ErrorFrame(dialect, TIMEOUT_TEXT, sequence, startedAt);
            w.Seen() == DoAll(old(w.Seen()), Chunks(Tail(emitted, err, frame)))
  {
    if err == ReadTimeout && emitted {
      WriteErrorFrame(w, dialect, TIMEOUT_TEXT, sequence, startedAt);
    }
  }

  lemma SseStops(v: View, msgs: seq<string>, ending: PumpError, dialect: Dialect)
    requires v.wire.room.Some? ==> |msgs| <= v.wire.room.value
    ensures DoAll(v, SseStream(msgs, ending, dialect, v.wire.room)) ==
            DoAll(DoAll(v, Chunks(msgs)),
                  Chunks(Tail(|msgs| > 0, ending, ErrorFrame(dialect, TIMEOUT_TEXT, 0, ZERO_TIME))))
  {
    DoAllConcat(v, Chunks(msgs), Chunks(SseTail(|msgs| > 0, ending, dialect)));
  }

  method EndSseStream(w: ResponseWriter, err: PumpError, emitted: bool, dialect: Dialect,
                      ghost v: View, ghost msgs: seq<string>)
    requires w.Seen() == DoAll(v, Chunks(msgs)) && emitted == (|msgs| > 0)
    requires v.wire.room.Some? ==> |msgs| <= v.wire.room.value
    modifies w.Objects()
    ensures w.Seen() == DoAll(v, SseStream(msgs, err, dialect, v.wire.room))
  {
    SseStops(v, msgs, err, dialect);
    EndStream(w, err, emitted, dialect, 0, ZERO_TIME);
  }

  lemma SseRefused(v: View, msgs: seq<string>, ending: PumpError, dialect: Dialect, n: nat)
    requires n < |msgs| && v.wire.room == Some(n)
    ensures DoAll(v, SseStream(msgs, ending, dialect, v.wire.room)) == Do(DoAll(v, Chunks(msgs[..n])), Write(msgs[n]))
  {
    DoAllLast(v, Chunks(msgs[..n]), Write(msgs[n]));
  }

  /** Writes chunk `n` through and flushes it, unless the client refuses it. */
  method Relay(w: ResponseWriter, data: string, ghost v: View, ghost texts: seq<string>, ghost n: nat)
      returns (ok: bool)
    requires n < |texts| && data == texts[n]
    requires w.Seen() == DoAll(v, Chunks(texts[..n]))
    requires v.wire.room.Some? ==> n <= v.wire.room.value
    modifies w.Objects()
    ensures ok == (v.wire.room != Some(n))
    ensures w.Seen() == if ok then DoAll(v, Chunks(texts[..n + 1])) else Do(DoAll(v, Chunks(texts[..n])), Write(data))
  {
    ChunksEffect(v, texts[..n]);
    DoChunk(v, texts[..n], data);
    assert texts[..n] + [data] == texts[..n + 1];
    ok := w.Write(data);
    if ok {
      w.Flush();
    }
  }

  /** Message `n`: sent on, or the end of the stream. */
  method SseTurn(w: ResponseWriter, r: IdleConn, dialect: Dialect, emitted: bool, ghost v: View, ghost n: nat)
      returns (more: bool, err: PumpError)
    requires r !in w.Objects() && r.Open() && r.calls == n && emitted == (n > 0)
    requires v.wire.room.Some? ==> n <= v.wire.room.value
    requires w.Seen() == DoAll(v, Chunks(Messages(r.script, r.idle)[..n]))
    modifies w.Objects(), r
    ensures var msgs := Messages(r.script, r.idle);
            var ending := ClassifyReadError(Ending(r.script, r.idle));
            if more then
              && r.Open() && r.calls == n + 1 <= |msgs|
              && (v.wire.room.Some? ==> n < v.wire.room.value)
              && w.Seen() == DoAll(v, Chunks(msgs[..n + 1]))
            else
              && w.Seen() == DoAll(v, SseStream(msgs, ending, dialect, v.wire.room))
              && err == SseStreamError(msgs, ending, v.wire.room)
              && (err != WriteFailed ==> r.clock == Waited(r.script, r.idle, |msgs| + 1))
  {
    ghost var msgs := Messages(r.script, r.idle);
    ghost var ending := ClassifyReadError(Ending(r.script, r.idle));
    var m := r.ReadMessage();
    if m.Fault? {
      assert n == |msgs| && msgs[..n] == msgs;
      err := ClassifyReadError(m.err);
      EndSseStream(w, err, emitted, dialect, v, msgs);
      return false, err;
    }
    more := Relay(w, m.data, v, msgs, n);
    err := NoError;
    if !more {
      SseRefused(v, msgs, ending, dialect, n);
      err := WriteFailed;
    }
  }

  method StreamSseBytes(w: ResponseWriter, r: IdleConn, dialect: Dialect) returns (err: PumpError)
    requires r !in w.Objects() && r.Fresh()
    modifies w.Objects(), r
    ensures var msgs := Messages(r.script, r.idle);
            var ending := ClassifyReadError(Ending(r.script, r.idle));
            && w.Seen() == DoAll(old(w.Seen()), SseStream(msgs, ending, dialect, old(w.Seen()).wire.room))
            && err == SseStreamError(msgs, ending, old(w.Seen()).wire.room)
            && (err != WriteFailed ==> r.clock == Waited(r.script, r.idle, |msgs| + 1))
  {
    ghost var v := w.Seen();
    ghost var n := 0;
    var emitted := false;
    while true
      invariant r.Open() && r.calls == n && emitted == (n > 0)
      invariant v.wire.room.Some? ==> n <= v.wire.room.value
      invariant w.Seen() == DoAll(v, Chunks(Messages(r.script, r.idle)[..n]))
      decreases |Messages(r.script, r.idle)| - n
    {
      var more: bool;
      more, err := SseTurn(w, r, dialect, emitted, v, n);
      if !more {
        return;
      }
      n := n + 1;
      emitted := true;
    }
  }

  method BufferSseBytes(w: ResponseWriter, r: IdleConn, parse: string -> Option<ErrorStatus.Value>)
      returns (err: PumpError)
    requires r !in w.Objects() && r.Fresh()
    modifies w.Objects(), r
    ensures var msgs := Messages(r.script, r.idle);
            var ending := ClassifyReadError(Ending(r.script, r.idle));
            && w.Seen() == DoAll(old(w.Seen()), SseBuffered(msgs, ending, parse))
            && err == ending
            && r.clock == Waited(r.script, r.idle, |msgs| + 1)
  {
    ghost var msgs := Messages(r.script, r.idle);
    ghost var n := 0;
    var buf := "";
    while true
      invariant r.Open() && r.calls == n
      invariant buf == Flatten(msgs[..n])
      invariant w.Seen() == old(w.Seen())
      decreases |msgs| - n
    {
      var m := r.ReadMessage();
      if m.Fault? {
        assert msgs[..n] == msgs;
        err := ClassifyReadError(m.err);
        if err != ReadTimeout {
          WriteJsonReply(w, BufferedStatus(parse(buf)), buf);
        }
        return;
      }
      FlattenMore(msgs[..n], m.data);
      assert msgs[..n] + [m.data] == msgs[..n + 1];
      buf := buf + m.data;
      n := n + 1;
    }
  }

  /** Copies upstream messages into the response verbatim. */
  method PumpSseBytes(w: ResponseWriter, r: IdleConn, stream: bool, dialect: Dialect,
                      parse: string -> Option<ErrorStatus.Value>)
      returns (err: PumpError)
    requires r !in w.Objects() && r.Fresh()
    modifies w.Objects(), r
    ensures var msgs := Messages(r.script, r.idle);
            var ending := ClassifyReadError(Ending(r.script, r.idle));
            var room := old(w.Seen()).wire.room;
            && w.Seen() == DoAll(old(w.Seen()),
                 if stream then SseHeaders() + SseStream(msgs, ending, dialect, room)
                 else SseBuffered(msgs, ending, parse))
            && err == (if stream then SseStreamError(msgs, ending, room) else ending)
            && (err != WriteFailed ==> r.clock == Waited(r.script, r.idle, |msgs| + 1))
  {
    if stream {
      ghost var v := w.Seen();
      SetSseHeaders(w);
      HeadersThen(v,
        SseStream(Messages(r.script, r.idle), ClassifyReadError(Ending(r.script, r.idle)), dialect, v.wire.room));
      err := StreamSseBytes(w, r, dialect);
    } else {
      err := BufferSseBytes(w, r, parse);
    }
  }

  // ------------------------------------------------------------ the typed pump

  /** Prints one frame and flushes it; a refused write goes unnoticed. */
  method Emit(w: ResponseWriter, f: Frame, ghost v: View, ghost sent: seq<string>)
    requires w.Seen() == DoAll(v, Chunks(sent))
    modifies w.Objects()
    ensures w.Seen() == DoAll(v, Chunks(sent + [Printed(f)]))
  {
    DoChunk(v, sent, Printed(f));
    var _ := w.Write(Printed(f));
    w.Flush();
  }

  method StreamTypedJson(w: ResponseWriter, r: IdleConn, probe: string -> Probe, dialect: Dialect, startedAt: int)
      returns (err: PumpError)
    requires r !in w.Objects() && r.Fresh()
    modifies w.Objects(), r
    ensures var msgs := Messages(r.script, r.idle);
            var ending := ClassifyReadError(Ending(r.script, r.idle));
            && w.Seen() == DoAll(old(w.Seen()), TypedStream(msgs, ending, probe, dialect, startedAt))
            && err == TypedEnding(msgs, ending, probe)
            && r.clock == Waited(r.script, r.idle, StopAt(msgs, probe) + 1)
  {
    ghost var v := w.Seen();
    ghost var msgs := Messages(r.script, r.idle);
    ghost var stop := StopAt(msgs, probe);
    var emitted := 0;
    while true
      invariant r.Open() && r.calls == emitted
      invariant emitted <= stop
      invariant w.Seen() == DoAll(v, Chunks(TypedTexts(msgs[..emitted], probe)))
      decreases |msgs| - emitted
    {
      var m := r.ReadMessage();
      if m.Fault? {
        assert emitted == |msgs| && msgs[..emitted] == msgs;
        err := ClassifyReadError(m.err);
        EndStream(w, err, emitted > 0, dialect, emitted, startedAt);
        TypedStops(v, msgs, err, probe, dialect, startedAt);
        return;
      }
      var head := probe(m.data);
      Emit(w, Frame(head.kind, m.data), v, TypedTexts(msgs[..emitted], probe));
      TypedTextsMore(msgs, emitted, probe);
      assert head.kind in TERMINAL <==> emitted == stop;
      emitted := emitted + 1;
      if head.kind in TERMINAL {
        TypedTerminates(v, msgs, ClassifyReadError(Ending(r.script, r.idle)), probe, dialect, startedAt);
        return NoError;
      }
    }
  }

  lemma TypedTextsMore(msgs: seq<string>, n: nat, probe: string -> Probe)
    requires n < |msgs|
    ensures TypedTexts(msgs[..n], probe) + [Printed(TypedFrame(msgs[n], probe))] == TypedTexts(msgs[..n + 1], probe)
  {
  }

  lemma TypedStops(v: View, msgs: seq<string>, ending: PumpError, probe: string -> Probe, dialect: Dialect,
                   startedAt: int)
    requires StopAt(msgs, probe) == |msgs|
    ensures TypedEnding(msgs, ending, probe) == ending
    ensures DoAll(v, TypedStream(msgs, ending, probe, dialect, startedAt)) ==
            DoAll(DoAll(v, Chunks(TypedTexts(msgs, probe))),
                  Chunks(Tail(|msgs| > 0, ending, ErrorFrame(dialect, TIMEOUT_TEXT, |msgs|, startedAt))))
  {
    DoAllConcat(v, Chunks(TypedTexts(msgs, probe)), Chunks(TypedTail(msgs, ending, probe, dialect, startedAt)));
  }

  lemma TypedTerminates(v: View, msgs: seq<string>, ending: PumpError, probe: string -> Probe, dialect: Dialect,
                        startedAt: int)
    requires StopAt(msgs, probe) < |msgs|
    ensures TypedEnding(msgs, ending, probe) == NoError
    ensures DoAll(v, TypedStream(msgs, ending, probe, dialect, startedAt)) ==
            DoAll(v, Chunks(TypedTexts(msgs[..StopAt(msgs, probe) + 1], probe)))
  {
    var sent := Chunks(TypedTexts(UpToTerminal(msgs, probe), probe));
    assert sent + Chunks([]) == sent;
  }

  method AggregateTypedJson(w: ResponseWriter, r: IdleConn, probe: string -> Probe,
                            parse: string -> Option<ErrorStatus.Value>)
      returns (err: PumpError)
    requires r !in w.Objects() && r.Fresh()
    modifies w.Objects(), r
    ensures var msgs := Messages(r.script, r.idle);
            var ending := ClassifyReadError(Ending(r.script, r.idle));
            && w.Seen() == DoAll(old(w.Seen()), TypedAggregate(msgs, ending, probe, parse))
            && err == TypedAggregateError(msgs, ending, probe)
  {
    ghost var msgs := Messages(r.script, r.idle);
    ghost var n := 0;
    var lastResponse: Option<string> := None;
    var failedBody: Option<string> := None;
    while true
      invariant r.Open() && r.calls == n
      invariant FirstTerminal(msgs, probe) == FirstTerminal(msgs[n..], probe)
      invariant lastResponse == None && failedBody == None
      invariant w.Seen() == old(w.Seen())
      decreases |msgs| - n
    {
      var m := r.ReadMessage();
      if m.Fault? {
        assert msgs[n..] == [];
        if ClassifyReadError(m.err) == ReadTimeout {
          return ReadTimeout;
        }
        break;
      }
      assert msgs[n..][0] == m.data && msgs[n..][1..] == msgs[n + 1..];
      n := n + 1;
      var head := probe(m.data);
      if !head.ok {
        continue;
      }
      if head.kind == "response.completed" {
        lastResponse := head.response;
      } else if head.kind in {"response.failed", "response.cancelled", "response.incomplete", "error"} {
        failedBody := Some(m.data);
      }
      if head.kind in TERMINAL {
        break;
      }
    }
    var status := 200;
    if failedBody.Some? {
      status := ErrorStatus.MapErrorStatus(parse(failedBody.value));
    }
    WriteJsonReply(w, status,
      if failedBody.Some? then failedBody.value else if lastResponse.Some? then lastResponse.value else "{}");
    err := NoError;
  }

  /** Turns typed JSON messages into events, or gathers them into one body. */
  method PumpTypedJson(w: ResponseWriter, r: IdleConn, stream: bool, dialect: Dialect, startedAt: int,
                       probe: string -> Probe, parse: string -> Option<ErrorStatus.Value>)
      returns (err: PumpError)
    requires r !in w.Objects() && r.Fresh()
    modifies w.Objects(), r
    ensures var msgs := Messages(r.script, r.idle);
            var ending := ClassifyReadError(Ending(r.script, r.idle));
            && w.Seen() == DoAll(old(w.Seen()),
                 if stream then SseHeaders() + TypedStream(msgs, ending, probe, dialect, startedAt)
                 else TypedAggregate(msgs, ending, probe, parse))
            && err == (if stream then TypedEnding(msgs, ending, probe) else TypedAggregateError(msgs, ending, probe))
  {
    if stream {
      ghost var v := w.Seen();
      SetSseHeaders(w);
      HeadersThen(v,
        TypedStream(Messages(r.script, r.idle), ClassifyReadError(Ending(r.script, r.idle)), probe, dialect,
                    startedAt));
      err := StreamTypedJson(w, r, probe, dialect, startedAt);
    } else {
      err := AggregateTypedJson(w, r, probe, parse);
    }
  }
}
