/**
 What the client and the request log get to see, for every exchange: which of the two
 kinds of response, with which status and type, and what a client decodes from it.
 */
module ProxyOutcome {
  import opened Sse
  import opened SseRoundTrip
  import opened Options
  import opened HttpWriter
  import opened Upstream
  import opened Frames
  import opened Proxy
  import opened ErrorTexts
  import ErrorStatus

  /** The two kinds of response a request can end in. */
  datatype Reply =
    | ErrorEnvelope(code: nat, msg: string)
    | EventStream(texts: seq<string>)

  function StreamTexts(x: Exchange, idle: nat, route: Route, probe: string -> Probe): seq<string> {
    var msgs, closing := Arrived(x, idle), Closing(x, idle);
    match route.mode
    case SseBytes => msgs + SseTail(|msgs| > 0, closing, route.dialect)
    case TypedJson =>
      TypedTexts(UpToTerminal(msgs, probe), probe) + TypedTail(msgs, closing, probe, route.dialect, x.startedAt)
  }

  /** What the exchange calls for, said without any writer or flag: 504 exactly when
      upstream timed out before its first message. */
  function Expected(x: Exchange, idle: nat, route: Route, probe: string -> Probe): Reply {
    if x.bodyError.Some? then ErrorEnvelope(400, "read request body failed: " + x.bodyError.value)
    else if x.dialError.Some? then
      ErrorEnvelope(DialStatus(x.dialError.value.err), "upstream websocket dial failed: " + x.dialError.value.text)
    else if x.writeError.Some? then ErrorEnvelope(502, "upstream write failed: " + x.writeError.value)
    else if Closing(x, idle) == ReadTimeout && Arrived(x, idle) == [] then ErrorEnvelope(504, TIMEOUT_TEXT)
    else EventStream(StreamTexts(x, idle, route, probe))
  }

  /** The finished response on the wire, for a client that takes `room` writes. */
  predicate Delivers(w: Wire, reply: Reply, room: Option<nat>) {
    match reply
    case ErrorEnvelope(code, msg) =>
      && w.committed && w.status == code && w.flushed == |w.body|
      && ContentType(w) == "application/json"
      && w.body == Flatten([Envelope(msg)][..Fit(room, 1)])
    case EventStream(texts) =>
      && w.committed && w.status == 200 && w.flushed == |w.body|
      && ContentType(w) == "text/event-stream"
      && w.body == Flatten(texts[..Fit(room, |texts|)])
  }

  function ContentType(w: Wire): string {
    if "Content-Type" in w.sent then w.sent["Content-Type"] else ""
  }

  // --------------------------------------------------- effect of the handler's calls

  lemma ErrorReplyEffect(v: View, code: nat, msg: string)
    requires !v.wire.committed
    ensures var after := DoAll(v, ErrorReply(code, msg));
            var fits := Accepts(v.wire);
            && after.wire.committed && after.wire.status == code
            && after.wire.sent == v.wire.header["Content-Type" := "application/json"]
            && after.wire.body == (if fits then v.wire.body + Envelope(msg) else v.wire.body)
            && (v.rec.Some? ==> after.rec == Some(Recording(code, true)))
  {
    var calls := ErrorReply(code, msg);
    assert calls == [calls[0]] + ([calls[1]] + [calls[2]]);
    DoAllConcat(v, [calls[0]], [calls[1]] + [calls[2]]);
    DoAllOne(v, calls[0]);
    var v1 := Do(v, calls[0]);
    DoAllConcat(v1, [calls[1]], [calls[2]]);
    DoAllOne(v1, calls[1]);
    DoAllOne(Do(v1, calls[1]), calls[2]);
  }

  lemma {:induction false} ChunksConcat(a: seq<string>, b: seq<string>)
    ensures Chunks(a + b) == Chunks(a) + Chunks(b)
    decreases |b|
  {
    if b == [] {
      assert a + b == a;
    } else {
      var last := b[|b| - 1];
      assert (a + b)[..|a + b| - 1] == a + b[..|b| - 1];
      ChunksConcat(a, b[..|b| - 1]);
    }
  }

  /** A pump that gives up at the first refused write leaves the same response as one
      that goes on. */
  lemma RefusedEffect(v: View, msgs: seq<string>, tail: seq<string>, n: nat)
    requires v.wire.room == Some(n) && n < |msgs| && v.wire.flushed == |v.wire.body|
    ensures DoAll(v, Chunks(msgs[..n]) + [Write(msgs[n])]) == AfterChunks(v, msgs + tail)
  {
    DoAllLast(v, Chunks(msgs[..n]), Write(msgs[n]));
    ChunksEffect(v, msgs[..n]);
    var sent := AfterChunks(v, msgs[..n]);
    assert (msgs + tail)[..n] == msgs[..n] == msgs[..n][..n];
    if n == 0 {
      assert msgs[..n] == [] && Flatten([]) == "" && v.wire.body + "" == v.wire.body;
    }
  }

  /** The pump's whole effect, in either mode and for any client. */
  lemma PumpEffect(v: View, x: Exchange, idle: nat, route: Route, probe: string -> Probe)
    requires v.wire.flushed == |v.wire.body|
    ensures DoAll(v, PumpCalls(x, idle, route, probe, v.wire.room)) ==
            AfterChunks(AfterHeaders(v), StreamTexts(x, idle, route, probe))
  {
    var msgs, closing, room := Arrived(x, idle), Closing(x, idle), v.wire.room;
    HeadersEffect(v);
    var h := AfterHeaders(v);
    match route.mode
    case SseBytes =>
      var tail := SseTail(|msgs| > 0, closing, route.dialect);
      HeadersThen(v, SseStream(msgs, closing, route.dialect, room));
      if room.Some? && room.value < |msgs| {
        RefusedEffect(h, msgs, tail, room.value);
      } else {
        ChunksConcat(msgs, tail);
        ChunksEffect(h, msgs + tail);
      }
    case TypedJson =>
      var texts := TypedTexts(UpToTerminal(msgs, probe), probe);
      var tail := TypedTail(msgs, closing, probe, route.dialect, x.startedAt);
      HeadersThen(v, TypedStream(msgs, closing, probe, route.dialect, x.startedAt));
      ChunksConcat(texts, tail);
      ChunksEffect(h, texts + tail);
  }

  /** Something is streamed exactly when a message arrived before the read error. */
  lemma StreamsSomething(x: Exchange, idle: nat, route: Route, probe: string -> Probe)
    ensures StreamTexts(x, idle, route, probe) == [] <==> Arrived(x, idle) == []
    ensures Arrived(x, idle) == [] ==> forall room :: PumpResult(x, idle, route, probe, room) == Closing(x, idle)
  {
  }

  predicate ReachesPump(x: Exchange) {
    x.bodyError.None? && x.dialError.None? && x.writeError.None?
  }

  /** The handler past its early exits: the pump's effect, then perhaps the 504. */
  lemma HandlerEffect(v: View, x: Exchange, idle: nat, route: Route, probe: string -> Probe)
    requires ReachesPump(x) && v.wire.flushed == |v.wire.body|
    ensures var pumped := AfterChunks(AfterHeaders(v), StreamTexts(x, idle, route, probe));
            DoAll(v, HandlerCalls(v, x, idle, route, probe)) ==
            DoAll(pumped, TimeoutReply(pumped, PumpResult(x, idle, route, probe, v.wire.room)))
  {
    var calls := PumpCalls(x, idle, route, probe, v.wire.room);
    PumpEffect(v, x, idle, route, probe);
    DoAllConcat(v, calls, TimeoutReply(DoAll(v, calls), PumpResult(x, idle, route, probe, v.wire.room)));
  }

  // ------------------------------------------------------ the reply, cause by cause

  /** The status each cause calls for. A dial counts as timed out by its error chain,
      and a stream when upstream falls silent before its first message. */
  function StatusFor(x: Exchange, idle: nat): nat {
    if x.bodyError.Some? then 400
    else if x.dialError.Some? then if ChainTimesOut(x.dialError.value.err) then 504 else 502
    else if x.writeError.Some? then 502
    else if SilentAfter(x.arrivals, idle, 0) then 504
    else 200
  }

  /** The message of an error reply. */
  function MessageFor(x: Exchange): string {
    if x.bodyError.Some? then "read request body failed: " + x.bodyError.value
    else if x.dialError.Some? then "upstream websocket dial failed: " + x.dialError.value.text
    else if x.writeError.Some? then "upstream write failed: " + x.writeError.value
    else "upstream read timeout"
  }

  function StreamHeaders(contentType: string): map<string, string> {
    map["Content-Type" := contentType, "Cache-Control" := "no-cache", "Connection" := "keep-alive"]
  }

  /** The headers on the wire; a 504 that replaces a stream keeps the two headers that
      the pump had already set besides the type. */
  function HeadersFor(x: Exchange, idle: nat): map<string, string> {
    if StatusFor(x, idle) == 200 then StreamHeaders("text/event-stream")
    else if ReachesPump(x) then StreamHeaders("application/json")
    else map["Content-Type" := "application/json"]
  }

  lemma ClosingExactly(x: Exchange, idle: nat)
    ensures SilentAfter(x.arrivals, idle, |Arrived(x, idle)|) <==> Closing(x, idle) == ReadTimeout
    ensures SilentAfter(x.arrivals, idle, 0) <==> Closing(x, idle) == ReadTimeout && Arrived(x, idle) == []
  {
    SilenceTimesOut(x.arrivals, idle, |Arrived(x, idle)|);
    SilenceTimesOut(x.arrivals, idle, 0);
  }

  lemma ExpectedByCause(x: Exchange, idle: nat, route: Route, probe: string -> Probe)
    ensures match Expected(x, idle, route, probe)
            case ErrorEnvelope(code, msg) => code == StatusFor(x, idle) != 200 && msg == MessageFor(x)
            case EventStream(_) => StatusFor(x, idle) == 200 && ReachesPump(x)
  {
    ClosingExactly(x, idle);
    if x.dialError.Some? {
      IsTimeoutExactly(x.dialError.value.err);
    }
  }

  // ------------------------------------------------------------------ main results

  /** Every request through the recorder ends in exactly the expected one of the two
      responses, whatever upstream and the client do, with the status that its cause
      calls for; and the logged status is the status on the wire. */
  lemma WrappedOutcome(x: Exchange, idle: nat, route: Route, probe: string -> Probe, room: Option<nat>)
    ensures var v := FreshRecorded(room);
            var after := DoAll(v, HandlerCalls(v, x, idle, route, probe));
            && Delivers(Finished(after.wire), Expected(x, idle, route, probe), room)
            && after.rec.Some? && after.rec.value.status == Finished(after.wire).status == StatusFor(x, idle)
  {
    ExpectedByCause(x, idle, route, probe);
    var v := FreshRecorded(room);
    assert Flatten([Envelope("")][..0]) == "";
    if x.bodyError.Some? {
      ReplyDelivered(v, 400, "read request body failed: " + x.bodyError.value);
    } else if x.dialError.Some? {
      ReplyDelivered(v, DialStatus(x.dialError.value.err), "upstream websocket dial failed: " + x.dialError.value.text);
    } else if x.writeError.Some? {
      ReplyDelivered(v, 502, "upstream write failed: " + x.writeError.value);
    } else {
      var pumped := AfterChunks(AfterHeaders(v), StreamTexts(x, idle, route, probe));
      HandlerEffect(v, x, idle, route, probe);
      StreamsSomething(x, idle, route, probe);
      if Arrived(x, idle) == [] && Closing(x, idle) == ReadTimeout {
        ReplyDelivered(pumped, 504, TIMEOUT_TEXT);
      } else {
        StreamDelivered(v, StreamTexts(x, idle, route, probe));
      }
    }
  }

  /** The same about the objects themselves: one request served through the log. */
  method Serve(net: NetWriter, x: Exchange, idle: nat, route: Route, probe: string -> Probe,
               parse: string -> Option<ErrorStatus.Value>) returns (logged: nat)
    requires net.Response() == FreshWire(net.room)
    modifies net
    ensures Delivers(Finished(net.Response()), Expected(x, idle, route, probe), old(net.room))
    ensures logged == Finished(net.Response()).status == StatusFor(x, idle)
  {
    WrappedOutcome(x, idle, route, probe, net.room);
    logged := ServeLogged(net, x, idle, route, probe, parse);
  }

  /** An error reply reads as the proxy's envelope with the message of its cause, when
      the client takes it. */
  lemma BodyByCause(x: Exchange, idle: nat, route: Route, probe: string -> Probe, room: Option<nat>)
    requires StatusFor(x, idle) != 200
    ensures var body := WrappedFinal(x, idle, route, probe, room).body;
            if room == Some(0) then body == "" else IsEnvelope(body, MessageFor(x))
  {
    ExpectedByCause(x, idle, route, probe);
    WrappedOutcome(x, idle, route, probe, room);
    var text := Envelope(MessageFor(x));
    EnvelopeReads(MessageFor(x));
    assert [text][..0] == [] && [text][..1] == [text];
    assert Flatten([text]) == text by {
      FlattenMore([], text);
      assert [] + [text] == [text] && "" + text == text;
    }
  }

  /** The headers on the wire are those of the cause, whatever was set before. */
  lemma HeadersByCause(x: Exchange, idle: nat, route: Route, probe: string -> Probe, room: Option<nat>)
    ensures WrappedFinal(x, idle, route, probe, room).sent == HeadersFor(x, idle)
  {
    if ReachesPump(x) {
      PumpedHeaders(x, idle, route, probe, room);
    } else {
      EarlyHeaders(x, idle, route, probe, room);
    }
  }

  lemma EarlyHeaders(x: Exchange, idle: nat, route: Route, probe: string -> Probe, room: Option<nat>)
    requires !ReachesPump(x)
    ensures WrappedFinal(x, idle, route, probe, room).sent == HeadersFor(x, idle)
  {
    ExpectedByCause(x, idle, route, probe);
    ReplyHeaders(FreshRecorded(room), StatusFor(x, idle), MessageFor(x));
  }

  lemma ReplyHeaders(v: View, code: nat, msg: string)
    requires !v.wire.committed
    ensures Finished(DoAll(v, ErrorReply(code, msg)).wire).sent == v.wire.header["Content-Type" := "application/json"]
  {
    ErrorReplyEffect(v, code, msg);
  }

  lemma PumpedHeaders(x: Exchange, idle: nat, route: Route, probe: string -> Probe, room: Option<nat>)
    requires ReachesPump(x)
    ensures WrappedFinal(x, idle, route, probe, room).sent == HeadersFor(x, idle)
  {
    var v, texts := FreshRecorded(room), StreamTexts(x, idle, route, probe);
    ClosingExactly(x, idle);
    HandlerEffect(v, x, idle, route, probe);
    StreamsSomething(x, idle, route, probe);
    SentAfterPump(v, texts, PumpResult(x, idle, route, probe, room));
  }

  lemma SentAfterPump(v: View, texts: seq<string>, result: PumpError)
    requires v == FreshRecorded(v.wire.room)
    ensures var pumped := AfterChunks(AfterHeaders(v), texts);
            Finished(DoAll(pumped, TimeoutReply(pumped, result)).wire).sent ==
            StreamHeaders(if texts == [] && result == ReadTimeout then "application/json" else "text/event-stream")
  {
    HeadersSet(v);
    HeadersSent(AfterHeaders(v), texts);
    if texts == [] && result == ReadTimeout {
      ReplyHeaders(AfterHeaders(v), 504, TIMEOUT_TEXT);
      TypeReplaced();
    } else {
      var pumped := AfterChunks(AfterHeaders(v), texts);
      assert TimeoutReply(pumped, result) == [];
    }
  }

  lemma TypeReplaced()
    ensures StreamHeaders("text/event-stream")["Content-Type" := "application/json"] == StreamHeaders("application/json")
  {
  }

  lemma HeadersSet(v: View)
    requires v == FreshRecorded(v.wire.room)
    ensures AfterHeaders(v).wire.header == StreamHeaders("text/event-stream")
  {
  }

  lemma HeadersSent(v: View, texts: seq<string>)
    requires !v.wire.committed && v.rec == Some(FRESH_RECORDING)
    ensures var w := AfterChunks(v, texts);
            Finished(w.wire).sent == v.wire.header && w.rec.Some? && (w.rec.value.committed <==> texts != [])
  {
  }

  lemma ReplyDelivered(v: View, code: nat, msg: string)
    requires !v.wire.committed && v.wire.body == "" && v.rec.Some?
    ensures var after := DoAll(v, ErrorReply(code, msg));
            && Delivers(Finished(after.wire), ErrorEnvelope(code, msg), v.wire.room)
            && after.rec == Some(Recording(code, true))
  {
    ErrorReplyEffect(v, code, msg);
    var text := Envelope(msg);
    assert [text][..0] == [] && [text][..1] == [text];
    assert Flatten([text]) == Flatten([text][..0]) + text;
    assert "" + text == text;
  }

  lemma StreamDelivered(v: View, texts: seq<string>)
    requires v == FreshRecorded(v.wire.room)
    ensures var after := AfterChunks(AfterHeaders(v), texts);
            && Delivers(Finished(after.wire), EventStream(texts), v.wire.room)
            && after.rec.Some? && after.rec.value.status == 200
            && (after.rec.value.committed <==> texts != [])
  {
    var sent := Flatten(texts[..Fit(v.wire.room, |texts|)]);
    assert "" + sent == sent;
    if texts == [] {
      assert sent == "";
    }
  }

  // ---------------------------------------------------- discipline of the calls

  /** `WriteHeader` is only called while nothing is committed, hence at most once and
      never after a write, and nothing is flushed before it is committed. */
  predicate Orderly(committed: bool, calls: seq<Call>)
    decreases |calls|
  {
    calls == [] ||
    match calls[0]
    case SetHeader(_, _) => Orderly(committed, calls[1..])
    case WriteHeader(_) => !committed && Orderly(true, calls[1..])
    case Write(_) => Orderly(true, calls[1..])
    case Flush => committed && Orderly(committed, calls[1..])
  }

  predicate CommittedAfter(committed: bool, calls: seq<Call>)
    decreases |calls|
  {
    if calls == [] then committed
    else CommittedAfter(committed || calls[0].WriteHeader? || calls[0].Write?, calls[1..])
  }

  lemma {:induction false} OrderlyConcat(committed: bool, a: seq<Call>, b: seq<Call>)
    ensures Orderly(committed, a + b) <==> Orderly(committed, a) && Orderly(CommittedAfter(committed, a), b)
    ensures CommittedAfter(committed, a + b) == CommittedAfter(CommittedAfter(committed, a), b)
    decreases |a|
  {
    if a == [] {
      assert a + b == b;
    } else {
      assert (a + b)[0] == a[0] && (a + b)[1..] == a[1..] + b;
      OrderlyConcat(committed || a[0].WriteHeader? || a[0].Write?, a[1..], b);
      OrderlyConcat(committed, a[1..], b);
    }
  }

  lemma {:induction false} ChunksOrderly(committed: bool, texts: seq<string>)
    ensures Orderly(committed, Chunks(texts))
    ensures CommittedAfter(committed, Chunks(texts)) == (committed || texts != [])
    decreases |texts|
  {
    if texts != [] {
      var last := [Write(texts[|texts| - 1]), Flush];
      ChunksOrderly(committed, texts[..|texts| - 1]);
      OrderlyConcat(committed, Chunks(texts[..|texts| - 1]), last);
      assert last[1..] == [Flush] && [Flush][1..] == [];
    }
  }

  lemma OrderlyOne(committed: bool, call: Call)
    ensures Orderly(committed, [call]) <==> (call.WriteHeader? ==> !committed) && (call.Flush? ==> committed)
    ensures CommittedAfter(committed, [call]) == (committed || call.WriteHeader? || call.Write?)
  {
    assert [call][1..] == [];
  }

  /** Three calls in a row. */
  lemma OrderlyThree(committed: bool, a: Call, b: Call, c: Call)
    requires a.SetHeader? && !c.Flush? && !b.Flush? && !c.WriteHeader? && (b.WriteHeader? ==> !committed)
    ensures Orderly(committed, [a, b, c])
    ensures CommittedAfter(committed, [a, b, c]) == (committed || b.WriteHeader? || b.Write? || c.Write?)
  {
    assert [a, b, c] == ([a] + [b]) + [c];
    OrderlyConcat(committed, [a] + [b], [c]);
    OrderlyConcat(committed, [a], [b]);
    OrderlyOne(committed, a);
    OrderlyOne(committed, b);
    OrderlyOne(committed || b.WriteHeader? || b.Write?, c);
  }

  lemma HeadersOrderly(calls: seq<Call>)
    ensures Orderly(false, SseHeaders() + calls) == Orderly(false, calls)
    ensures CommittedAfter(false, SseHeaders() + calls) == CommittedAfter(false, calls)
  {
    var h := SseHeaders();
    OrderlyThree(false, h[0], h[1], h[2]);
    assert h == [h[0], h[1], h[2]];
    OrderlyConcat(false, h, calls);
  }

  lemma ReplyOrderly(code: nat, msg: string)
    ensures Orderly(false, ErrorReply(code, msg))
  {
    var r := ErrorReply(code, msg);
    OrderlyThree(false, r[0], r[1], r[2]);
    assert r == [r[0], r[1], r[2]];
  }

  lemma PumpOrderly(x: Exchange, idle: nat, route: Route, probe: string -> Probe, room: Option<nat>)
    ensures Orderly(false, PumpCalls(x, idle, route, probe, room))
    ensures CommittedAfter(false, PumpCalls(x, idle, route, probe, room)) == (Arrived(x, idle) != [])
  {
    var msgs, closing := Arrived(x, idle), Closing(x, idle);
    match route.mode
    case SseBytes =>
      HeadersOrderly(SseStream(msgs, closing, route.dialect, room));
      if room.Some? && room.value < |msgs| {
        ChunksOrderly(false, msgs[..room.value]);
        OrderlyConcat(false, Chunks(msgs[..room.value]), [Write(msgs[room.value])]);
        assert [Write(msgs[room.value])][1..] == [];
      } else {
        var tail := SseTail(|msgs| > 0, closing, route.dialect);
        ChunksConcat(msgs, tail);
        ChunksOrderly(false, msgs + tail);
      }
    case TypedJson =>
      var texts := TypedTexts(UpToTerminal(msgs, probe), probe);
      var tail := TypedTail(msgs, closing, probe, route.dialect, x.startedAt);
      HeadersOrderly(TypedStream(msgs, closing, probe, route.dialect, x.startedAt));
      ChunksConcat(texts, tail);
      ChunksOrderly(false, texts + tail);
      assert texts + tail == StreamTexts(x, idle, route, probe);
      StreamsSomething(x, idle, route, probe);
  }

  /** On every run of the wrapped handler the status line is written at most once and
      never after body bytes. */
  lemma HandlerIsOrderly(x: Exchange, idle: nat, route: Route, probe: string -> Probe, room: Option<nat>)
    ensures Orderly(false, HandlerCalls(FreshRecorded(room), x, idle, route, probe))
  {
    ReplyOrderly(504, TIMEOUT_TEXT);
    if x.bodyError.Some? {
      ReplyOrderly(400, "read request body failed: " + x.bodyError.value);
    } else if x.dialError.Some? {
      ReplyOrderly(DialStatus(x.dialError.value.err), "upstream websocket dial failed: " + x.dialError.value.text);
    } else if x.writeError.Some? {
      ReplyOrderly(502, "upstream write failed: " + x.writeError.value);
    } else {
      var v := FreshRecorded(room);
      var calls := PumpCalls(x, idle, route, probe, room);
      var reply := TimeoutReply(DoAll(v, calls), PumpResult(x, idle, route, probe, room));
      PumpOrderly(x, idle, route, probe, room);
      OrderlyConcat(false, calls, reply);
      PumpEffect(v, x, idle, route, probe);
      StreamsSomething(x, idle, route, probe);
      StreamDelivered(v, StreamTexts(x, idle, route, probe));
    }
  }

  /** The recorder and the wire tell the same story. */
  predicate Agree(v: View) {
    && v.rec.Some? && v.rec.value.committed == v.wire.committed
    && v.rec.value.status == (if v.wire.committed then v.wire.status else 200)
  }

  /** Whatever handler keeps to that discipline, its log line and its response agree. */
  lemma {:induction false} OrderlyKeepsAgreement(v: View, calls: seq<Call>)
    requires Agree(v) && Orderly(v.wire.committed, calls)
    ensures Agree(DoAll(v, calls))
    decreases |calls|
  {
    if calls != [] {
      OrderlyKeepsAgreement(Do(v, calls[0]), calls[1..]);
    }
  }

  /** Without it they can differ: a flush before the status line is invisible to the
      recorder, which then reports a status the client never saw. */
  lemma FlushFirstDisagrees()
    ensures var after := DoAll(FreshRecorded(None), [Flush, WriteHeader(504)]);
            after.rec.value.status == 504 && Finished(after.wire).status == 200
  {
  }

  // ------------------------------------------------------------- without a recorder

  /** The read times out after the first message, and the pump gets to see it. */
  predicate TimesOutMidStream(x: Exchange, idle: nat, route: Route, probe: string -> Probe, room: Option<nat>) {
    && ReachesPump(x) && PumpResult(x, idle, route, probe, room) == ReadTimeout && Arrived(x, idle) != []
  }

  /** The client still takes a write after the whole stream, error frame included. */
  predicate TakesMore(x: Exchange, idle: nat, route: Route, probe: string -> Probe, room: Option<nat>) {
    room.Some? ==> room.value > |StreamTexts(x, idle, route, probe)|
  }

  function BareFinal(x: Exchange, idle: nat, route: Route, probe: string -> Probe, room: Option<nat>): Wire {
    var v := View(None, FreshWire(room));
    Finished(DoAll(v, HandlerCalls(v, x, idle, route, probe)).wire)
  }

  function WrappedFinal(x: Exchange, idle: nat, route: Route, probe: string -> Probe, room: Option<nat>): Wire {
    var v := FreshRecorded(room);
    Finished(DoAll(v, HandlerCalls(v, x, idle, route, probe)).wire)
  }

  /** The same handler without `statusRecorder`, for any client, delivers the expected
      response unless the read times out in mid-stream and the client takes one more
      write than the stream; exactly then it appends a JSON envelope to the stream. */
  lemma BareOutcome(x: Exchange, idle: nat, route: Route, probe: string -> Probe, room: Option<nat>)
    ensures var final := BareFinal(x, idle, route, probe, room);
            var wrong := TimesOutMidStream(x, idle, route, probe, room) && TakesMore(x, idle, route, probe, room);
            && (Delivers(final, Expected(x, idle, route, probe), room) <==> !wrong)
            && (wrong ==> final.body == Flatten(StreamTexts(x, idle, route, probe)) + Envelope(TIMEOUT_TEXT))
  {
    if TimesOutMidStream(x, idle, route, probe, room) {
      BareMidStream(x, idle, route, probe, room);
      EnvelopeNonEmpty(TIMEOUT_TEXT);
      var texts := StreamTexts(x, idle, route, probe);
      assert texts[..|texts|] == texts;
    } else {
      BareSameAsWrapped(x, idle, route, probe, room);
      WrappedOutcome(x, idle, route, probe, room);
    }
  }

  lemma BareMidStream(x: Exchange, idle: nat, route: Route, probe: string -> Probe, room: Option<nat>)
    requires TimesOutMidStream(x, idle, route, probe, room)
    ensures Expected(x, idle, route, probe) == EventStream(StreamTexts(x, idle, route, probe))
    ensures var texts, final := StreamTexts(x, idle, route, probe), BareFinal(x, idle, route, probe, room);
            if TakesMore(x, idle, route, probe, room) then final.body == Flatten(texts) + Envelope(TIMEOUT_TEXT)
            else Delivers(final, EventStream(texts), room)
  {
    HandlerEffect(View(None, FreshWire(room)), x, idle, route, probe);
    StreamsSomething(x, idle, route, probe);
    StreamThenReply(StreamTexts(x, idle, route, probe), 504, TIMEOUT_TEXT, room);
  }

  lemma StreamThenReply(texts: seq<string>, code: nat, msg: string, room: Option<nat>)
    requires texts != []
    ensures var pumped := AfterChunks(AfterHeaders(View(None, FreshWire(room))), texts);
            var final := Finished(DoAll(pumped, ErrorReply(code, msg)).wire);
            if room.Some? ==> room.value > |texts| then final.body == Flatten(texts) + Envelope(msg)
            else Delivers(final, EventStream(texts), room)
  {
    StreamedBody(texts, room);
    LateDelivered(AfterChunks(AfterHeaders(View(None, FreshWire(room))), texts), texts, code, msg, room);
  }

  lemma LateDelivered(v: View, texts: seq<string>, code: nat, msg: string, room: Option<nat>)
    requires v.wire.committed && v.wire.status == 200 && ContentType(v.wire) == "text/event-stream"
    requires v.wire.body == Flatten(texts[..Fit(room, |texts|)])
    requires Accepts(v.wire) <==> (room.Some? ==> room.value > |texts|)
    ensures var final := Finished(DoAll(v, ErrorReply(code, msg)).wire);
            if room.Some? ==> room.value > |texts| then final.body == Flatten(texts) + Envelope(msg)
            else Delivers(final, EventStream(texts), room)
  {
    LateReply(v, code, msg);
    assert texts[..|texts|] == texts;
  }

  lemma StreamedBody(texts: seq<string>, room: Option<nat>)
    requires texts != []
    ensures var w := AfterChunks(AfterHeaders(View(None, FreshWire(room))), texts).wire;
            && w.body == Flatten(texts[..Fit(room, |texts|)]) && w.committed && w.status == 200
            && ContentType(w) == "text/event-stream"
            && (Accepts(w) <==> (room.Some? ==> room.value > |texts|))
  {
    var sent := Flatten(texts[..Fit(room, |texts|)]);
    assert "" + sent == sent;
  }

  lemma EnvelopeNonEmpty(msg: string)
    ensures Envelope(msg) != ""
  {
  }

  lemma BareSameAsWrapped(x: Exchange, idle: nat, route: Route, probe: string -> Probe, room: Option<nat>)
    requires !TimesOutMidStream(x, idle, route, probe, room)
    ensures BareFinal(x, idle, route, probe, room) == WrappedFinal(x, idle, route, probe, room)
  {
    var v, w := View(None, FreshWire(room)), FreshRecorded(room);
    if ReachesPump(x) {
      HandlerEffect(v, x, idle, route, probe);
      HandlerEffect(w, x, idle, route, probe);
      StreamsSomething(x, idle, route, probe);
      var texts := StreamTexts(x, idle, route, probe);
      SameWire(AfterChunks(AfterHeaders(v), texts), AfterChunks(AfterHeaders(w), texts), ErrorReply(504, TIMEOUT_TEXT));
    } else {
      SameWire(v, w, HandlerCalls(v, x, idle, route, probe));
    }
  }

  lemma {:induction false} SameWire(v: View, w: View, calls: seq<Call>)
    requires v.wire == w.wire
    ensures DoAll(v, calls).wire == DoAll(w, calls).wire
    decreases |calls|
  {
    if calls != [] {
      SameWire(Do(v, calls[0]), Do(w, calls[0]), calls[1..]);
    }
  }

  /** Once something is committed, a reply only adds its body, if the client takes it. */
  lemma LateReply(v: View, code: nat, msg: string)
    requires v.wire.committed
    ensures var after := DoAll(v, ErrorReply(code, msg));
            && after.wire.body == (if Accepts(v.wire) then v.wire.body + Envelope(msg) else v.wire.body)
            && after.wire.status == v.wire.status && after.wire.sent == v.wire.sent && after.wire.committed
  {
    var r := ErrorReply(code, msg);
    DoAllLast(v, r[..2], r[2]);
    DoAllLast(v, r[..1], r[1]);
    DoAllOne(v, r[0]);
    assert r[..2] + [r[2]] == r && r[..1] + [r[1]] == r[..2] && r[..1] == [r[0]];
  }

  /** One message, then silence. */
  function OneMessage(data: string): Exchange {
    Exchange(None, None, None, [Arrival(0, Text(data))], 0)
  }

  lemma OneMessageTimesOut(data: string, idle: nat)
    ensures Arrived(OneMessage(data), idle) == [data] && Closing(OneMessage(data), idle) == ReadTimeout
  {
    var arrivals := OneMessage(data).arrivals;
    assert Outcome(arrivals, idle) == Text(data) && arrivals[1..] == [];
    assert Outcome([], idle) == Fault(READ_DEADLINE) && IsTimeout(READ_DEADLINE);
    assert Messages([], idle) == [];
    assert Ending([], idle) == READ_DEADLINE;
  }

  /** An exchange that goes wrong without a recorder, on every SSE-bytes route and for
      every idle time. */
  lemma BareGoesWrong(idle: nat, dialect: Dialect, probe: string -> Probe)
    ensures var x, route := OneMessage("data: x\n\n"), Route(SseBytes, dialect);
            && TimesOutMidStream(x, idle, route, probe, None)
            && !Delivers(BareFinal(x, idle, route, probe, None), Expected(x, idle, route, probe), None)
  {
    OneMessageTimesOut("data: x\n\n", idle);
    BareOutcome(OneMessage("data: x\n\n"), idle, Route(SseBytes, dialect), probe, None);
  }
}
