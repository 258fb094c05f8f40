/**
 The proxy handler: one upstream exchange turned into one HTTP response, and the
 request log around it.
 */
module Proxy {
  import opened Options
  import opened HttpWriter
  import opened Upstream
  import opened Frames
  import ErrorStatus
  import Json

  datatype Mode = SseBytes | TypedJson

  /** What a route fixes. */
  datatype Route = Route(mode: Mode, dialect: Dialect)

  datatype DialFault = DialFault(err: Error, text: string)

  /** Everything the outside world decides about one request. */
  datatype Exchange = Exchange(
    bodyError: Option<string>,
    dialError: Option<DialFault>,
    writeError: Option<string>,
    arrivals: seq<Arrival>,
    startedAt: int)

  /** The proxy's own JSON error body. */
  function Envelope(msg: string): string {
    Json.Marshal(Json.Dict([("error", Json.Dict([("message", Json.Text(msg)), ("type", Json.Text("proxy_error"))]))]))
  }

  function ErrorReply(status: nat, msg: string): seq<Call> {
    JsonReply(status, Envelope(msg))
  }

  function DialStatus(err: Error): nat {
    if IsTimeout(err) then 504 else 502
  }

  // ------------------------------------------------------------- specification

  function Arrived(x: Exchange, idle: nat): seq<string> {
    Messages(x.arrivals, idle)
  }

  function Closing(x: Exchange, idle: nat): PumpError {
    ClassifyReadError(Ending(x.arrivals, idle))
  }

  function PumpCalls(x: Exchange, idle: nat, route: Route, probe: string -> Probe, room: Option<nat>): seq<Call> {
    SseHeaders() +
    match route.mode
    case SseBytes => SseStream(Arrived(x, idle), Closing(x, idle), route.dialect, room)
    case TypedJson => TypedStream(Arrived(x, idle), Closing(x, idle), probe, route.dialect, x.startedAt)
  }

  function PumpResult(x: Exchange, idle: nat, route: Route, probe: string -> Probe, room: Option<nat>): PumpError {
    match route.mode
    case SseBytes => SseStreamError(Arrived(x, idle), Closing(x, idle), room)
    case TypedJson => TypedEnding(Arrived(x, idle), Closing(x, idle), probe)
  }

  /** The 504 after a read timeout: held back exactly when a recorder has seen the
      response committed. */
  function TimeoutReply(v: View, result: PumpError): seq<Call> {
    if result == ReadTimeout && (v.rec.Some? ==> !v.rec.value.committed) then ErrorReply(504, TIMEOUT_TEXT) else []
  }

  function HandlerCalls(v: View, x: Exchange, idle: nat, route: Route, probe: string -> Probe): seq<Call> {
    if x.bodyError.Some? then ErrorReply(400, "read request body failed: " + x.bodyError.value)
    else if x.dialError.Some? then
      ErrorReply(DialStatus(x.dialError.value.err), "upstream websocket dial failed: " + x.dialError.value.text)
    else if x.writeError.Some? then ErrorReply(502, "upstream write failed: " + x.writeError.value)
    else
      var calls := PumpCalls(x, idle, route, probe, v.wire.room);
      calls + TimeoutReply(DoAll(v, calls), PumpResult(x, idle, route, probe, v.wire.room))
  }

  // ------------------------------------------------------------------- methods

  method WriteProxyError(w: ResponseWriter, status: nat, msg: string)
    modifies w.Objects()
    ensures w.Seen() == DoAll(old(w.Seen()), ErrorReply(status, msg))
  {
    WriteJsonReply(w, status, Envelope(msg));
  }

  method Pump(w: ResponseWriter, x: Exchange, idle: nat, route: Route, probe: string -> Probe,
              parse: string -> Option<ErrorStatus.Value>) returns (err: PumpError)
    modifies w.Objects()
    ensures w.Seen() == DoAll(old(w.Seen()), PumpCalls(x, idle, route, probe, old(w.Seen()).wire.room))
    ensures err == PumpResult(x, idle, route, probe, old(w.Seen()).wire.room)
  {
    var reader := new IdleConn(idle, x.arrivals);
    match route.mode
    case TypedJson => err := PumpTypedJson(w, reader, true, route.dialect, x.startedAt, probe, parse);
    case SseBytes => err := PumpSseBytes(w, reader, true, route.dialect, parse);
  }

  /** The handler closure. */
  method Handle(w: ResponseWriter, x: Exchange, idle: nat, route: Route, probe: string -> Probe,
                parse: string -> Option<ErrorStatus.Value>)
    modifies w.Objects()
    ensures w.Seen() == DoAll(old(w.Seen()), HandlerCalls(old(w.Seen()), x, idle, route, probe))
  {
    if x.bodyError.Some? {
      WriteProxyError(w, 400, "read request body failed: " + x.bodyError.value);
      return;
    }
    if x.dialError.Some? {
      var status := 502;
      if IsTimeout(x.dialError.value.err) {
        status := 504;
      }
      WriteProxyError(w, status, "upstream websocket dial failed: " + x.dialError.value.text);
      return;
    }
    if x.writeError.Some? {
      WriteProxyError(w, 502, "upstream write failed: " + x.writeError.value);
      return;
    }
    ghost var v := w.Seen();
    ghost var calls := PumpCalls(x, idle, route, probe, v.wire.room);
    var pumpErr := Pump(w, x, idle, route, probe, parse);
    DoAllConcat(v, calls, TimeoutReply(DoAll(v, calls), pumpErr));
    if pumpErr == ReadTimeout {
      match w
      case Recorded(recorder) =>
        if !recorder.committed {
          WriteProxyError(w, 504, TIMEOUT_TEXT);
        }
      case Bare(_) =>
        WriteProxyError(w, 504, TIMEOUT_TEXT);
    }
  }

  const FRESH_RECORDING := Recording(200, false)

  function FreshWire(room: Option<nat>): Wire {
    Wire(map[], false, 0, map[], "", 0, room)
  }

  /** The state of a wrapped response when its handler starts. */
  function FreshRecorded(room: Option<nat>): View {
    View(Some(FRESH_RECORDING), FreshWire(room))
  }

  /** `withRequestLog` around the handler; `logged` is the status in the log line. */
  method ServeLogged(net: NetWriter, x: Exchange, idle: nat, route: Route, probe: string -> Probe,
                     parse: string -> Option<ErrorStatus.Value>) returns (logged: nat)
    requires net.Response() == FreshWire(net.room)
    modifies net
    ensures var v := FreshRecorded(old(net.room));
            var after := DoAll(v, HandlerCalls(v, x, idle, route, probe));
            net.Response() == after.wire && after.rec.Some? && after.rec.value.status == logged
  {
    var sr := new StatusRecorder(net);
    var w := Recorded(sr);
    Handle(w, x, idle, route, probe, parse);
    logged := sr.status;
  }
}
