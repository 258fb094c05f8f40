/**
 What a client with a conforming event-stream parser recovers from a response, and how
 the streaming and the aggregating mode of the typed pump relate.
 */
module ClientView {
  import opened Sse
  import opened SseRoundTrip
  import opened Options
  import opened HttpWriter
  import opened Upstream
  import opened Frames
  import opened Proxy
  import opened ErrorTexts
  import opened ProxyOutcome
  import ErrorStatus

  // ------------------------------------------------------------------ typed routes

  function TypedFrames(msgs: seq<string>, probe: string -> Probe): (frames: seq<Frame>)
    ensures |frames| == |msgs|
    ensures forall i | 0 <= i < |msgs| :: frames[i] == TypedFrame(msgs[i], probe)
  {
    seq(|msgs|, i requires 0 <= i < |msgs| => TypedFrame(msgs[i], probe))
  }

  /** The upstream messages a typed route passes on, as frames. */
  function UpstreamFrames(x: Exchange, idle: nat, probe: string -> Probe): seq<Frame> {
    TypedFrames(UpToTerminal(Arrived(x, idle), probe), probe)
  }

  /** The proxy's own frame, when upstream goes silent in mid-stream. */
  function OwnFrames(x: Exchange, idle: nat, route: Route, probe: string -> Probe): seq<Frame> {
    var n := |UpstreamFrames(x, idle, probe)|;
    if TypedEnding(Arrived(x, idle), Closing(x, idle), probe) == ReadTimeout && n > 0
    then [ErrorFrame(route.dialect, TIMEOUT_TEXT, n, x.startedAt)] else []
  }

  lemma {:induction false} FlattenIsStream(texts: seq<string>, frames: seq<Frame>)
    requires |texts| == |frames| && forall i | 0 <= i < |texts| :: texts[i] == Printed(frames[i])
    ensures Flatten(texts) == StreamText(frames)
    decreases |texts|
  {
    if texts != [] {
      var k := |texts| - 1;
      FlattenIsStream(texts[..k], frames[..k]);
      assert frames == frames[..k] + [frames[k]];
      StreamConcat(frames[..k], [frames[k]]);
      StreamOfOne(frames[k]);
    }
  }

  lemma StreamOfOne(f: Frame)
    ensures StreamText([f]) == Printed(f)
  {
    assert [f][1..] == [];
    assert Printed(f) + "" == Printed(f);
  }

  /** The body of a streamed response to a client that takes every write. */
  lemma WrappedBody(x: Exchange, idle: nat, route: Route, probe: string -> Probe)
    requires Expected(x, idle, route, probe).EventStream?
    ensures WrappedFinal(x, idle, route, probe, None).body == Flatten(StreamTexts(x, idle, route, probe))
  {
    WrappedOutcome(x, idle, route, probe, None);
    var texts := StreamTexts(x, idle, route, probe);
    assert texts[..|texts|] == texts;
  }

  lemma TypedBody(x: Exchange, idle: nat, route: Route, probe: string -> Probe)
    requires route.mode == TypedJson
    ensures Flatten(StreamTexts(x, idle, route, probe)) ==
            StreamText(UpstreamFrames(x, idle, probe) + OwnFrames(x, idle, route, probe))
  {
    var frames := UpstreamFrames(x, idle, probe) + OwnFrames(x, idle, route, probe);
    FlattenIsStream(StreamTexts(x, idle, route, probe), frames);
  }

  lemma OwnIsOneLine(x: Exchange, idle: nat, route: Route, probe: string -> Probe)
    ensures AllOneLine(OwnFrames(x, idle, route, probe))
  {
    ErrorFrameIsOneLine(route.dialect, TIMEOUT_TEXT, |UpstreamFrames(x, idle, probe)|, x.startedAt);
  }

  lemma AllOneLineConcat(a: seq<Frame>, b: seq<Frame>)
    ensures AllOneLine(a + b) <==> AllOneLine(a) && AllOneLine(b)
  {
    assert forall i | 0 <= i < |a| :: (a + b)[i] == a[i];
    assert forall i | 0 <= i < |b| :: (a + b)[|a| + i] == b[i];
  }

  /** The types that end a typed stream. */
  predicate EndsStream(kind: string) {
    || kind == "response.completed"
    || kind == "response.failed"
    || kind == "response.cancelled"
    || kind == "response.incomplete"
    || kind == "error"
  }

  /** `n` messages are read: up to and including the first of a type that ends the
      stream, or all of them when there is none. */
  predicate ReadsMessages(msgs: seq<string>, probe: string -> Probe, n: nat) {
    && n <= |msgs|
    && (forall i | 0 <= i < n - 1 :: !EndsStream(probe(msgs[i]).kind))
    && (if n > 0 && EndsStream(probe(msgs[n - 1]).kind) then true else n == |msgs|)
  }

  /** Upstream falls silent after its last message, and none of them has ended the
      stream. */
  predicate CutShort(x: Exchange, idle: nat, msgs: seq<string>, probe: string -> Probe) {
    && msgs != [] && SilentAfter(x.arrivals, idle, |msgs|)
    && forall i | 0 <= i < |msgs| :: !EndsStream(probe(msgs[i]).kind)
  }

  /** What a client of a typed route is meant to read: the first `n` messages, each whole
      and under its own type, and after them the announcement that upstream has fallen
      silent, if it has. */
  predicate ReadsAs(events: seq<Event>, msgs: seq<string>, probe: string -> Probe, n: nat, cut: bool,
                    dialect: Dialect, startedAt: int)
    requires n <= |msgs|
  {
    && |events| == n + (if cut then 1 else 0)
    && (forall i | 0 <= i < n ::
          && events[i].kind == (if probe(msgs[i]).kind == "" then "message" else probe(msgs[i]).kind)
          && events[i].data == msgs[i])
    && (cut ==> events[n].kind == (if dialect == Responses then "response.failed" else "error") &&
                Announces(events[n].data, dialect, "upstream read timeout", n, startedAt))
  }

  lemma MessagesRead(x: Exchange, idle: nat, probe: string -> Probe)
    ensures var msgs, n := Arrived(x, idle), |UpstreamFrames(x, idle, probe)|;
            && ReadsMessages(msgs, probe, n)
            && forall i | 0 <= i < n :: UpstreamFrames(x, idle, probe)[i] == TypedFrame(msgs[i], probe)
    ensures CutShort(x, idle, Arrived(x, idle), probe) <==>
            && TypedEnding(Arrived(x, idle), Closing(x, idle), probe) == ReadTimeout
            && |UpstreamFrames(x, idle, probe)| > 0
  {
    ClosingExactly(x, idle);
    assert forall kind :: EndsStream(kind) <==> kind in TERMINAL;
  }

  /** The response of a typed route, in full: a client recovers every event, upstream's
      and the proxy's own, exactly when no upstream type or frame spans lines; and then
      it reads each message whole. */
  lemma TypedClientRecovers(x: Exchange, idle: nat, route: Route, probe: string -> Probe)
    requires route.mode == TypedJson && Expected(x, idle, route, probe).EventStream?
    ensures var frames := UpstreamFrames(x, idle, probe) + OwnFrames(x, idle, route, probe);
            Decode(WrappedFinal(x, idle, route, probe, None).body) == Events(frames) <==>
            AllOneLine(UpstreamFrames(x, idle, probe))
  {
    var up, own := UpstreamFrames(x, idle, probe), OwnFrames(x, idle, route, probe);
    WrappedBody(x, idle, route, probe);
    TypedBody(x, idle, route, probe);
    StreamDecodesExactly(up + own);
    OwnIsOneLine(x, idle, route, probe);
    AllOneLineConcat(up, own);
  }

  /** The events that are meant, apart from what the proxy's own one says. */
  lemma EventsMeant(x: Exchange, idle: nat, route: Route, probe: string -> Probe)
    ensures var up, own := UpstreamFrames(x, idle, probe), OwnFrames(x, idle, route, probe);
            var events, msgs := Events(up + own), Arrived(x, idle);
            && |up| <= |msgs|
            && |events| == |up| + (if CutShort(x, idle, msgs, probe) then 1 else 0)
            && (forall i | 0 <= i < |up| ::
                  && events[i].kind == (if probe(msgs[i]).kind == "" then "message" else probe(msgs[i]).kind)
                  && events[i].data == msgs[i])
            && (CutShort(x, idle, msgs, probe) ==>
                  var f := ErrorFrame(route.dialect, TIMEOUT_TEXT, |up|, x.startedAt);
                  events[|up|] == Event(ErrorKind(route.dialect), f.data))
  {
    var up, own := UpstreamFrames(x, idle, probe), OwnFrames(x, idle, route, probe);
    MessagesRead(x, idle, probe);
    assert forall i | 0 <= i < |up| :: (up + own)[i] == up[i];
    if own != [] {
      assert (up + own)[|up|] == own[0];
    }
  }

  lemma EventsReadAs(x: Exchange, idle: nat, route: Route, probe: string -> Probe)
    ensures var up, msgs := UpstreamFrames(x, idle, probe), Arrived(x, idle);
            && |up| <= |msgs|
            && ReadsAs(Events(up + OwnFrames(x, idle, route, probe)), msgs, probe, |up|,
                       CutShort(x, idle, msgs, probe), route.dialect, x.startedAt)
  {
    EventsMeant(x, idle, route, probe);
    ErrorFrameAnnounces(route.dialect, TIMEOUT_TEXT, |UpstreamFrames(x, idle, probe)|, x.startedAt);
  }

  /** What the client of a typed route reads, without regard to how the proxy gets
      there: the upstream messages up to and including the first that ends the stream,
      byte for byte, and the announcement of a silence with its sequence number and
      start time. */
  lemma TypedClientReads(x: Exchange, idle: nat, route: Route, probe: string -> Probe) returns (n: nat)
    requires route.mode == TypedJson && ReachesPump(x) && !SilentAfter(x.arrivals, idle, 0)
    ensures ReadsMessages(Arrived(x, idle), probe, n)
    ensures (forall i | 0 <= i < n :: OneLine(probe(Arrived(x, idle)[i]).kind) && OneLine(Arrived(x, idle)[i])) ==>
            ReadsAs(Decode(WrappedFinal(x, idle, route, probe, None).body), Arrived(x, idle), probe, n,
                    CutShort(x, idle, Arrived(x, idle), probe), route.dialect, x.startedAt)
  {
    n := |UpstreamFrames(x, idle, probe)|;
    MessagesRead(x, idle, probe);
    if forall i | 0 <= i < n :: OneLine(probe(Arrived(x, idle)[i]).kind) && OneLine(Arrived(x, idle)[i]) {
      OneLineDecodes(x, idle, route, probe);
      EventsReadAs(x, idle, route, probe);
    }
  }

  lemma OneLineDecodes(x: Exchange, idle: nat, route: Route, probe: string -> Probe)
    requires route.mode == TypedJson && ReachesPump(x) && !SilentAfter(x.arrivals, idle, 0)
    requires var msgs, n := Arrived(x, idle), |UpstreamFrames(x, idle, probe)|;
             n <= |msgs| && forall i | 0 <= i < n :: OneLine(probe(msgs[i]).kind) && OneLine(msgs[i])
    ensures Decode(WrappedFinal(x, idle, route, probe, None).body) ==
            Events(UpstreamFrames(x, idle, probe) + OwnFrames(x, idle, route, probe))
  {
    MessagesRead(x, idle, probe);
    ExpectedByCause(x, idle, route, probe);
    TypedClientRecovers(x, idle, route, probe);
  }

  /** At most one terminal event is sent and it is the last one; it is there exactly
      when upstream sent one or fell silent after its first message. The proxy's own
      event announces the silence and carries the number of events before it. */
  lemma TerminalEventIsLast(x: Exchange, idle: nat, route: Route, probe: string -> Probe)
    ensures var events := Events(UpstreamFrames(x, idle, probe) + OwnFrames(x, idle, route, probe));
            && (forall i | 0 <= i < |events| - 1 :: !EndsStream(events[i].kind))
            && (events != [] && EndsStream(events[|events| - 1].kind) <==>
                (exists i | 0 <= i < |Arrived(x, idle)| :: EndsStream(probe(Arrived(x, idle)[i]).kind)) ||
                (SilentAfter(x.arrivals, idle, |Arrived(x, idle)|) && Arrived(x, idle) != []))
    ensures OwnFrames(x, idle, route, probe) != [] ==>
            var n := |UpstreamFrames(x, idle, probe)|;
            Announces(Events(UpstreamFrames(x, idle, probe) + OwnFrames(x, idle, route, probe))[n].data,
                      route.dialect, "upstream read timeout", n, x.startedAt)
  {
    LastEventEnds(x, idle, route, probe);
    if OwnFrames(x, idle, route, probe) != [] {
      OwnEventAnnounces(x, idle, route, probe);
    }
  }

  lemma OwnEventAnnounces(x: Exchange, idle: nat, route: Route, probe: string -> Probe)
    requires OwnFrames(x, idle, route, probe) != []
    ensures var n := |UpstreamFrames(x, idle, probe)|;
            Announces(Events(UpstreamFrames(x, idle, probe) + OwnFrames(x, idle, route, probe))[n].data,
                      route.dialect, "upstream read timeout", n, x.startedAt)
  {
    MessagesRead(x, idle, probe);
    EventsMeant(x, idle, route, probe);
    ErrorFrameAnnounces(route.dialect, TIMEOUT_TEXT, |UpstreamFrames(x, idle, probe)|, x.startedAt);
  }

  lemma KindsMeant(x: Exchange, idle: nat, route: Route, probe: string -> Probe)
    ensures var n, msgs := |UpstreamFrames(x, idle, probe)|, Arrived(x, idle);
            var events := Events(UpstreamFrames(x, idle, probe) + OwnFrames(x, idle, route, probe));
            && n <= |msgs|
            && |events| == n + (if CutShort(x, idle, msgs, probe) then 1 else 0)
            && (forall i | 0 <= i < n :: EndsStream(events[i].kind) <==> EndsStream(probe(msgs[i]).kind))
            && (CutShort(x, idle, msgs, probe) ==> EndsStream(events[n].kind))
  {
    EventsMeant(x, idle, route, probe);
  }

  lemma LastEventEnds(x: Exchange, idle: nat, route: Route, probe: string -> Probe)
    ensures var events := Events(UpstreamFrames(x, idle, probe) + OwnFrames(x, idle, route, probe));
            && (forall i | 0 <= i < |events| - 1 :: !EndsStream(events[i].kind))
            && (events != [] && EndsStream(events[|events| - 1].kind) <==>
                (exists i | 0 <= i < |Arrived(x, idle)| :: EndsStream(probe(Arrived(x, idle)[i]).kind)) ||
                (SilentAfter(x.arrivals, idle, |Arrived(x, idle)|) && Arrived(x, idle) != []))
  {
    MessagesRead(x, idle, probe);
    KindsMeant(x, idle, route, probe);
    var events := Events(UpstreamFrames(x, idle, probe) + OwnFrames(x, idle, route, probe));
    LastEndsStream(events, Arrived(x, idle), probe, |UpstreamFrames(x, idle, probe)|,
                   SilentAfter(x.arrivals, idle, |Arrived(x, idle)|));
  }

  lemma LastEndsStream(events: seq<Event>, msgs: seq<string>, probe: string -> Probe, n: nat, silent: bool)
    requires ReadsMessages(msgs, probe, n)
    requires var cut := msgs != [] && silent && forall i | 0 <= i < |msgs| :: !EndsStream(probe(msgs[i]).kind);
             |events| == n + (if cut then 1 else 0) && (cut ==> EndsStream(events[n].kind))
    requires forall i | 0 <= i < n :: EndsStream(events[i].kind) <==> EndsStream(probe(msgs[i]).kind)
    ensures forall i | 0 <= i < |events| - 1 :: !EndsStream(events[i].kind)
    ensures events != [] && EndsStream(events[|events| - 1].kind) <==>
            (exists i | 0 <= i < |msgs| :: EndsStream(probe(msgs[i]).kind)) || (silent && msgs != [])
  {
    if n > 0 && EndsStream(probe(msgs[n - 1]).kind) {
      assert EndsStream(events[n - 1].kind);
    } else {
      assert n == |msgs|;
    }
  }

  /** A frame printed over several lines, as pretty-printed JSON is, is not recovered. */
  lemma PrettyPrintedFrameIsLost()
    ensures Decode(StreamText([Frame("response.created", "{\n}")])) != Events([Frame("response.created", "{\n}")])
  {
    var frames := [Frame("response.created", "{\n}")];
    StreamDecodesExactly(frames);
    assert frames[0].data[1] == '\n';
  }

  // -------------------------------------------------------------- SSE-bytes routes

  /** On an SSE-bytes route the body is upstream's own text, however it was split into
      messages; after a timeout in mid-stream a client recovers upstream's events
      followed by the proxy's error event exactly when upstream's text leaves its
      parser ready to take a frame. */
  lemma SseClientRecovers(x: Exchange, idle: nat, route: Route, probe: string -> Probe)
    requires route.mode == SseBytes && Expected(x, idle, route, probe).EventStream?
    ensures var upstream := Flatten(Arrived(x, idle));
            var body := WrappedFinal(x, idle, route, probe, None).body;
            var own := ErrorFrame(route.dialect, TIMEOUT_TEXT, 0, ZERO_TIME);
            if Closing(x, idle) == ReadTimeout then
              && body == upstream + Printed(own)
              && own.kind == (if route.dialect == Responses then "response.failed" else "error")
              && Announces(own.data, route.dialect, "upstream read timeout", 0, -62135596800)
              && (Decode(body) == Decode(upstream) + [Event(own.kind, own.data)] <==>
                  TakesFrame(After(upstream), own.kind))
            else body == upstream
  {
    WrappedBody(x, idle, route, probe);
    SseBody(x, idle, route, probe);
    ErrorFrameAnnounces(route.dialect, TIMEOUT_TEXT, 0, ZERO_TIME);
    ErrorFrameIsOneLine(route.dialect, TIMEOUT_TEXT, 0, ZERO_TIME);
    AppendedRecovered(Flatten(Arrived(x, idle)), ErrorFrame(route.dialect, TIMEOUT_TEXT, 0, ZERO_TIME));
  }

  lemma SseBody(x: Exchange, idle: nat, route: Route, probe: string -> Probe)
    requires route.mode == SseBytes && Expected(x, idle, route, probe).EventStream? && ReachesPump(x)
    ensures Flatten(StreamTexts(x, idle, route, probe)) ==
            Flatten(Arrived(x, idle)) +
            if Closing(x, idle) == ReadTimeout then Printed(ErrorFrame(route.dialect, TIMEOUT_TEXT, 0, ZERO_TIME)) else ""
  {
    var msgs := Arrived(x, idle);
    if Closing(x, idle) == ReadTimeout {
      FlattenMore(msgs, Printed(ErrorFrame(route.dialect, TIMEOUT_TEXT, 0, ZERO_TIME)));
    } else {
      assert msgs + [] == msgs && Flatten(msgs) + "" == Flatten(msgs);
    }
  }

  lemma AfterDataLine(text: string)
    requires OneLine(text)
    ensures After(DataLine(text) + "\n").data == text + "\n"
  {
    RunLine(START, DataLine(text));
    assert "" + DataLine(text) == DataLine(text);
    ProcessDataLine(START, text);
    assert "" + text + "\n" == text + "\n";
  }

  /** When upstream falls silent before the blank line that would end its event, the
      client does not get the proxy's event. */
  lemma UnfinishedEventIsLost(text: string, idle: nat, dialect: Dialect, probe: string -> Probe)
    requires OneLine(text)
    ensures var upstream, own := DataLine(text) + "\n", ErrorFrame(dialect, TIMEOUT_TEXT, 0, ZERO_TIME);
            var x, route := OneMessage(upstream), Route(SseBytes, dialect);
            && Expected(x, idle, route, probe).EventStream?
            && Decode(WrappedFinal(x, idle, route, probe, None).body) != Decode(upstream) + [Event(own.kind, own.data)]
  {
    var upstream := DataLine(text) + "\n";
    var x, route := OneMessage(upstream), Route(SseBytes, dialect);
    OneMessageTimesOut(upstream, idle);
    SseClientRecovers(x, idle, route, probe);
    AfterDataLine(text);
    FlattenMore([], upstream);
    assert [] + [upstream] == [upstream] && "" + upstream == upstream;
  }

  lemma AppendedRecovered(upstream: string, own: Frame)
    requires OneLine(own.kind) && OneLine(own.data) && own.kind != ""
    ensures Decode(upstream + Printed(own)) == Decode(upstream) + [Event(own.kind, own.data)] <==>
            TakesFrame(After(upstream), own.kind)
  {
    assert Printed(own)[0] == 'e';
    AfterConcat(upstream, Printed(own));
    AppendedFrameRecovered(After(upstream), own.kind, own.data);
  }

  // ------------------------------------------------------- streaming and aggregating

  /** Both modes stop at the same message exactly when the one the stream stops at, if
      any, unmarshals without an error. */
  lemma {:induction false} ModesStopTogether(msgs: seq<string>, probe: string -> Probe)
    ensures var k := StopAt(msgs, probe);
            FirstTerminal(msgs, probe) == (if k < |msgs| then Some(msgs[k]) else None) <==>
            k == |msgs| || probe(msgs[k]).ok
    ensures FirstTerminal(msgs, probe).Some? ==> probe(FirstTerminal(msgs, probe).value).ok
    decreases |msgs|
  {
    if msgs != [] {
      var rest := msgs[1..];
      ModesStopTogether(rest, probe);
      if probe(msgs[0]).kind !in TERMINAL {
        var k := StopAt(rest, probe);
        assert StopAt(msgs, probe) == k + 1;
        assert k < |rest| ==> rest[k] == msgs[k + 1];
      }
    }
  }

  /** The aggregated reply is 200 exactly when no failure event ended the stream; its
      body is then the completed event's response, or "{}" without one, and otherwise
      the whole failure event. */
  lemma AggregateReply(msgs: seq<string>, probe: string -> Probe, parse: string -> Option<ErrorStatus.Value>)
    ensures var stop := FirstTerminal(msgs, probe);
            var status := AggregateStatus(stop, probe, parse);
            && (status == 200 <==> stop.None? || probe(stop.value).kind == "response.completed")
            && (status != 200 ==> 400 <= status <= 599 && AggregateBody(stop, probe) == stop.value)
            && (status == 200 ==>
                AggregateBody(stop, probe) ==
                if stop.Some? && probe(stop.value).response.Some? then probe(stop.value).response.value else "{}")
            && (stop.Some? && probe(stop.value).kind != "response.completed" ==>
                status == ErrorStatus.MapErrorStatus(parse(stop.value)))
            && TypedAggregate(msgs, NoError, probe, parse) == JsonReply(status, AggregateBody(stop, probe))
  {
  }

  /** The buffered reply of an SSE-bytes pump is 200 exactly when the body is no object
      with an `error` member, and else has the status found in that body. */
  lemma BufferedReply(msgs: seq<string>, parse: string -> Option<ErrorStatus.Value>)
    ensures var body, doc := Flatten(msgs), parse(Flatten(msgs));
            var failed := doc.Some? && doc.value.Object? && exists m | m in doc.value.fields :: m.0 == "error";
            SseBuffered(msgs, NoError, parse) ==
            JsonReply(if failed then ErrorStatus.MapErrorStatus(doc) else 200, body)
  {
  }
}
