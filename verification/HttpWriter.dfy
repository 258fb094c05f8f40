/**
 The HTTP response a handler writes to: the server's own writer, and the
 `statusRecorder` that wraps it.
 */
module HttpWriter {
  import opened Options

  // ------------------------------------------------------------ specification

  /** What the server has of a response. `header` is the map handlers may still
      change, `sent` its copy taken when the status line was committed, `flushed` how
      much of the body has been pushed to the client, and `room` the number of writes
      the client still accepts (`None`: all of them). */
  datatype Wire = Wire(
    header: map<string, string>,
    committed: bool,
    status: nat,
    sent: map<string, string>,
    body: string,
    flushed: nat,
    room: Option<nat>)

  datatype Call =
    | SetHeader(key: string, value: string)
    | WriteHeader(code: nat)
    | Write(data: string)
    | Flush

  /** The first status wins; later ones are ignored. */
  function Commit(w: Wire, code: nat): Wire {
    if w.committed then w else w.(committed := true, status := code, sent := w.header)
  }

  predicate Accepts(w: Wire) {
    w.room != Some(0)
  }

  /** A write commits 200 even when the client is gone and nothing arrives. */
  function Receive(w: Wire, call: Call): Wire {
    match call
    case SetHeader(k, v) => w.(header := w.header[k := v])
    case WriteHeader(code) => Commit(w, code)
    case Write(data) =>
      var c := Commit(w, 200);
      if !Accepts(w) then c
      else c.(body := c.body + data, room := if c.room.Some? then Some(c.room.value - 1) else None)
    case Flush =>
      var c := Commit(w, 200);
      c.(flushed := |c.body|)
  }

  /** What `statusRecorder` remembers. */
  datatype Recording = Recording(status: nat, committed: bool)

  /** A writer as a handler sees it: wrapped in a recorder or not. */
  datatype View = View(rec: Option<Recording>, wire: Wire)

  /** The recorder notes the latest status it is given, even one the wire ignores,
      and takes no notice of a flush. */
  function Note(r: Recording, call: Call): Recording {
    match call
    case WriteHeader(code) => Recording(code, true)
    case Write(_) => r.(committed := true)
    case _ => r
  }

  function Do(v: View, call: Call): View {
    View(if v.rec.Some? then Some(Note(v.rec.value, call)) else None, Receive(v.wire, call))
  }

  function DoAll(v: View, calls: seq<Call>): View
    decreases |calls|
  {
    if calls == [] then v else DoAll(Do(v, calls[0]), calls[1..])
  }

  lemma {:induction false} DoAllConcat(v: View, a: seq<Call>, b: seq<Call>)
    ensures DoAll(v, a + b) == DoAll(DoAll(v, a), b)
    decreases |a|
  {
    if a == [] {
      assert a + b == b;
    } else {
      assert (a + b)[0] == a[0] && (a + b)[1..] == a[1..] + b;
      DoAllConcat(Do(v, a[0]), a[1..], b);
    }
  }

  lemma DoAllOne(v: View, call: Call)
    ensures DoAll(v, [call]) == Do(v, call)
  {
    assert DoAll(v, [call]) == DoAll(Do(v, call), [call][1..]);
  }

  lemma DoAllLast(v: View, calls: seq<Call>, call: Call)
    ensures DoAll(v, calls + [call]) == Do(DoAll(v, calls), call)
  {
    DoAllConcat(v, calls, [call]);
    DoAllOne(DoAll(v, calls), call);
  }

  /** The response as it stands once the handler has returned. */
  function Finished(w: Wire): Wire {
    Receive(w, Flush)
  }

  // ------------------------------------------------------------------ objects

  /** The server's writer. */
  class NetWriter {
    var header: map<string, string>
    var committed: bool
    var status: nat
    var sent: map<string, string>
    var body: string
    var flushed: nat
    var room: Option<nat>

    constructor (room: Option<nat>)
      ensures Response() == Wire(map[], false, 0, map[], "", 0, room)
    {
      header, committed, status, sent, body, flushed := map[], false, 0, map[], "", 0;
      this.room := room;
    }

    ghost function Response(): Wire
      reads this
    {
      Wire(header, committed, status, sent, body, flushed, room)
    }

    method SetHeader(k: string, v: string)
      modifies this
      ensures Response() == Receive(old(Response()), Call.SetHeader(k, v))
    {
      header := header[k := v];
    }

    method WriteHeader(code: nat)
      modifies this
      ensures Response() == Receive(old(Response()), Call.WriteHeader(code))
    {
      if !committed {
        committed, status, sent := true, code, header;
      }
    }

    method Write(data: string) returns (ok: bool)
      modifies this
      ensures Response() == Receive(old(Response()), Call.Write(data))
      ensures ok == Accepts(old(Response()))
    {
      WriteHeader(200);
      ok := room != Some(0);
      if ok {
        body := body + data;
        if room.Some? {
          room := Some(room.value - 1);
        }
      }
    }

    method Flush()
      modifies this
      ensures Response() == Receive(old(Response()), Call.Flush)
    {
      WriteHeader(200);
      flushed := |body|;
    }
  }

  /** Captures the status while passing everything through. */
  class StatusRecorder {
    const inner: NetWriter
    var status: nat
    var committed: bool

    constructor (inner: NetWriter)
      ensures this.inner == inner && Noted() == Recording(200, false)
    {
      this.inner := inner;
      status, committed := 200, false;
    }

    ghost function Noted(): Recording
      reads this
    {
      Recording(status, committed)
    }

    method WriteHeader(code: nat)
      modifies this, inner
      ensures Noted() == Note(old(Noted()), Call.WriteHeader(code))
      ensures inner.Response() == Receive(old(inner.Response()), Call.WriteHeader(code))
    {
      status := code;
      committed := true;
      inner.WriteHeader(code);
    }

    method Write(data: string) returns (ok: bool)
      modifies this, inner
      ensures Noted() == Note(old(Noted()), Call.Write(data))
      ensures inner.Response() == Receive(old(inner.Response()), Call.Write(data))
      ensures ok == Accepts(old(inner.Response()))
    {
      committed := true;
      ok := inner.Write(data);
    }

    method Flush()
      modifies inner
      ensures Noted() == old(Noted())
      ensures inner.Response() == Receive(old(inner.Response()), Call.Flush)
    {
      inner.Flush();
    }
  }

  /** The `http.ResponseWriter` interface with its two dynamic types. */
  datatype ResponseWriter = Bare(net: NetWriter) | Recorded(recorder: StatusRecorder) {

    ghost function Objects(): set<object> {
      match this
      case Bare(net) => {net}
      case Recorded(recorder) => {recorder, recorder.inner}
    }

    ghost function Seen(): View
      reads Objects()
    {
      match this
      case Bare(net) => View(None, net.Response())
      case Recorded(recorder) => View(Some(recorder.Noted()), recorder.inner.Response())
    }

    method SetHeader(k: string, v: string)
      modifies Objects()
      ensures Seen() == Do(old(Seen()), Call.SetHeader(k, v))
    {
      match this
      case Bare(net) => net.SetHeader(k, v);
      case Recorded(recorder) => recorder.inner.SetHeader(k, v);
    }

    method WriteHeader(code: nat)
      modifies Objects()
      ensures Seen() == Do(old(Seen()), Call.WriteHeader(code))
    {
      match this
      case Bare(net) => net.WriteHeader(code);
      case Recorded(recorder) => recorder.WriteHeader(code);
    }

    method Write(data: string) returns (ok: bool)
      modifies Objects()
      ensures Seen() == Do(old(Seen()), Call.Write(data))
      ensures ok == Accepts(old(Seen()).wire)
    {
      match this
      case Bare(net) => ok := net.Write(data);
      case Recorded(recorder) => ok := recorder.Write(data);
    }

    method Flush()
      modifies Objects()
      ensures Seen() == Do(old(Seen()), Call.Flush)
    {
      match this
      case Bare(net) => net.Flush();
      case Recorded(recorder) => recorder.Flush();
    }
  }
}
