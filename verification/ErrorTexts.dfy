/**
 What the proxy's own errors say to a client that reads them as JSON: the terminal
 event of a stream in each dialect, and the error envelope.
 */
module ErrorTexts {
  import opened Options
  import opened Json
  import opened JsonReader
  import opened Frames
  import opened Proxy

  // ------------------------------------------------------------------------- lookups

  lemma {:induction false} MemberAt(members: seq<(string, Doc)>, i: nat)
    requires i < |members| && forall j | 0 <= j < i :: members[j].0 != members[i].0
    ensures Member(members, members[i].0) == Some(members[i].1)
    decreases i
  {
    if i > 0 {
      assert members[0].0 != members[i].0;
      assert forall j | 0 <= j < i - 1 :: members[1..][j] == members[j + 1];
      MemberAt(members[1..], i - 1);
    }
  }

  lemma {:induction false} MemberMissing(members: seq<(string, Doc)>, key: string)
    requires forall j | 0 <= j < |members| :: members[j].0 != key
    ensures Member(members, key) == None
    decreases |members|
  {
    if members != [] {
      assert members[0].0 != key;
      assert forall j | 0 <= j < |members| - 1 :: members[1..][j] == members[j + 1];
      MemberMissing(members[1..], key);
    }
  }

  lemma FindOne(doc: Doc, key: string)
    requires doc.Dict?
    ensures Find(Some(doc), [key]) == Member(doc.members, key)
  {
    assert [key][1..] == [];
  }

  lemma FindTwo(doc: Doc, outer: string, inner: Doc, key: string)
    requires doc.Dict? && Member(doc.members, outer) == Some(inner)
    ensures Find(Some(doc), [outer, key]) == Find(Some(inner), [key])
  {
    assert [outer, key][1..] == [key];
  }

  lemma FindThree(doc: Doc, outer: string, inner: Doc, middle: string, key: string)
    requires doc.Dict? && Member(doc.members, outer) == Some(inner)
    ensures Find(Some(doc), [outer, middle, key]) == Find(Some(inner), [middle, key])
  {
    assert [outer, middle, key][1..] == [middle, key];
  }
  // ---------------------------------------------------------------- the terminal event

  /** The data of the proxy's terminal event, read as JSON: an upstream timeout with that
      message, in the terms of the route's dialect. */
  predicate Announces(data: string, dialect: Dialect, msg: string, sequence: nat, startedAt: int) {
    var doc := Read(data);
    match dialect
    case Responses =>
      && Find(doc, ["type"]) == Some(Text("response.failed"))
      && Find(doc, ["sequence_number"]) == Some(Number(sequence))
      && Find(doc, ["response", "created_at"]) == Some(Number(startedAt))
      && Find(doc, ["response", "id"]) == Some(Text("resp_proxy_error"))
      && Find(doc, ["response", "model"]) == Some(Text(""))
      && Find(doc, ["response", "object"]) == Some(Text("response"))
      && Find(doc, ["response", "output"]) == Some(List([]))
      && Find(doc, ["response", "status"]) == Some(Text("failed"))
      && Find(doc, ["response", "error", "type"]) == Some(Text("proxy_error"))
      && Find(doc, ["response", "error", "code"]) == Some(Text("upstream_timeout"))
      && Find(doc, ["response", "error", "message"]) == Some(Text(msg))
    case OpenAI =>
      && Find(doc, ["error", "type"]) == Some(Text("proxy_error"))
      && Find(doc, ["error", "code"]) == Some(Text("upstream_timeout"))
      && Find(doc, ["error", "message"]) == Some(Text(msg))
      && Find(doc, ["type"]) == None
    case Anthropic =>
      && Find(doc, ["type"]) == Some(Text("error"))
      && Find(doc, ["error", "type"]) == Some(Text("proxy_error"))
      && Find(doc, ["error", "message"]) == Some(Text(msg))
      && Find(doc, ["error", "code"]) == None
  }

  /** An error object with a code. */
  predicate CodedError(doc: Doc, msg: string) {
    && doc.Dict?
    && Member(doc.members, "type") == Some(Text("proxy_error"))
    && Member(doc.members, "code") == Some(Text("upstream_timeout"))
    && Member(doc.members, "message") == Some(Text(msg))
  }

  lemma OpenAIDocument(msg: string, sequence: nat, startedAt: int) returns (error: Doc)
    ensures var doc := ErrorDoc(OpenAI, msg, sequence, startedAt);
            && doc.Dict? && Member(doc.members, "error") == Some(error) && Member(doc.members, "type") == None
            && CodedError(error, msg)
  {
    var doc := ErrorDoc(OpenAI, msg, sequence, startedAt);
    error := doc.members[0].1;
    MemberAt(doc.members, 0);
    MemberMissing(doc.members, "type");
    CodedDocument(error, msg);
  }

  lemma CodedDocument(error: Doc, msg: string)
    requires error == Dict([("code", Text("upstream_timeout")), ("message", Text(msg)), ("type", Text("proxy_error"))])
    ensures CodedError(error, msg)
  {
    MemberAt(error.members, 0);
    MemberAt(error.members, 1);
    MemberAt(error.members, 2);
  }

  lemma AnthropicDocument(msg: string, sequence: nat, startedAt: int) returns (error: Doc)
    ensures var doc := ErrorDoc(Anthropic, msg, sequence, startedAt);
            && doc.Dict? && Member(doc.members, "error") == Some(error)
            && Member(doc.members, "type") == Some(Text("error"))
            && error.Dict? && Member(error.members, "code") == None
            && Member(error.members, "type") == Some(Text("proxy_error"))
            && Member(error.members, "message") == Some(Text(msg))
  {
    var doc := ErrorDoc(Anthropic, msg, sequence, startedAt);
    error := doc.members[0].1;
    MemberAt(doc.members, 0);
    MemberAt(doc.members, 1);
    MemberAt(error.members, 0);
    MemberAt(error.members, 1);
    MemberMissing(error.members, "code");
  }

  /** The failed response inside the event. */
  predicate FailedResponse(response: Doc, error: Doc, startedAt: int) {
    && response.Dict?
    && Member(response.members, "created_at") == Some(Number(startedAt))
    && Member(response.members, "id") == Some(Text("resp_proxy_error"))
    && Member(response.members, "model") == Some(Text(""))
    && Member(response.members, "object") == Some(Text("response"))
    && Member(response.members, "output") == Some(List([]))
    && Member(response.members, "status") == Some(Text("failed"))
    && Member(response.members, "error") == Some(error)
  }

  lemma ResponsesDocument(msg: string, sequence: nat, startedAt: int) returns (response: Doc, error: Doc)
    ensures var doc := ErrorDoc(Responses, msg, sequence, startedAt);
            && doc.Dict? && Member(doc.members, "response") == Some(response)
            && Member(doc.members, "type") == Some(Text("response.failed"))
            && Member(doc.members, "sequence_number") == Some(Number(sequence))
            && FailedResponse(response, error, startedAt) && CodedError(error, msg)
  {
    var doc := ErrorDoc(Responses, msg, sequence, startedAt);
    response := doc.members[0].1;
    error := response.members[1].1;
    MemberAt(doc.members, 0);
    MemberAt(doc.members, 1);
    MemberAt(doc.members, 2);
    ResponseDocument(response, error, startedAt);
    CodedDocument(error, msg);
  }

  lemma ResponseDocument(response: Doc, error: Doc, startedAt: int)
    requires response == Dict([
      ("created_at", Number(startedAt)),
      ("error", error),
      ("id", Text("resp_proxy_error")),
      ("model", Text("")),
      ("object", Text("response")),
      ("output", List([])),
      ("status", Text("failed"))])
    ensures FailedResponse(response, error, startedAt)
  {
    MemberAt(response.members, 0);
    MemberAt(response.members, 1);
    MemberAt(response.members, 2);
    assert "error"[0] != "model"[0];
    MemberAt(response.members, 3);
    MemberAt(response.members, 4);
    assert "object"[1] != "output"[1];
    MemberAt(response.members, 5);
    assert "object"[0] != "status"[0] && "output"[0] != "status"[0];
    MemberAt(response.members, 6);
  }

  lemma ResponsesAnnounces(data: string, doc: Doc, response: Doc, error: Doc, msg: string, sequence: nat,
                           startedAt: int)
    requires Read(data) == Some(doc) && doc.Dict? && Member(doc.members, "response") == Some(response)
    requires Member(doc.members, "type") == Some(Text("response.failed"))
    requires Member(doc.members, "sequence_number") == Some(Number(sequence))
    requires FailedResponse(response, error, startedAt) && CodedError(error, msg)
    ensures Announces(data, Responses, msg, sequence, startedAt)
  {
    FindOne(doc, "type");
    FindOne(doc, "sequence_number");
    forall key: string
      ensures Find(Some(doc), ["response", key]) == Member(response.members, key)
      ensures Find(Some(doc), ["response", "error", key]) == Member(error.members, key)
    {
      FindTwo(doc, "response", response, key);
      FindOne(response, key);
      FindThree(doc, "response", response, "error", key);
      FindTwo(response, "error", error, key);
      FindOne(error, key);
    }
  }

  lemma PlainAnnounces(data: string, doc: Doc, error: Doc, dialect: Dialect, msg: string, sequence: nat,
                       startedAt: int)
    requires Read(data) == Some(doc) && doc.Dict? && Member(doc.members, "error") == Some(error) && error.Dict?
    requires dialect == OpenAI ==> CodedError(error, msg) && Member(doc.members, "type") == None
    requires dialect == Anthropic ==>
               && Member(doc.members, "type") == Some(Text("error")) && Member(error.members, "code") == None
               && Member(error.members, "type") == Some(Text("proxy_error"))
               && Member(error.members, "message") == Some(Text(msg))
    ensures dialect != Responses ==> Announces(data, dialect, msg, sequence, startedAt)
  {
    FindOne(doc, "type");
    forall key: string
      ensures Find(Some(doc), ["error", key]) == Member(error.members, key)
    {
      FindTwo(doc, "error", error, key);
      FindOne(error, key);
    }
  }

  /** The error frame that the pumps print announces the timeout in its dialect, with
      the message, the sequence number and the start time each in its place. */
  lemma ErrorFrameAnnounces(dialect: Dialect, msg: string, sequence: nat, startedAt: int)
    ensures Announces(ErrorFrame(dialect, msg, sequence, startedAt).data, dialect, msg, sequence, startedAt)
    ensures ErrorFrame(dialect, msg, sequence, startedAt).kind ==
            if dialect == Responses then "response.failed" else "error"
  {
    var doc := ErrorDoc(dialect, msg, sequence, startedAt);
    var data := ErrorFrame(dialect, msg, sequence, startedAt).data;
    ReadOfMarshal(doc);
    match dialect
    case Responses =>
      var response, error := ResponsesDocument(msg, sequence, startedAt);
      ResponsesAnnounces(data, doc, response, error, msg, sequence, startedAt);
    case OpenAI =>
      var error := OpenAIDocument(msg, sequence, startedAt);
      PlainAnnounces(data, doc, error, dialect, msg, sequence, startedAt);
    case Anthropic =>
      var error := AnthropicDocument(msg, sequence, startedAt);
      PlainAnnounces(data, doc, error, dialect, msg, sequence, startedAt);
  }

  // ------------------------------------------------------------------------ the envelope

  /** A body that, read as JSON, is an error of the proxy with that message. */
  predicate IsEnvelope(body: string, msg: string) {
    && Find(Read(body), ["error", "type"]) == Some(Text("proxy_error"))
    && Find(Read(body), ["error", "message"]) == Some(Text(msg))
  }

  lemma EnvelopeReads(msg: string)
    ensures IsEnvelope(Envelope(msg), msg)
  {
    var error := Dict([("message", Text(msg)), ("type", Text("proxy_error"))]);
    var doc := Dict([("error", error)]);
    ReadOfMarshal(doc);
    MemberAt(doc.members, 0);
    MemberAt(error.members, 0);
    MemberAt(error.members, 1);
    FindTwo(doc, "error", error, "type");
    FindTwo(doc, "error", error, "message");
    FindOne(error, "type");
    FindOne(error, "message");
  }
}
