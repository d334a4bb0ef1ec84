/**
 The write half of response.go: `writeResponse` commits the pending response or takeover once.
 */
module ResponseWrites {
  import opened Wire
  import opened StreamWriters
  import opened Contexts

  /** What `json.Marshal` makes of a value; a panic of the value's own MarshalJSON is passed on. */
  datatype Marshalled = Encoded(data: Bytes) | Unsupported | MarshalPanics

  /**
   Everything a request can depend on besides its route: what user code decides at each branch,
   what the network answers, and how values are marshalled. All three are arbitrary.
   */
  datatype Env = Env(user: nat -> bool, net: Network, marshal: Body -> Marshalled)

  datatype Written = Written(ctx: Ctx, out: Stream, panicked: bool)

  function WriteEmpty500(c: Ctx, s: Stream): Written {
    if !s.attached then Written(c, s, true)
    else
      var step := AfterStreamWriteHeader(s.(conn := s.conn.(header := map[])), 500);
      Written(c, step.stream, step.panicked)
  }

  function WriteWhole(c: Ctx, s: Stream, data: Bytes, net: Network): Written {
    var step := AfterStreamWriteHeader(s, c.status);
    if step.panicked then Written(c, step.stream, true)
    else
      var write := AfterStreamWrite(step.stream, data, net);
      Written(c, write.stream, write.panicked || write.failed)
  }

  const JSON_TYPE: seq<string> := ["application/json; charset=utf-8"]

  function WriteJson(c: Ctx, s: Stream, env: Env): Written {
    match env.marshal(c.body)
    case MarshalPanics => Written(c, s, true)
    case Unsupported => WriteEmpty500(c, s)
    case Encoded(data) =>
      if !s.attached then Written(c, s, true)
      else WriteWhole(c, s.(conn := s.conn.(header := s.conn.header["Content-Type" := JSON_TYPE])), data, env.net)
  }

  function WriteStreaming(c: Ctx, s: Stream, code: StreamCode, net: Network): Written {
    var step := AfterStreamWriteHeader(s, c.status);
    if step.panicked then Written(c, step.stream, true)
    else
      var run := AfterCalls(step.stream, code.calls, net);
      Written(c.(open := false), run.stream, run.panicked || code.ending != ReturnsNil)
  }

  function CommitTakeover(c: Ctx, s: Stream, code: HijackCode, net: Network): Written {
    var hijack := AfterStreamHijack(s, net);
    if !hijack.ok then WriteEmpty500(c, hijack.stream)
    else
      var conn := hijack.stream.conn;
      Written(c.(open := false, body := Nothing), hijack.stream.(conn := conn.(closes := conn.closes + 1)),
              code.ending.Panics?)
  }

  /** `writeResponse`; `panicked` covers http.ErrAbortHandler and panics of a body alike. */
  function Commit(c: Ctx, s: Stream, env: Env): Written {
    if !c.open then Written(c, s, false)
    else
      var c := c.(ticket := c.ticket + 1);
      if c.json then WriteJson(c, s, env)
      else
        match c.body
        case Nothing =>
          if c.status == 0 then WriteEmpty500(c, s)
          else var step := AfterStreamWriteHeader(s, c.status); Written(c, step.stream, step.panicked)
        case Raw(bytes) => WriteWhole(c, s, bytes, env.net)
        case Text(text) => WriteWhole(c, s, text, env.net)
        case Streaming(code) => WriteStreaming(c, s, code, env.net)
        case Takeover(code) => CommitTakeover(c, s, code, env.net)
        case Other(_) => WriteEmpty500(c, s)
  }

  // ---------- the code ----------

  /** Runs the calls of a stream body on the writer it was given. */
  method RunCalls(writer: StreamWriter, calls: seq<StreamCall>, under: ResponseWriter) returns (panicked: bool)
    requires writer.writer == null || writer.writer == under
    modifies writer, under
    ensures writer.writer == null || writer.writer == under
    ensures StreamStep(writer.View(under), panicked) == AfterCalls(old(writer.View(under)), calls, under.net)
  {
    panicked := false;
    var i := 0;
    while i < |calls|
      invariant 0 <= i <= |calls| && !panicked
      invariant writer.writer == null || writer.writer == under
      invariant AfterCalls(writer.View(under), calls[i..], under.net)
             == AfterCalls(old(writer.View(under)), calls, under.net)
    {
      assert calls[i..][1..] == calls[i + 1..];
      match calls[i].op {
        case WriteHeader(code) => panicked := writer.WriteHeader(code, under);
        case Write(data) => var failed; failed, panicked := writer.Write(data, under);
        case TakeOver => var ok := writer.Hijack(under);
      }
      if panicked && !calls[i].recovers {
        return;
      }
      panicked := false;
      i := i + 1;
    }
  }

  method AnswerEmpty500(writer: StreamWriter, under: ResponseWriter) returns (panicked: bool)
    requires writer.writer == under
    modifies writer, under
    ensures writer.writer == under
    ensures forall c :: Written(c, writer.View(under), panicked) == WriteEmpty500(c, old(writer.View(under)))
  {
    under.SetHeaders(map[]);
    panicked := writer.WriteHeader(500, under);
  }

  method AnswerWhole(writer: StreamWriter, status: int, data: Bytes, under: ResponseWriter) returns (panicked: bool)
    requires writer.writer == under
    modifies writer, under
    ensures writer.writer == under
    ensures forall c: Ctx :: c.status == status ==>
              Written(c, writer.View(under), panicked) == WriteWhole(c, old(writer.View(under)), data, under.net)
  {
    panicked := writer.WriteHeader(status, under);
    if !panicked {
      var failed;
      failed, panicked := writer.Write(data, under);
      panicked := panicked || failed;
    }
  }

  method WriteResponse(c: Context, writer: StreamWriter, under: ResponseWriter, env: Env) returns (panicked: bool)
    requires c.writer == null || c.writer == writer
    requires writer.writer == under && under.net == env.net
    modifies c, writer, under
    ensures writer.writer == null || writer.writer == under
    ensures Written(c.View(), writer.View(under), panicked) == Commit(old(c.View()), old(writer.View(under)), env)
  {
    if c.writer == null {
      return false;
    }
    c.ticket := c.ticket + 1;
    if c.marshaller == Context.MARSHALLER_IS_JSON {
      match env.marshal(c.body) {
        case MarshalPanics =>
          panicked := true;
        case Unsupported =>
          panicked := AnswerEmpty500(writer, under);
        case Encoded(data) =>
          under.SetHeaders(under.conn.header["Content-Type" := JSON_TYPE]);
          panicked := AnswerWhole(writer, c.status, data, under);
      }
      return;
    }
    match c.body {
      case Nothing =>
        if c.status == 0 {
          panicked := AnswerEmpty500(writer, under);
        } else {
          panicked := writer.WriteHeader(c.status, under);
        }
      case Raw(bytes) =>
        panicked := AnswerWhole(writer, c.status, bytes, under);
      case Text(text) =>
        panicked := AnswerWhole(writer, c.status, text, under);
      case Streaming(code) =>
        panicked := writer.WriteHeader(c.status, under);
        if !panicked {
          c.writer := null;
          panicked := RunCalls(writer, code.calls, under);
          panicked := panicked || code.ending != ReturnsNil;
        }
      case Takeover(code) =>
        var ok := writer.Hijack(under);
        if !ok {
          panicked := AnswerEmpty500(writer, under);
        } else {
          c.writer, c.body := null, Nothing;
          panicked := code.ending.Panics?;
          under.Close();
        }
      case Other(_) =>
        panicked := AnswerEmpty500(writer, under);
    }
  }

  // ---------- what a commit does ----------

  /** Nothing was sent, nothing was taken over. */
  ghost predicate Untouched(s: Stream) {
    && Undecided(s)
    && s.bytesWritten == 0
    && s.conn.informational == []
    && s.conn.closes == 0
  }

  /** One final status between 200 and 599 went out, the framework kept the connection. */
  ghost predicate Responded(s: Stream) {
    s.attached && !s.conn.hijacked && ValidStatus(s.conn.final) && Accurate(s) && s.conn.closes == 0
  }

  /** The connection was taken over without a response, and the framework closed it once. */
  ghost predicate TakenOver(s: Stream) {
    !s.attached && s.conn.hijacked && s.status == 0 && s.conn.final == 0 && s.conn.accepted == [] && s.conn.closes == 1
  }

  /** A stream body took the connection over after its response status was sent; closing it is its business. */
  ghost predicate TakenMidStream(s: Stream) {
    !s.attached && s.conn.hijacked && ValidStatus(s.conn.final) && Accurate(s) && s.conn.closes == 0
  }

  /** Whether the pending state is a stream body that calls `StreamWriter.Hijack` at all. */
  predicate StreamMayTakeOver(c: Ctx) {
    !c.json && c.body.Streaming? && exists k :: 0 <= k < |c.body.stream.calls| && c.body.stream.calls[k].op.TakeOver?
  }

  predicate MarshallingPanics(c: Ctx, env: Env) {
    c.json && env.marshal(c.body).MarshalPanics?
  }

  /**
   A commit ends in a response or a takeover, unless marshalling panics: then the panic passes on before
   anything is sent.
   */
  lemma CommitOutcome(c: Ctx, s: Stream, env: Env)
    requires Reachable(c) && Untouched(s)
    ensures
      var w := Commit(c, s, env);
      && (if MarshallingPanics(c, env) then w.panicked && w.out == s
          else Responded(w.out) || TakenOver(w.out) || TakenMidStream(w.out))
      && (TakenOver(w.out) ==> c.status == 0)
      && (TakenMidStream(w.out) ==> StreamMayTakeOver(c))
  {
    if c.body.Streaming? && !c.json {
      CommittedThroughCalls(AfterStreamWriteHeader(s, c.status).stream, c.body.stream.calls, env.net);
    }
  }

  /** The bytes a plain or JSON response should send, if its value can be marshalled. */
  function Payload(c: Ctx, env: Env): Marshalled {
    if c.json then env.marshal(c.body)
    else
      match c.body
      case Raw(bytes) => Encoded(bytes)
      case Text(text) => Encoded(text)
      case _ => Encoded([])
  }

  ghost predicate NetworkRefuses(s: Stream, length: nat, net: Network) {
    var answer := net(s.conn.answered);
    !answer.ok || answer.count < length
  }

  /** The connection carries an empty 500 and nothing else. */
  ghost predicate Empty500(s: Stream) {
    Responded(s) && s.conn.final == 500 && s.conn.sent == map[] && s.conn.accepted == []
  }

  /**
   What goes on the wire is the pending response: its status, its headers and its whole body.
   A value that cannot be marshalled becomes an empty 500 instead, and a panic while marshalling passes on with
   nothing sent. Otherwise the write panics exactly when the network refuses part of a body, and then the
   accepted bytes are a prefix of that body.
   */
  lemma CommitSendsPendingResponse(c: Ctx, s: Stream, env: Env)
    requires Reachable(c) && Untouched(s)
    requires c.status != 0 && !(c.body.Streaming? && !c.json)
    ensures
      var w, payload := Commit(c, s, env), Payload(c, env);
      if payload.MarshalPanics? then w.panicked && w.out == s
      else if payload.Unsupported? then !w.panicked && Empty500(w.out)
      else
        var hasBody := c.json || c.body != Nothing;
        && Responded(w.out)
        && w.out.conn.final == c.status
        && w.out.conn.sent == (if c.json then s.conn.header["Content-Type" := ["application/json; charset=utf-8"]]
                              else s.conn.header)
        && (w.panicked <==> hasBody && NetworkRefuses(s, |payload.data|, env.net))
        && w.out.conn.accepted <= payload.data
        && (!w.panicked ==> w.out.conn.accepted == payload.data)
  {
  }

  /**
   A stream body runs after its status and headers went out, and its errors cannot change either. Of each of its
   writes the client gets what the network takes, and the write panics exactly when the body does not return nil, or
   dies on a call without the connection it took over.
   */
  lemma CommitStreams(c: Ctx, s: Stream, env: Env)
    requires Reachable(c) && Untouched(s)
    requires c.body.Streaming? && !c.json
    ensures
      var w, calls := Commit(c, s, env), c.body.stream.calls;
      && w.out.conn.final == c.status
      && w.out.conn.sent == s.conn.header
      && !w.ctx.open
      && w.out.conn.accepted == Taken(calls, env.net, s.conn.answered)
      && (w.panicked <==> c.body.stream.ending != ReturnsNil || DiesDetached(calls, env.net, s.conn.answered))
  {
    var started := AfterStreamWriteHeader(s, c.status).stream;
    CommittedThroughCalls(started, c.body.stream.calls, env.net);
    CallsReachTheClient(started, c.body.stream.calls, env.net);
  }

  /**
   A pending takeover is committed when the connection allows it: no byte of a response is written,
   the connection is closed once however the body ends, and only a panic of the body is passed on.
   A missing response and a refused takeover both become an empty 500.
   */
  lemma CommitWithoutResponse(c: Ctx, s: Stream, env: Env)
    requires Reachable(c) && Untouched(s)
    requires c.status == 0
    ensures
      var w := Commit(c, s, env);
      if c.body.Takeover? && env.net(s.conn.answered).ok then
        TakenOver(w.out) && !w.ctx.open && w.ctx.body == Nothing && (w.panicked <==> c.body.hijack.ending.Panics?)
      else !w.panicked && Empty500(w.out)
  {
  }

  /** Committing kills every handle, and a cleared Context writes nothing a second time. */
  lemma CommitIsFinal(c: Ctx, s: Stream, env: Env, r: Response)
    requires c.open && Issued(c, r)
    ensures
      var w := Commit(c, s, env);
      && !Live(w.ctx, r)
      && w.ctx.status == c.status && w.ctx.json == c.json && w.ctx.ticket == c.ticket + 1
      && (!w.ctx.open ==> Commit(w.ctx, w.out, env) == Written(w.ctx, w.out, false))
  {
  }
}
