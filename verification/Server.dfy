/**
 server.go: one request from the connection to its outcome, with panic recovery at the boundary.
 */
module Servers {
  import opened Wire
  import opened StreamWriters
  import opened Contexts
  import opened ResponseWrites
  import opened Routers

  datatype Served = Served(state: State, aborted: bool)

  function Start(conn: Conn): State {
    State(FRESH_CTX, Stream(true, 0, 0, conn), map[], [], 0)
  }

  /** The function `Router.Handle` registers: run the chain, then commit. */
  function HandleRequest(mws: seq<Middleware>, handler: Handler, st: State, env: Env): Ran {
    var chain := Dispatch(mws, handler, 0, st, env);
    if chain.panicked then chain
    else
      var w := Commit(chain.state.ctx, chain.state.out, env);
      Ran(chain.state.(ctx := w.ctx, out := w.out), w.panicked)
  }

  /** `ServeHTTP`; `aborted` is the panic with http.ErrAbortHandler that closes the connection. */
  function Serve(mws: seq<Middleware>, handler: Handler, conn: Conn, env: Env): Served {
    var r := HandleRequest(mws, handler, Start(conn), env);
    if !r.panicked then Served(r.state, false)
    else if r.state.out.attached && r.state.out.status == 0 then
      var step := AfterStreamWriteHeader(WithHeader(r.state, map[]).out, 500);
      Served(r.state.(out := step.stream), step.panicked)
    else Served(r.state, true)
  }

  /** Nothing of this request is on the connection yet; headers may already be set. */
  ghost predicate Idle(conn: Conn) {
    Untouched(Start(conn).out)
  }

  method ServeHTTP(mws: seq<Middleware>, handler: Handler, under: ResponseWriter, env: Env)
    returns (ghost ended: State, aborted: bool)
    requires under.net == env.net
    modifies under
    ensures Served(ended, aborted) == Serve(mws, handler, old(under.conn), env)
    ensures ended.out.conn == under.conn
  {
    var writer := new StreamWriter(under);
    var ctx := new Context(writer);
    var call := new RouteCall(mws, handler, env, ctx, writer, under);
    assert call.View() == Start(under.conn);
    var panicked := call.Dispatcher(0);
    if !panicked {
      panicked := WriteResponse(ctx, writer, under, env);
    }
    aborted := false;
    if panicked {
      if writer.writer != null && writer.status == 0 {
        under.SetHeaders(map[]);
        aborted := writer.WriteHeader(500, under);
      } else {
        aborted := true;
      }
    }
    ended := call.View();
  }

  // ---------- what user code can do before the commit ----------

  ghost predicate UserInvariant(st: State) {
    Reachable(st.ctx) && forall slot :: slot in st.slots ==> Issued(st.ctx, st.slots[slot])
  }

  /** The headers are the only thing that differs: nothing was sent, recorded, or taken over. */
  ghost predicate SameWire(before: Stream, after: Stream) {
    after == before.(conn := before.conn.(header := after.conn.header))
  }

  lemma ActionStaysOffTheWire(action: Action, st: State)
    requires UserInvariant(st)
    ensures
      var r := Perform(action, st);
      UserInvariant(r.state) && SameWire(st.out, r.state.out)
  {
  }

  /**
   Whatever a middleware or handler does, and however often the chain is entered, nothing reaches
   the connection, and the Context stays in a state `writeResponse` can commit.
   */
  lemma {:induction false} UserCodeStaysOffTheWire(
      mws: seq<Middleware>, handler: Handler, p: Prog, next: Option<nat>, st: State, env: Env)
    requires next.Some? ==> next.value <= |mws|
    requires next.None? ==> NoNext(p)
    requires UserInvariant(st)
    ensures
      var r := Run(mws, handler, p, next, st, env);
      UserInvariant(r.state) && SameWire(st.out, r.state.out)
    decreases if next.Some? then |mws| + 1 - next.value else 0, 1, p
  {
    match p
    case Do(action) =>
      ActionStaysOffTheWire(action, st);
    case Seq(first, second) =>
      UserCodeStaysOffTheWire(mws, handler, first, next, st, env);
      UserCodeStaysOffTheWire(mws, handler, second, next, Run(mws, handler, first, next, st, env).state, env);
    case Choose(left, right) =>
      var chosen := if env.user(st.choices) then left else right;
      UserCodeStaysOffTheWire(mws, handler, chosen, next, st.(choices := st.choices + 1), env);
    case Recover(body) =>
      UserCodeStaysOffTheWire(mws, handler, body, next, st, env);
    case Next =>
      ChainStaysOffTheWire(mws, handler, next.value, st, env);
    case _ =>
  }

  lemma {:induction false} ChainStaysOffTheWire(mws: seq<Middleware>, handler: Handler, i: nat, st: State, env: Env)
    requires i <= |mws|
    requires UserInvariant(st)
    ensures
      var r := Dispatch(mws, handler, i, st, env);
      UserInvariant(r.state) && SameWire(st.out, r.state.out)
    decreases |mws| + 1 - i, 0
  {
    if i < |mws| {
      UserCodeStaysOffTheWire(mws, handler, mws[i], Some(i + 1), st, env);
    } else {
      UserCodeStaysOffTheWire(mws, handler, handler, None, st, env);
    }
  }

  // ---------- the outcome of one request ----------

  /** The state in which the chain left the request, before anything is committed. */
  function AfterChain(mws: seq<Middleware>, handler: Handler, conn: Conn, env: Env): Ran {
    Dispatch(mws, handler, 0, Start(conn), env)
  }

  predicate ExactlyOne(a: bool, b: bool, c: bool, d: bool) {
    (if a then 1 else 0) + (if b then 1 else 0) + (if c then 1 else 0) + (if d then 1 else 0) == 1
  }

  /**
   Every request ends in exactly one way: a response and a normal return; a takeover closed once;
   an abort, only after a status was sent or the connection was taken; or, when the committed stream
   body itself calls `StreamWriter.Hijack`, a response whose connection that body then took.
   */
  lemma RequestEndsInOneWay(mws: seq<Middleware>, handler: Handler, conn: Conn, env: Env)
    requires Idle(conn)
    ensures
      var served := Serve(mws, handler, conn, env);
      var out := served.state.out;
      && ExactlyOne(!served.aborted && Responded(out),
                    !served.aborted && TakenOver(out),
                    !served.aborted && TakenMidStream(out),
                    served.aborted && (Responded(out) || TakenOver(out) || TakenMidStream(out)))
      && (TakenMidStream(out) ==> StreamMayTakeOver(AfterChain(mws, handler, conn, env).state.ctx))
  {
    var st := Start(conn);
    ChainStaysOffTheWire(mws, handler, 0, st, env);
    var chain := AfterChain(mws, handler, conn, env);
    if !chain.panicked {
      CommitOutcome(chain.state.ctx, chain.state.out, env);
    }
  }

  /** A panic the chain lets out becomes an empty 500, whatever response or takeover was pending. */
  lemma PanicBecomesEmpty500(mws: seq<Middleware>, handler: Handler, conn: Conn, env: Env)
    requires Idle(conn)
    requires AfterChain(mws, handler, conn, env).panicked
    ensures
      var served := Serve(mws, handler, conn, env);
      !served.aborted && Empty500(served.state.out)
  {
    ChainStaysOffTheWire(mws, handler, 0, Start(conn), env);
  }

  /**
   When the chain returns with a plain or JSON response pending, that response is what the client gets:
   status, headers as they stood when the chain returned, and body. The request is aborted exactly when
   the network refused part of the body. A value that cannot be marshalled, or panics while it is, becomes an
   empty 500.
   */
  lemma PendingResponseIsDelivered(mws: seq<Middleware>, handler: Handler, conn: Conn, env: Env)
    requires Idle(conn)
    requires
      var chain := AfterChain(mws, handler, conn, env);
      !chain.panicked && chain.state.ctx.status != 0 && !(chain.state.ctx.body.Streaming? && !chain.state.ctx.json)
    ensures
      var served, pending := Serve(mws, handler, conn, env), AfterChain(mws, handler, conn, env).state;
      var out, payload := served.state.out, Payload(pending.ctx, env);
      if !payload.Encoded? then !served.aborted && Empty500(out)
      else
        var hasBody := pending.ctx.json || pending.ctx.body != Nothing;
        var header := pending.out.conn.header;
        && out.conn.final == pending.ctx.status
        && out.conn.sent == (if pending.ctx.json then header["Content-Type" := ["application/json; charset=utf-8"]] else header)
        && out.conn.accepted <= payload.data
        && (served.aborted <==> hasBody && NetworkRefuses(pending.out, |payload.data|, env.net))
        && (!served.aborted ==> out.conn.accepted == payload.data)
  {
    var st := Start(conn);
    ChainStaysOffTheWire(mws, handler, 0, st, env);
    var chain := AfterChain(mws, handler, conn, env);
    CommitSendsPendingResponse(chain.state.ctx, chain.state.out, env);
  }

  /**
   When the chain returns without a response, a pending takeover is committed if the connection allows it,
   and its connection closed once even when its body panics, which aborts the request; otherwise the
   client gets an empty 500.
   */
  lemma NoResponseIsTakeoverOrEmpty500(mws: seq<Middleware>, handler: Handler, conn: Conn, env: Env)
    requires Idle(conn)
    requires
      var chain := AfterChain(mws, handler, conn, env);
      !chain.panicked && chain.state.ctx.status == 0
    ensures
      var served, pending := Serve(mws, handler, conn, env), AfterChain(mws, handler, conn, env).state;
      if pending.ctx.body.Takeover? && env.net(conn.answered).ok then
        TakenOver(served.state.out) && (served.aborted <==> pending.ctx.body.hijack.ending.Panics?)
      else !served.aborted && Empty500(served.state.out)
  {
    ChainStaysOffTheWire(mws, handler, 0, Start(conn), env);
    var chain := AfterChain(mws, handler, conn, env);
    CommitWithoutResponse(chain.state.ctx, chain.state.out, env);
  }

  /**
   A stream body cannot change the status or the headers; the client gets of each of its writes what the network
   takes, and the request is aborted exactly when the body does not return nil or dies on a call after a takeover.
   */
  lemma StreamIsDelivered(mws: seq<Middleware>, handler: Handler, conn: Conn, env: Env)
    requires Idle(conn)
    requires
      var chain := AfterChain(mws, handler, conn, env);
      !chain.panicked && chain.state.ctx.body.Streaming? && !chain.state.ctx.json
    ensures
      var served, pending := Serve(mws, handler, conn, env), AfterChain(mws, handler, conn, env).state;
      var StreamCode(calls, ending) := pending.ctx.body.stream;
      && served.state.out.conn.final == pending.ctx.status
      && served.state.out.conn.sent == pending.out.conn.header
      && served.state.out.conn.accepted == Taken(calls, env.net, conn.answered)
      && (served.aborted <==> ending != ReturnsNil || DiesDetached(calls, env.net, conn.answered))
  {
    ChainStaysOffTheWire(mws, handler, 0, Start(conn), env);
    var chain := AfterChain(mws, handler, conn, env);
    CommitStreams(chain.state.ctx, chain.state.out, env);
    CommitOutcome(chain.state.ctx, chain.state.out, env);
  }

  /** On a network that takes every write, a body that keeps its connection reaches the client whole. */
  lemma WholeStreamIsDelivered(mws: seq<Middleware>, handler: Handler, conn: Conn, env: Env)
    requires Idle(conn)
    requires
      var chain := AfterChain(mws, handler, conn, env);
      !chain.panicked && chain.state.ctx.body.Streaming? && !chain.state.ctx.json
    requires
      var calls := AfterChain(mws, handler, conn, env).state.ctx.body.stream.calls;
      && NoTakeOver(calls)
      && forall k, m: nat :: 0 <= k < |calls| && calls[k].op.Write? ==> |calls[k].op.data| <= env.net(m).count
    ensures
      var served, code := Serve(mws, handler, conn, env), AfterChain(mws, handler, conn, env).state.ctx.body.stream;
      && served.state.out.conn.accepted == Payloads(code.calls)
      && (served.aborted <==> code.ending != ReturnsNil)
  {
    StreamIsDelivered(mws, handler, conn, env);
    EverythingIsTaken(AfterChain(mws, handler, conn, env).state.ctx.body.stream.calls, env.net, conn.answered);
  }
}
