/**
 request.go: the shared path of RequestParser and MiddlewareParser, from defaults to the typed handler.
 */
module RequestHandlers {
  import opened Wire
  import opened StreamWriters
  import opened Contexts
  import opened ResponseWrites
  import opened Routers
  import opened Servers
  import RequestTags
  import TagTheorems
  import opened Binding

  /** What the stages before the typed handler come to: run it, answer an error, or pass a panic on. */
  datatype Verdict = Proceed | Fail(status: int) | Raise

  function VerdictOf(defaultsOk: bool, bound: Bound, valid: bool): Verdict {
    if !defaultsOk then Fail(500)
    else
      match bound
      case Rejected(status) => Fail(status)
      case PanickedBinder => Raise
      case Parsed => if valid then Proceed else Fail(400)
  }

  /** A typed handler as user code of the router; `slot` takes the handle the failure branches discard. */
  function Typed(verdict: Verdict, slot: nat, inner: Prog): Prog {
    match verdict
    case Proceed => inner
    case Fail(status) => Do(NewResponse(status, slot))
    case Raise => Panic
  }

  /** `defaultsOk` and `validate` are the two library calls around the bind. */
  method RunStages(value: RequestValue, request: MatchedRequest, defaultsOk: bool, validate: Record -> bool)
    returns (verdict: Verdict)
    requires value.Consistent()
    modifies value
    ensures verdict == VerdictOf(defaultsOk, Outcome(value.t, value.tags, request, value.lib),
              validate(Sources(value.t, value.tags, request, value.lib, old(value.record), |RequestTags.SOURCES|)))
    ensures verdict == Proceed ==>
              value.record == Sources(value.t, value.tags, request, value.lib, old(value.record), |RequestTags.SOURCES|)
  {
    if !defaultsOk {
      return Fail(500);
    }
    var bound := value.Parse(request);
    match bound {
      case Rejected(status) => return Fail(status);
      case PanickedBinder => return Raise;
      case Parsed => return if validate(value.record) then Proceed else Fail(400);
    }
  }

  /** The branches after the stages, on the Context: an error response, a panic, or the typed handler. */
  method Finish(call: RouteCall, verdict: Verdict, slot: nat, inner: Prog, next: Option<nat>) returns (panicked: bool)
    requires call.Open()
    requires next.Some? ==> next.value <= |call.middlewares|
    requires next.None? ==> NoNext(inner)
    modifies call, call.ctx, call.writer, call.under
    ensures call.Open()
    ensures Ran(call.View(), panicked)
         == Run(call.middlewares, call.handler, Typed(verdict, slot, inner), next, old(call.View()), call.env)
  {
    match verdict {
      case Fail(status) => panicked := call.Act(NewResponse(status, slot));
      case Raise => panicked := true;
      case Proceed => panicked := call.Execute(inner, next);
    }
  }

  /** What one request runs of its handler: `inner` is the typed handler. */
  function RequestProgram(defaultsOk: bool, bound: Bound, valid: bool, slot: nat, inner: Prog): Prog {
    Typed(VerdictOf(defaultsOk, bound, valid), slot, inner)
  }

  /** `requestHandler`: the failure branches leave a response in the Context, success calls next once. */
  method RequestHandler(call: RouteCall, value: RequestValue, request: MatchedRequest, defaultsOk: bool,
                        validate: Record -> bool, slot: nat, inner: Prog, next: Option<nat>)
    returns (panicked: bool)
    requires call.Open() && value.Consistent()
    requires next.Some? ==> next.value <= |call.middlewares|
    requires next.None? ==> NoNext(inner)
    modifies call, call.ctx, call.writer, call.under, value
    ensures call.Open()
    ensures
      var bound := Outcome(value.t, value.tags, request, value.lib);
      var filled := Sources(value.t, value.tags, request, value.lib, old(value.record), |RequestTags.SOURCES|);
      var program := RequestProgram(defaultsOk, bound, validate(filled), slot, inner);
      && Ran(call.View(), panicked) == Run(call.middlewares, call.handler, program, next, old(call.View()), call.env)
      && (defaultsOk && bound == Parsed && validate(filled) ==> value.record == filled)
  {
    var verdict := RunStages(value, request, defaultsOk, validate);
    assert call.View() == old(call.View());
    panicked := Finish(call, verdict, slot, inner, next);
  }

  /** An empty response of the status is pending, without headers and without anything that was pending before. */
  ghost predicate OnlyAnswers(st: State, r: Ran, status: int) {
    && !r.panicked
    && r.state.ctx == Ctx(st.ctx.open, status, Nothing, false, st.ctx.ticket + 1)
    && r.state.out == st.out.(conn := st.out.conn.(header := map[]))
    && r.state.marks == st.marks && r.state.choices == st.choices
  }

  /**
   The typed handler runs, as it would alone, if the defaults apply, the request binds and the value is valid.
   Otherwise it does not run: failed defaults leave an empty 500, a rejected request an empty response of its status,
   an invalid value an empty 400, and a panic while binding is passed on with nothing changed.
   */
  lemma RequestRunsExactly(
      t: RequestTags.GoType, tags: RequestTags.Tags, request: MatchedRequest, lib: Library,
      defaultsOk: bool, valid: bool, slot: nat, inner: Prog,
      mws: seq<Middleware>, handler: Handler, next: Option<nat>, st: State, env: Env)
    requires next.Some? ==> next.value <= |mws|
    requires next.None? ==> NoNext(inner)
    ensures
      var bound := Outcome(t, tags, request, lib);
      var r := Run(mws, handler, RequestProgram(defaultsOk, bound, valid, slot, inner), next, st, env);
      if !defaultsOk then OnlyAnswers(st, r, 500)
      else
        match bound
        case Rejected(status) => OnlyAnswers(st, r, status) && 400 <= status <= 599
        case PanickedBinder => r == Ran(st, true)
        case Parsed => if valid then r == Run(mws, handler, inner, next, st, env) else OnlyAnswers(st, r, 400)
  {
    RejectionsCarryErrorStatus(t, tags, request, lib);
  }

  /** A typed handler that leaves a mark leaves it if and only if every stage before it succeeds. */
  lemma HandlerIsReachedExactly(
      t: RequestTags.GoType, tags: RequestTags.Tags, request: MatchedRequest, lib: Library,
      defaultsOk: bool, valid: bool, slot: nat, id: nat,
      mws: seq<Middleware>, handler: Handler, next: Option<nat>, st: State, env: Env)
    requires next.Some? ==> next.value <= |mws|
    ensures
      var bound := Outcome(t, tags, request, lib);
      var r := Run(mws, handler, RequestProgram(defaultsOk, bound, valid, slot, Do(Mark(id))), next, st, env);
      r.state.marks == if defaultsOk && bound == Parsed && valid then st.marks + [id] else st.marks
  {
    RequestRunsExactly(t, tags, request, lib, defaultsOk, valid, slot, Do(Mark(id)), mws, handler, next, st, env);
  }

  /**
   Behind any middleware, whatever headers, response or takeover it left pending before it called next: as long
   as the ways in do not panic and the ways out leave the pending response alone, a request that cannot be bound
   or validated is answered with an empty response of its error status, and nothing of the earlier headers; a
   panic while binding is answered with an empty 500, whatever the ways out would do.
   */
  lemma BindFailureReachesTheClient(
      t: RequestTags.GoType, tags: RequestTags.Tags, request: MatchedRequest, lib: Library,
      defaultsOk: bool, valid: bool, slot: nat, inner: Handler,
      layers: seq<Layer>, conn: Conn, env: Env)
    requires Idle(conn)
    requires !(defaultsOk && Outcome(t, tags, request, lib) == Parsed && valid)
    requires !RunInLine(Befores(layers), Start(conn), env).panicked
    requires
      var bound := Outcome(t, tags, request, lib);
      !(defaultsOk && bound == PanickedBinder) ==>
        var program: Handler := RequestProgram(defaultsOk, bound, valid, slot, inner);
        var failed := RunInLine(Befores(layers) + [program], Start(conn), env).state;
        var ended := RunInLine(Afters(layers), failed, env);
        !ended.panicked && ended.state.ctx == failed.ctx && ended.state.out == failed.out
    ensures
      var bound := Outcome(t, tags, request, lib);
      var served := Serve(Stack(layers), RequestProgram(defaultsOk, bound, valid, slot, inner), conn, env);
      && !served.aborted
      && served.state.out.conn.accepted == []
      && served.state.out.conn.sent == map[]
      && served.state.out.conn.final ==
         if !defaultsOk then 500
         else
           match bound
           case Rejected(status) => status
           case PanickedBinder => 500
           case Parsed => 400
  {
    var bound := Outcome(t, tags, request, lib);
    var handler: Handler := RequestProgram(defaultsOk, bound, valid, slot, inner);
    var mws, start := Stack(layers), Start(conn);
    var entered := RunInLine(Befores(layers), start, env).state;
    OnionOrder(layers, handler, 0, start, env);
    assert layers[0..] == layers;
    LinesJoin(Befores(layers) + [handler], Afters(layers), start, env);
    LinesJoin(Befores(layers), [handler], start, env);
    OneInLine(handler, entered, env);
    RequestRunsExactly(t, tags, request, lib, defaultsOk, valid, slot, inner, [], Skip, None, entered, env);
    if defaultsOk && bound == PanickedBinder {
      PanicBecomesEmpty500(mws, handler, conn, env);
    } else {
      PendingResponseIsDelivered(mws, handler, conn, env);
    }
  }
}
