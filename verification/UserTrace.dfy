/**
 User code on its Context, from the calls it makes to what the client receives: a handler's calls against the
 ticket-free specification of ContextTraces, with handles kept in variables, and the response that goes out.
 */
module UserTraces {
  import opened Wire
  import opened StreamWriters
  import opened Contexts
  import opened ResponseWrites
  import opened Routers
  import opened Servers
  import ContextTraces

  /** Whether the action stores a handle in the variable. */
  predicate Assigns(action: Action, slot: nat) {
    match action
    case NewResponse(status, kept) => 200 <= status <= 599 && kept == slot
    case GetResponse(kept) => kept == slot
    case _ => false
  }

  /** The action that last stored a handle in the variable before `n`; `n` if there is none. */
  function HolderOf(actions: seq<Action>, n: nat, slot: nat): (k: nat)
    requires n <= |actions|
    ensures k <= n
    ensures k < n ==> Assigns(actions[k], slot)
    ensures forall j :: (if k < n then k else -1) < j < n ==> !Assigns(actions[j], slot)
  {
    if n == 0 then 0
    else if Assigns(actions[n - 1], slot) then n - 1
    else
      var k := HolderOf(actions, n - 1, slot);
      if k == n - 1 then n else k
  }

  /** The call an action makes, with its handle named by the call that returned it; a mark asks for nothing. */
  function CallAt(actions: seq<Action>, n: nat): ContextTraces.Call
    requires n < |actions|
  {
    match actions[n]
    case Mark(_) => ContextTraces.GetResponse
    case NewResponse(status, _) => ContextTraces.NewResponse(status)
    case GetResponse(_) => ContextTraces.GetResponse
    case Hijack(takeover) => ContextTraces.Hijack(takeover)
    case SetBody(slot, setter) => ContextTraces.Set(HolderOf(actions, n, slot), setter)
    case Cookie(slot, cookie) => ContextTraces.Cookie(HolderOf(actions, n, slot), cookie)
    case SetHeader(slot, key, value) => ContextTraces.SetHeader(HolderOf(actions, n, slot), key, value)
  }

  function CallsOf(actions: seq<Action>): (calls: seq<ContextTraces.Call>)
    ensures |calls| == |actions|
  {
    seq(|actions|, n requires 0 <= n < |actions| => CallAt(actions, n))
  }

  /** The marks among the first `n` actions, in order. */
  function MarksOf(actions: seq<Action>, n: nat): seq<nat>
    requires n <= |actions|
  {
    if n == 0 then [] else MarksOf(actions, n - 1) + if actions[n - 1].Mark? then [actions[n - 1].id] else []
  }

  /** The first `n` actions one after the other, each recovered from. */
  function Performed(actions: seq<Action>, n: nat, st: State): State
    requires n <= |actions|
  {
    if n == 0 then st else Perform(actions[n - 1], Performed(actions, n - 1, st)).state
  }

  /** A user state that the first calls of a trace lead to. */
  ghost predicate Follows(st: State, actions: seq<Action>, n: nat, conn: Conn)
    requires n <= |actions|
  {
    var p := ContextTraces.Play(CallsOf(actions), n);
    && st.ctx == p.ctx
    && st.out == Start(conn.(header := p.header)).out
    && |p.handles| == n
    && (forall slot :: SlotAt(st.slots, slot) == ContextTraces.HandleAt(p.handles, HolderOf(actions, n, slot)))
    && st.marks == MarksOf(actions, n)
  }

  lemma OneMoreCall(actions: seq<Action>, n: nat)
    requires n < |actions|
    ensures ContextTraces.Play(CallsOf(actions), n + 1)
         == ContextTraces.AfterCall(ContextTraces.Play(CallsOf(actions), n), CallAt(actions, n))
  {
  }

  /** One action does to the Context and the headers what its call does, and panics as its call does. */
  lemma ActionIsItsCall(action: Action, st: State, p: ContextTraces.Played, call: ContextTraces.Call, conn: Conn)
    requires st.ctx == p.ctx && st.out == Start(conn.(header := p.header)).out
    requires
      match action
      case Mark(_) => call == ContextTraces.GetResponse
      case NewResponse(status, _) => call == ContextTraces.NewResponse(status)
      case GetResponse(_) => call == ContextTraces.GetResponse
      case Hijack(takeover) => call == ContextTraces.Hijack(takeover)
      case SetBody(slot, setter) =>
        call.Set? && call.setter == setter && SlotAt(st.slots, slot) == ContextTraces.HandleAt(p.handles, call.from)
      case Cookie(slot, cookie) =>
        call.Cookie? && call.cookie == cookie && SlotAt(st.slots, slot) == ContextTraces.HandleAt(p.handles, call.from)
      case SetHeader(slot, key, value) =>
        && call.SetHeader? && call.key == key && call.value == value
        && SlotAt(st.slots, slot) == ContextTraces.HandleAt(p.handles, call.from)
    ensures
      var r, after := Perform(action, st), ContextTraces.AfterCall(p, call);
      && r.state.ctx == after.ctx
      && r.state.out == Start(conn.(header := after.header)).out
      && r.panicked == ContextTraces.Panicked(p, call)
      && r.state.marks == st.marks + (if action.Mark? then [action.id] else [])
      && forall slot :: SlotAt(r.state.slots, slot) ==
           if Assigns(action, slot) then ContextTraces.Returned(p.ctx, call) else SlotAt(st.slots, slot)
  {
  }

  lemma HandlesStay(actions: seq<Action>, n: nat, slot: nat)
    requires n < |actions|
    ensures
      var before, after := ContextTraces.Play(CallsOf(actions), n), ContextTraces.Play(CallsOf(actions), n + 1);
      && |before.handles| == n && |after.handles| == n + 1
      && ContextTraces.HandleAt(after.handles, HolderOf(actions, n + 1, slot)) ==
         if Assigns(actions[n], slot) then ContextTraces.Returned(before.ctx, CallAt(actions, n))
         else ContextTraces.HandleAt(before.handles, HolderOf(actions, n, slot))
  {
    ContextTraces.TicketsCountResets(CallsOf(actions), n);
    OneMoreCall(actions, n);
  }

  lemma ActionFollows(st: State, actions: seq<Action>, n: nat, conn: Conn)
    requires n < |actions| && Follows(st, actions, n, conn)
    ensures Follows(Perform(actions[n], st).state, actions, n + 1, conn)
    ensures Perform(actions[n], st).panicked == ContextTraces.Panicked(ContextTraces.Play(CallsOf(actions), n), CallAt(actions, n))
  {
    OneMoreCall(actions, n);
    ActionIsItsCall(actions[n], st, ContextTraces.Play(CallsOf(actions), n), CallAt(actions, n), conn);
    ContextTraces.TicketsCountResets(CallsOf(actions), n + 1);
    forall slot {
      HandlesStay(actions, n, slot);
    }
  }

  /** Whatever calls a handler makes, its Context, headers, variables and marks are those of the call trace. */
  lemma {:induction false} ActionsFollowTrace(actions: seq<Action>, n: nat, conn: Conn)
    requires n <= |actions| && conn.header == map[]
    ensures Follows(Performed(actions, n, Start(conn)), actions, n, conn)
  {
    if n > 0 {
      ActionsFollowTrace(actions, n - 1, conn);
      ActionFollows(Performed(actions, n - 1, Start(conn)), actions, n - 1, conn);
    } else {
      assert Start(conn).out == Start(conn.(header := map[])).out;
    }
  }

  // ---------- from the calls to the client ----------

  /** A handler that makes the calls one after the other, whichever of them panic. */
  function Line(actions: seq<Action>, n: nat): (p: Handler)
    requires n <= |actions|
  {
    if n == 0 then Skip
    else
      var before, last := Line(actions, n - 1), Recover(Do(actions[n - 1]));
      assert NoNext(before) && NoNext(last);
      Seq(before, last)
  }

  lemma {:induction false} LineRuns(actions: seq<Action>, n: nat, st: State, env: Env)
    requires n <= |actions|
    ensures RunAlone(Line(actions, n), st, env) == Ran(Performed(actions, n, st), false)
  {
    if n > 0 {
      LineRuns(actions, n - 1, st, env);
      var p := Line(actions, n);
      assert p.Seq? && p.first == Line(actions, n - 1) && p.second == Recover(Do(actions[n - 1]));
      var before := Performed(actions, n - 1, st);
      assert Run([], Skip, Do(actions[n - 1]), None, before, env) == Perform(actions[n - 1], before);
      assert RunAlone(p.second, before, env) == Ran(Perform(actions[n - 1], before).state, false);
    }
  }

  /** `p`, then a panic in front of `q`, recovered; then `r`. */
  function Recovering(p: Handler, q: Handler, r: Handler): (skipped: Handler) {
    var panics := Seq(Panic, q);
    assert NoNext(panics);
    var body := Seq(p, panics);
    assert NoNext(body);
    var recovered := Recover(body);
    assert NoNext(recovered);
    Seq(recovered, r)
  }

  /** A panic skips the rest up to the recover around it, which goes on from there. */
  lemma PanicSkipsToTheRecover(p: Handler, q: Handler, r: Handler, st: State, env: Env)
    ensures RunAlone(Recovering(p, q, r), st, env) == RunAlone(r, RunAlone(p, st, env).state, env)
  {
    var entered := RunAlone(p, st, env);
    var skipped := Recovering(p, q, r);
    assert Run([], Skip, Panic, None, entered.state, env) == Ran(entered.state, true);
    assert Run([], Skip, Seq(Panic, q), None, entered.state, env) == Ran(entered.state, true);
    assert Run([], Skip, Seq(p, Seq(Panic, q)), None, st, env) == Ran(entered.state, true);
    assert Run([], Skip, skipped.first, None, st, env) == Ran(entered.state, false);
  }

  /** The bytes of a pending body that is neither streamed nor a takeover. */
  function BytesOf(pending: ContextTraces.Pending, env: Env): Marshalled {
    if pending.json then env.marshal(pending.body)
    else if pending.body.Raw? then Encoded(pending.body.bytes)
    else if pending.body.Text? then Encoded(pending.body.text)
    else Encoded([])
  }

  /** When the handler returns, what is pending is what its calls say. */
  lemma HandlerLeavesItsTrace(actions: seq<Action>, conn: Conn, env: Env)
    requires conn.header == map[]
    ensures
      var calls, chain := CallsOf(actions), AfterChain([], Line(actions, |actions|), conn, env);
      var c := chain.state.ctx;
      && !chain.panicked
      && chain.state.marks == MarksOf(actions, |actions|)
      && ContextTraces.Pending(c.status, c.body, c.json) == ContextTraces.ExpectedPending(calls, |calls|)
      && (forall key :: ContextTraces.HeaderAt(chain.state.out.conn.header, key)
                     == ContextTraces.ExpectedHeader(calls, |calls|, key))
      && chain.state.out.conn == conn.(header := chain.state.out.conn.header)
  {
    var handler := Line(actions, |actions|);
    NoNextRunsAlone([], handler, handler, None, Start(conn), env);
    LineRuns(actions, |actions|, Start(conn), env);
    ActionsFollowTrace(actions, |actions|, conn);
    ContextTraces.ContextFollowsTrace(CallsOf(actions), |actions|);
  }

  /**
   A handler is answered as its calls say, read without tickets or handles: the pending response of the trace is the
   status, the headers and the body that go out; a stream is the writes the network takes; a body that cannot be
   marshalled, and no response at all, is an empty 500 unless a takeover is pending and granted.
   */
  lemma CallsBecomeTheResponse(actions: seq<Action>, conn: Conn, env: Env)
    requires Idle(conn) && conn.header == map[]
    ensures
      var calls := CallsOf(actions);
      var pending := ContextTraces.ExpectedPending(calls, |calls|);
      var served := Serve([], Line(actions, |actions|), conn, env);
      var out := served.state.out;
      && served.state.marks == MarksOf(actions, |actions|)
      && if pending.status == 0 then
           if pending.body.Takeover? && env.net(conn.answered).ok then TakenOver(out)
           else !served.aborted && Empty500(out)
         else if !BytesOf(pending, env).Encoded? then !served.aborted && Empty500(out)
         else
           && out.conn.final == pending.status
           && (forall key :: ContextTraces.HeaderAt(out.conn.sent, key) ==
                 if pending.json && key == "Content-Type" then Some(["application/json; charset=utf-8"])
                 else ContextTraces.ExpectedHeader(calls, |calls|, key))
           && if pending.body.Streaming? && !pending.json then
                out.conn.accepted == Taken(pending.body.stream.calls, env.net, conn.answered)
              else
                && out.conn.accepted <= BytesOf(pending, env).data
                && (!served.aborted ==> out.conn.accepted == BytesOf(pending, env).data)
  {
    var handler := Line(actions, |actions|);
    var chain := AfterChain([], handler, conn, env);
    HandlerLeavesItsTrace(actions, conn, env);
    assert Serve([], handler, conn, env).state.marks == chain.state.marks;
    if chain.state.ctx.status == 0 {
      NoResponseIsTakeoverOrEmpty500([], handler, conn, env);
    } else if chain.state.ctx.body.Streaming? && !chain.state.ctx.json {
      StreamIsDelivered([], handler, conn, env);
    } else {
      PendingResponseIsDelivered([], handler, conn, env);
    }
  }
}
