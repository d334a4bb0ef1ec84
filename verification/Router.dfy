/**
 router.go: groups of middleware and the recursive dispatcher, run on arbitrary user code.
 */
module Routers {
  import opened Wire
  import opened StreamWriters
  import opened Contexts
  import opened ResponseWrites
  import opened GoSlices

  /**
   One call of user code on its Context. `slot` names a variable in which user code keeps a `Response`;
   variables are shared, so any middleware can use any handle at any time.
   `Mark` is an observable step of user code.
   */
  datatype Action =
    | Mark(id: nat)
    | NewResponse(status: int, slot: nat)
    | GetResponse(slot: nat)
    | Hijack(takeover: Option<HijackCode>)
    | SetBody(slot: nat, setter: Setter)
    | Cookie(slot: nat, cookie: string)
    | SetHeader(slot: nat, key: string, value: string)

  /**
   A middleware or handler. `Choose` stands for every condition user code can test: which side runs is
   arbitrary. `Recover` is a deferred recover around its body.
   */
  datatype Prog =
    | Skip
    | Do(action: Action)
    | Seq(first: Prog, second: Prog)
    | Choose(left: Prog, right: Prog)
    | Recover(body: Prog)
    | Panic
    | Next

  predicate NoNext(p: Prog) {
    match p
    case Next => false
    case Seq(first, second) => NoNext(first) && NoNext(second)
    case Choose(left, right) => NoNext(left) && NoNext(right)
    case Recover(body) => NoNext(body)
    case _ => true
  }

  type Middleware = Prog

  /** A handler receives no `next`. */
  type Handler = p: Prog | NoNext(p) witness Skip

  /** The request as user code finds it: the Context, the wire, its own variables and marks. */
  datatype State = State(ctx: Ctx, out: Stream, slots: map<nat, Response>, marks: seq<nat>, choices: nat)

  const FRESH_STATE := State(FRESH_CTX, FRESH_STREAM, map[], [], 0)

  datatype Ran = Ran(state: State, panicked: bool)

  function SlotAt(slots: map<nat, Response>, slot: nat): Response {
    if slot in slots then slots[slot] else Zero
  }

  function WithHeader(st: State, header: Headers): State {
    st.(out := st.out.(conn := st.out.conn.(header := header)))
  }

  function Perform(action: Action, st: State): Ran {
    var header := st.out.conn.header;
    match action
    case Mark(id) => Ran(st.(marks := st.marks + [id]), false)
    case NewResponse(status, slot) =>
      if !ValidStatus(status) then Ran(st, true)
      else
        var ctx := AfterNewResponse(st.ctx, status);
        Ran(WithHeader(st, map[]).(ctx := ctx, slots := st.slots[slot := CurrentResponse(ctx)]), false)
    case GetResponse(slot) => Ran(st.(slots := st.slots[slot := CurrentResponse(st.ctx)]), false)
    case Hijack(takeover) => Ran(st.(ctx := AfterTakeover(st.ctx, takeover)), takeover.None?)
    case SetBody(slot, setter) =>
      var r := SlotAt(st.slots, slot);
      if !Live(st.ctx, r) then Ran(st, true)
      else Ran(WithHeader(st, ContentTypeOf(setter, header)).(ctx := AfterSetter(st.ctx, r, setter)), false)
    case Cookie(slot, cookie) =>
      if !Live(st.ctx, SlotAt(st.slots, slot)) then Ran(st, true)
      else Ran(WithHeader(st, AddCookie(header, cookie)), false)
    case SetHeader(slot, key, value) =>
      if SlotAt(st.slots, slot).Zero? then Ran(st, true)
      else Ran(WithHeader(st, header[key := [value]]), false)
  }

  /** `next` is the index the dispatcher continues with when `Next` is called; None inside a handler. */
  function Run(mws: seq<Middleware>, handler: Handler, p: Prog, next: Option<nat>, st: State, env: Env): Ran
    requires next.Some? ==> next.value <= |mws|
    requires next.None? ==> NoNext(p)
    decreases if next.Some? then |mws| + 1 - next.value else 0, 1, p
  {
    match p
    case Skip => Ran(st, false)
    case Do(action) => Perform(action, st)
    case Seq(first, second) =>
      var r := Run(mws, handler, first, next, st, env);
      if r.panicked then r else Run(mws, handler, second, next, r.state, env)
    case Choose(left, right) =>
      var chosen := if env.user(st.choices) then left else right;
      Run(mws, handler, chosen, next, st.(choices := st.choices + 1), env)
    case Recover(body) => Ran(Run(mws, handler, body, next, st, env).state, false)
    case Panic => Ran(st, true)
    case Next => Dispatch(mws, handler, next.value, st, env)
  }

  /** `dispatcher(ctx, i)`. */
  function Dispatch(mws: seq<Middleware>, handler: Handler, i: nat, st: State, env: Env): Ran
    requires i <= |mws|
    decreases |mws| + 1 - i, 0
  {
    if i < |mws| then Run(mws, handler, mws[i], Some(i + 1), st, env)
    else Run(mws, handler, handler, None, st, env)
  }

  // ---------- the code ----------

  /** What one registered route closes over while it serves one request. */
  class RouteCall {
    const middlewares: seq<Middleware>
    const handler: Handler
    const env: Env
    const ctx: Context
    const writer: StreamWriter
    const under: ResponseWriter
    var slots: map<nat, Response>
    var marks: seq<nat>
    var choices: nat

    constructor (middlewares: seq<Middleware>, handler: Handler, env: Env,
                 ctx: Context, writer: StreamWriter, under: ResponseWriter)
      ensures this.middlewares == middlewares && this.handler == handler && this.env == env
      ensures this.ctx == ctx && this.writer == writer && this.under == under
      ensures slots == map[] && marks == [] && choices == 0
    {
      this.middlewares, this.handler, this.env := middlewares, handler, env;
      this.ctx, this.writer, this.under := ctx, writer, under;
      slots, marks, choices := map[], [], 0;
    }

    /** The Context still has its writer, and the writer its connection. */
    ghost predicate Open()
      reads this, ctx, writer
    {
      ctx.writer == writer && writer.writer == under
    }

    ghost function View(): State
      reads this, ctx, writer, under
    {
      State(ctx.View(), writer.View(under), slots, marks, choices)
    }

    method Act(action: Action) returns (panicked: bool)
      requires Open()
      modifies this, ctx, writer, under
      ensures Open()
      ensures Ran(View(), panicked) == Perform(action, old(View()))
    {
      panicked := false;
      match action {
        case Mark(id) => marks := marks + [id];
        case NewResponse(status, slot) =>
          var r;
          r, panicked := ctx.NewResponse(status, under);
          if !panicked {
            slots := slots[slot := r];
          }
        case GetResponse(slot) =>
          var r, ok := ctx.Response();
          slots := slots[slot := r];
        case Hijack(takeover) => panicked := ctx.Hijack(takeover);
        case SetBody(slot, setter) => panicked := ctx.SetBody(SlotAt(slots, slot), setter, under);
        case Cookie(slot, cookie) => panicked := ctx.Cookie(SlotAt(slots, slot), cookie, under);
        case SetHeader(slot, key, value) => panicked := ctx.SetHeader(SlotAt(slots, slot), key, value, under);
      }
    }

    method Execute(p: Prog, next: Option<nat>) returns (panicked: bool)
      requires Open()
      requires next.Some? ==> next.value <= |middlewares|
      requires next.None? ==> NoNext(p)
      modifies this, ctx, writer, under
      ensures Open()
      ensures Ran(View(), panicked) == Run(middlewares, handler, p, next, old(View()), env)
      decreases if next.Some? then |middlewares| + 1 - next.value else 0, 1, p
    {
      panicked := false;
      match p {
        case Skip =>
        case Do(action) => panicked := Act(action);
        case Seq(first, second) =>
          panicked := Execute(first, next);
          if !panicked {
            panicked := Execute(second, next);
          }
        case Choose(left, right) =>
          choices := choices + 1;
          panicked := Execute(if env.user(choices - 1) then left else right, next);
        case Recover(body) =>
          var recovered := Execute(body, next);
        case Panic => panicked := true;
        case Next => panicked := Dispatcher(next.value);
      }
    }

    method Dispatcher(i: nat) returns (panicked: bool)
      requires Open() && i <= |middlewares|
      modifies this, ctx, writer, under
      ensures Open()
      ensures Ran(View(), panicked) == Dispatch(middlewares, handler, i, old(View()), env)
      decreases |middlewares| + 1 - i, 0
    {
      if i < |middlewares| {
        panicked := Execute(middlewares[i], Some(i + 1));
      } else {
        panicked := Execute(handler, None);
      }
    }
  }

  // ---------- dispatching is inlining ----------

  /** `p` with every call of `next` replaced by `q`. */
  function Substitute(p: Prog, q: Handler): (r: Handler) {
    match p
    case Next => q
    case Seq(first, second) => Seq(Substitute(first, q), Substitute(second, q))
    case Choose(left, right) => Choose(Substitute(left, q), Substitute(right, q))
    case Recover(body) => Recover(Substitute(body, q))
    case _ => p
  }

  /** The chain from index `i` written out as one handler. */
  function Inline(mws: seq<Middleware>, handler: Handler, i: nat): Handler
    requires i <= |mws|
    decreases |mws| - i
  {
    if i < |mws| then Substitute(mws[i], Inline(mws, handler, i + 1)) else handler
  }

  /** Runs a handler on its own, with no chain around it. */
  function RunAlone(p: Handler, st: State, env: Env): Ran {
    Run([], Skip, p, None, st, env)
  }

  /** A program that never calls next runs the same wherever it stands. */
  lemma {:induction false} NoNextRunsAlone(
      mws: seq<Middleware>, handler: Handler, p: Handler, next: Option<nat>, st: State, env: Env)
    requires next.Some? ==> next.value <= |mws|
    ensures Run(mws, handler, p, next, st, env) == RunAlone(p, st, env)
    decreases p
  {
    match p
    case Seq(first, second) =>
      NoNextRunsAlone(mws, handler, first, next, st, env);
      NoNextRunsAlone(mws, handler, second, next, RunAlone(first, st, env).state, env);
    case Choose(left, right) =>
      var chosen := if env.user(st.choices) then left else right;
      NoNextRunsAlone(mws, handler, chosen, next, st.(choices := st.choices + 1), env);
    case Recover(body) =>
      NoNextRunsAlone(mws, handler, body, next, st, env);
    case _ =>
  }

  lemma {:induction false} RunIsSubstitution(
      mws: seq<Middleware>, handler: Handler, p: Prog, i: nat, st: State, env: Env)
    requires i <= |mws|
    ensures Run(mws, handler, p, Some(i), st, env) == RunAlone(Substitute(p, Inline(mws, handler, i)), st, env)
    decreases |mws| - i, 1, p
  {
    var q := Inline(mws, handler, i);
    match p
    case Seq(first, second) =>
      RunIsSubstitution(mws, handler, first, i, st, env);
      RunIsSubstitution(mws, handler, second, i, RunAlone(Substitute(first, q), st, env).state, env);
    case Choose(left, right) =>
      var chosen := if env.user(st.choices) then left else right;
      RunIsSubstitution(mws, handler, chosen, i, st.(choices := st.choices + 1), env);
    case Recover(body) =>
      RunIsSubstitution(mws, handler, body, i, st, env);
    case Next =>
      DispatcherIsInlining(mws, handler, i, st, env);
    case _ =>
  }

  /**
   The recursive dispatcher does what the chain does when each middleware has the rest of the chain
   written in place of its `next`, however often it calls it, and whoever panics or recovers.
   */
  lemma {:induction false} DispatcherIsInlining(mws: seq<Middleware>, handler: Handler, i: nat, st: State, env: Env)
    requires i <= |mws|
    ensures Dispatch(mws, handler, i, st, env) == RunAlone(Inline(mws, handler, i), st, env)
    decreases |mws| - i, 0
  {
    if i < |mws| {
      RunIsSubstitution(mws, handler, mws[i], i + 1, st, env);
    } else {
      NoNextRunsAlone(mws, handler, handler, None, st, env);
    }
  }

  // ---------- the onion ----------

  /** A middleware that runs any code, calls next once, and runs any code on the way out. */
  datatype Layer = Layer(before: Handler, after: Handler)

  function Around(layer: Layer): Middleware {
    Seq(layer.before, Seq(Next, layer.after))
  }

  function Stack(layers: seq<Layer>): seq<Middleware> {
    seq(|layers|, k requires 0 <= k < |layers| => Around(layers[k]))
  }

  function Befores(layers: seq<Layer>): seq<Handler> {
    seq(|layers|, k requires 0 <= k < |layers| => layers[k].before)
  }

  /** The way out, innermost layer first. */
  function Afters(layers: seq<Layer>): seq<Handler> {
    seq(|layers|, k requires 0 <= k < |layers| => layers[|layers| - 1 - k].after)
  }

  /** Runs programs one after the other, up to the first panic. */
  function RunInLine(programs: seq<Handler>, st: State, env: Env): Ran
    decreases |programs|
  {
    if programs == [] then Ran(st, false)
    else
      var r := RunAlone(programs[0], st, env);
      if r.panicked then r else RunInLine(programs[1..], r.state, env)
  }

  lemma {:induction false} LinesJoin(a: seq<Handler>, b: seq<Handler>, st: State, env: Env)
    ensures
      var r := RunInLine(a, st, env);
      RunInLine(a + b, st, env) == if r.panicked then r else RunInLine(b, r.state, env)
    decreases |a|
  {
    if a == [] {
      assert a + b == b;
    } else {
      assert (a + b)[1..] == a[1..] + b;
      LinesJoin(a[1..], b, RunAlone(a[0], st, env).state, env);
    }
  }

  lemma OneInLine(p: Handler, st: State, env: Env)
    ensures RunInLine([p], st, env) == RunAlone(p, st, env)
  {
    assert [p][1..] == [];
  }

  lemma OneLayer(mws: seq<Middleware>, handler: Handler, i: nat, layer: Layer, st: State, env: Env)
    requires i < |mws| && mws[i] == Around(layer)
    ensures
      var entered := RunAlone(layer.before, st, env);
      var rest := Dispatch(mws, handler, i + 1, entered.state, env);
      Dispatch(mws, handler, i, st, env)
        == if entered.panicked then entered
           else if rest.panicked then rest
           else RunAlone(layer.after, rest.state, env)
  {
    var entered := RunAlone(layer.before, st, env);
    var rest := Dispatch(mws, handler, i + 1, entered.state, env);
    NoNextRunsAlone(mws, handler, layer.before, Some(i + 1), st, env);
    NoNextRunsAlone(mws, handler, layer.after, Some(i + 1), rest.state, env);
    assert Run(mws, handler, Next, Some(i + 1), entered.state, env) == rest;
    assert Run(mws, handler, Seq(Next, layer.after), Some(i + 1), entered.state, env)
        == if rest.panicked then rest else Run(mws, handler, layer.after, Some(i + 1), rest.state, env);
  }

  /**
   Layers run outside in before the handler and inside out after it, whatever code they consist of; the first
   panic ends the chain and skips every way out.
   */
  lemma {:induction false} OnionOrder(layers: seq<Layer>, handler: Handler, i: nat, st: State, env: Env)
    requires i <= |layers|
    ensures Dispatch(Stack(layers), handler, i, st, env)
         == RunInLine(Befores(layers[i..]) + [handler] + Afters(layers[i..]), st, env)
    decreases |layers| - i
  {
    var mws := Stack(layers);
    if i == |layers| {
      assert Befores(layers[i..]) + [handler] + Afters(layers[i..]) == [handler];
      NoNextRunsAlone(mws, handler, handler, None, st, env);
      OneInLine(handler, st, env);
    } else {
      var layer, inner := layers[i], Befores(layers[i + 1..]) + [handler] + Afters(layers[i + 1..]);
      assert Befores(layers[i..]) + [handler] + Afters(layers[i..]) == [layer.before] + (inner + [layer.after]);
      var entered := RunAlone(layer.before, st, env);
      OneLayer(mws, handler, i, layer, st, env);
      OneInLine(layer.before, st, env);
      LinesJoin([layer.before], inner + [layer.after], st, env);
      if !entered.panicked {
        OnionOrder(layers, handler, i + 1, entered.state, env);
        LinesJoin(inner, [layer.after], entered.state, env);
        var rest := RunInLine(inner, entered.state, env);
        if !rest.panicked {
          OneInLine(layer.after, rest.state, env);
        }
      }
    }
  }

  // ---------- headers of a response ----------

  /** A handler that starts a response and adds cookies to it. */
  function WithCookies(status: int, slot: nat, cookies: seq<string>): (p: Handler) {
    if cookies == [] then Do(NewResponse(status, slot))
    else
      var before, add := WithCookies(status, slot, cookies[..|cookies| - 1]), Do(Cookie(slot, cookies[|cookies| - 1]));
      assert NoNext(before) && NoNext(add);
      Seq(before, add)
  }

  /** A new response starts without headers, and each cookie is added behind the ones before it. */
  lemma {:induction false} CookiesAccumulate(status: int, slot: nat, cookies: seq<string>, st: State, env: Env)
    requires ValidStatus(status)
    ensures
      var r := RunAlone(WithCookies(status, slot, cookies), st, env);
      && !r.panicked
      && Live(r.state.ctx, SlotAt(r.state.slots, slot))
      && r.state.out.conn.header == if cookies == [] then map[] else map["Set-Cookie" := cookies]
  {
    if cookies != [] {
      var before, last := cookies[..|cookies| - 1], cookies[|cookies| - 1];
      CookiesAccumulate(status, slot, before, st, env);
      assert cookies == before + [last];
      var r := RunAlone(WithCookies(status, slot, before), st, env);
      var header := r.state.out.conn.header;
      var p := WithCookies(status, slot, cookies);
      assert p.Seq? && p.first == WithCookies(status, slot, before) && p.second == Do(Cookie(slot, last));
      assert Run([], Skip, p.second, None, r.state, env) == Perform(Cookie(slot, last), r.state);
      assert AddCookie(header, last) == map["Set-Cookie" := cookies];
    }
  }

  // ---------- groups ----------

  /** A Router value; copies of it share the backing array of their middleware slice. */
  datatype Router = Router(logged: bool, middlewares: Slice<Middleware>)

  /** Group writes nothing that existed before: neither the parent's chain nor the caller's slice. */
  method Group(r: Router, middlewares: Slice<Middleware>) returns (g: Router)
    requires Valid(r.middlewares) && Valid(middlewares)
    ensures Valid(g.middlewares) && g.logged == r.logged
    ensures Contents(g.middlewares) == Contents(r.middlewares) + Contents(middlewares)
    ensures fresh(Backing(g.middlewares))
  {
    var own := if r.middlewares.NilSlice? then [] else r.middlewares.arr[..r.middlewares.len];
    var more := if middlewares.NilSlice? then [] else middlewares.arr[..middlewares.len];
    var copy := CopyAppend(own, more);
    g := Router(r.logged, copy);
  }

  /**
   Nested groups chain like one group with both lists, and no later write to the caller's slices
   or to a sibling's chain reaches a group that was already made.
   */
  method GroupsAreIndependent(r: Router, a: Slice<Middleware>, b: Slice<Middleware>, k: nat, m: Middleware)
    returns (nested: Router, sibling: Router)
    requires Valid(r.middlewares) && Valid(a) && Valid(b)
    requires a.Slice? && b.Slice? && k < a.len && k < b.len
    requires a.arr !in Backing(r.middlewares) && b.arr !in Backing(r.middlewares)
    modifies a.arr, b.arr
    ensures Valid(nested.middlewares) && Valid(sibling.middlewares)
    ensures Contents(nested.middlewares) == old(Contents(r.middlewares) + Contents(a) + Contents(b))
    ensures Contents(r.middlewares) == old(Contents(r.middlewares))
  {
    var child := Group(r, a);
    sibling := Group(r, b);
    nested := Group(child, b);
    a.arr[k], b.arr[k] := m, m;
    if sibling.middlewares.Slice? && k < sibling.middlewares.len {
      sibling.middlewares.arr[k] := m;
    }
  }
}
