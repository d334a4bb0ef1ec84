/**
 Any sequence of Context and Response calls, against a specification without tickets.

 The code decides staleness by comparing counters. The specification below speaks of the calls alone:
 a handle is live when nothing was reset since the call that issued it, and the pending response is
 the last reset together with the last setter through a live handle after it.
 */
module ContextTraces {
  import opened Wire
  import opened StreamWriters
  import opened Contexts

  /** `from` is the position of the call that returned the handle being used. */
  datatype Call =
    | NewResponse(status: int)
    | Hijack(takeover: Option<HijackCode>)
    | GetResponse
    | Set(from: nat, setter: Setter)
    | Cookie(from: nat, cookie: string)
    | SetHeader(from: nat, key: string, value: string)

  // ---------- what the code computes ----------

  /** State after some calls: the Context, the header map, what each call returned, and which calls panicked. */
  datatype Played = Played(ctx: Ctx, header: Headers, handles: seq<Response>, panics: seq<bool>)

  function HandleAt(handles: seq<Response>, from: nat): Response {
    if from < |handles| then handles[from] else Zero
  }

  function CtxAfter(p: Played, call: Call): Ctx {
    match call
    case NewResponse(status) => AfterNewResponse(p.ctx, status)
    case Hijack(takeover) => AfterTakeover(p.ctx, takeover)
    case Set(from, setter) => AfterSetter(p.ctx, HandleAt(p.handles, from), setter)
    case _ => p.ctx
  }

  function HeaderAfter(p: Played, call: Call): Headers {
    match call
    case NewResponse(status) => if ValidStatus(status) then map[] else p.header
    case Set(from, setter) => if Live(p.ctx, HandleAt(p.handles, from)) then ContentTypeOf(setter, p.header) else p.header
    case Cookie(from, cookie) => if Live(p.ctx, HandleAt(p.handles, from)) then AddCookie(p.header, cookie) else p.header
    case SetHeader(from, key, value) => if HandleAt(p.handles, from).Zero? then p.header else p.header[key := [value]]
    case _ => p.header
  }

  function Returned(c: Ctx, call: Call): Response {
    match call
    case NewResponse(status) => if ValidStatus(status) then CurrentResponse(AfterNewResponse(c, status)) else Zero
    case GetResponse => CurrentResponse(c)
    case _ => Zero
  }

  predicate Panicked(p: Played, call: Call) {
    match call
    case NewResponse(status) => !ValidStatus(status)
    case Hijack(takeover) => takeover.None?
    case GetResponse => false
    case Set(from, _) => !Live(p.ctx, HandleAt(p.handles, from))
    case Cookie(from, _) => !Live(p.ctx, HandleAt(p.handles, from))
    case SetHeader(from, _, _) => HandleAt(p.handles, from).Zero?
  }

  function AfterCall(p: Played, call: Call): Played {
    Played(CtxAfter(p, call), HeaderAfter(p, call), p.handles + [Returned(p.ctx, call)], p.panics + [Panicked(p, call)])
  }

  function Play(calls: seq<Call>, n: nat): Played
    requires n <= |calls|
  {
    if n == 0 then Played(FRESH_CTX, map[], [], []) else AfterCall(Play(calls, n - 1), calls[n - 1])
  }

  /** The same calls made on the Context object. */
  method Replay(calls: seq<Call>, net: Network)
    returns (ctx: Context, under: ResponseWriter, handles: seq<Response>, panics: seq<bool>)
    ensures fresh(ctx) && fresh(under)
    ensures Played(ctx.View(), under.conn.header, handles, panics) == Play(calls, |calls|)
  {
    under := new ResponseWriter(net);
    var writer := new StreamWriter(under);
    ctx := new Context(writer);
    handles, panics := [], [];
    for i := 0 to |calls|
      invariant fresh(ctx) && fresh(under) && ctx.writer == writer && writer.writer == under
      invariant Played(ctx.View(), under.conn.header, handles, panics) == Play(calls, i)
    {
      var r, panicked := Zero, false;
      match calls[i] {
        case NewResponse(status) =>
          r, panicked := ctx.NewResponse(status, under);
        case Hijack(takeover) =>
          panicked := ctx.Hijack(takeover);
        case GetResponse =>
          var ok;
          r, ok := ctx.Response();
        case Set(from, setter) =>
          panicked := ctx.SetBody(HandleAt(handles, from), setter, under);
        case Cookie(from, cookie) =>
          panicked := ctx.Cookie(HandleAt(handles, from), cookie, under);
        case SetHeader(from, key, value) =>
          panicked := ctx.SetHeader(HandleAt(handles, from), key, value, under);
      }
      handles, panics := handles + [r], panics + [panicked];
    }
  }

  // ---------- what it should compute ----------

  predicate IsReset(call: Call) {
    (call.NewResponse? && 200 <= call.status <= 599) || (call.Hijack? && call.takeover.Some?)
  }

  /** The position of the last reset before `n`, or -1. */
  function LastReset(calls: seq<Call>, n: nat): (r: int)
    requires n <= |calls|
    ensures -1 <= r < n
    ensures r >= 0 ==> IsReset(calls[r])
    ensures forall j :: r < j < n ==> !IsReset(calls[j])
  {
    if n == 0 then -1 else if IsReset(calls[n - 1]) then n - 1 else LastReset(calls, n - 1)
  }

  predicate HasResponse(calls: seq<Call>, n: nat)
    requires n <= |calls|
  {
    var r := LastReset(calls, n);
    r >= 0 && calls[r].NewResponse?
  }

  predicate IssuesHandle(calls: seq<Call>, k: nat)
    requires k < |calls|
  {
    if calls[k].GetResponse? then HasResponse(calls, k)
    else calls[k].NewResponse? && 200 <= calls[k].status <= 599
  }

  /** The call at `k` uses a handle that was really returned by an earlier call. */
  predicate IsIssued(calls: seq<Call>, k: nat, from: nat)
    requires k < |calls|
  {
    from < k && IssuesHandle(calls, from)
  }

  /** Such a handle is live if nothing was reset since. */
  predicate IsLive(calls: seq<Call>, k: nat, from: nat)
    requires k < |calls|
  {
    IsIssued(calls, k, from) && LastReset(calls, k) <= from
  }

  predicate IsLiveSet(calls: seq<Call>, k: nat)
    requires k < |calls|
  {
    calls[k].Set? && IsLive(calls, k, calls[k].from)
  }

  predicate ShouldPanic(calls: seq<Call>, k: nat)
    requires k < |calls|
  {
    match calls[k]
    case NewResponse(status) => status < 200 || 599 < status
    case Hijack(takeover) => takeover.None?
    case GetResponse => false
    case Set(from, _) => !IsLive(calls, k, from)
    case Cookie(from, _) => !IsLive(calls, k, from)
    case SetHeader(from, _, _) => !IsIssued(calls, k, from)
  }

  /** The position of the last setter call through a live handle before `n`, or -1. */
  function LastLiveSet(calls: seq<Call>, n: nat): (s: int)
    requires n <= |calls|
    ensures -1 <= s < n
    ensures s >= 0 ==> IsLiveSet(calls, s)
    ensures forall k :: s < k < n ==> !IsLiveSet(calls, k)
  {
    if n == 0 then -1 else if IsLiveSet(calls, n - 1) then n - 1 else LastLiveSet(calls, n - 1)
  }

  datatype Pending = Pending(status: int, body: Body, json: bool)

  /** What a setter is for: the body it stores, and whether that is to be marshalled. */
  function PendingWith(status: int, setter: Setter): Pending {
    match setter
    case BytesBody(bytes) => Pending(status, Raw(bytes), false)
    case StringBody(text) => Pending(status, Text(text), false)
    case StreamBody(stream) => Pending(status, Streaming(stream), false)
    case PlainTextBody(text) => Pending(status, Text(text), false)
    case OctetsBody(bytes) => Pending(status, Raw(bytes), false)
    case JsonBody(value) => Pending(status, value, true)
  }

  function ExpectedPending(calls: seq<Call>, n: nat): Pending
    requires n <= |calls|
  {
    var r, s := LastReset(calls, n), LastLiveSet(calls, n);
    if r < 0 then Pending(0, Nothing, false)
    else if calls[r].Hijack? then Pending(0, Takeover(calls[r].takeover.value), false)
    else if s <= r then Pending(calls[r].status, Nothing, false)
    else PendingWith(calls[r].status, calls[s].setter)
  }

  /** The values of one header after the first `n` calls; each kind of call names the headers it concerns. */
  function ExpectedHeader(calls: seq<Call>, n: nat, key: string): Option<seq<string>>
    requires n <= |calls|
  {
    if n == 0 then None
    else
      var before, k := ExpectedHeader(calls, n - 1, key), n - 1;
      match calls[k]
      case NewResponse(status) => if 200 <= status <= 599 then None else before
      case Set(from, PlainTextBody(_)) =>
        if IsLive(calls, k, from) && key == "Content-Type" then Some(["text/plain; charset=utf-8"]) else before
      case Set(from, OctetsBody(_)) =>
        if IsLive(calls, k, from) && key == "Content-Type" then Some(["application/octet-stream"]) else before
      case Cookie(from, cookie) =>
        if IsLive(calls, k, from) && key == "Set-Cookie"
        then Some((if before.Some? then before.value else []) + [cookie]) else before
      case SetHeader(from, name, value) =>
        if IsIssued(calls, k, from) && name == key then Some([value]) else before
      case _ => before
  }

  function HeaderAt(header: Headers, key: string): Option<seq<string>> {
    if key in header then Some(header[key]) else None
  }

  // ---------- the two agree ----------

  /** The ticket counts resets; an issued handle carries the count at its issue. */
  function Resets(calls: seq<Call>, n: nat): nat
    requires n <= |calls|
  {
    if n == 0 then 0 else Resets(calls, n - 1) + if IsReset(calls[n - 1]) then 1 else 0
  }

  lemma {:induction false} ResetsBetween(calls: seq<Call>, m: nat, n: nat)
    requires m <= n <= |calls|
    ensures Resets(calls, m) <= Resets(calls, n)
    ensures Resets(calls, m) == Resets(calls, n) <==> LastReset(calls, n) < m
  {
    if m < n {
      ResetsBetween(calls, m, n - 1);
    }
  }

  lemma {:induction false} TicketsCountResets(calls: seq<Call>, n: nat)
    requires n <= |calls|
    ensures
      var p := Play(calls, n);
      && p.ctx.ticket == Resets(calls, n)
      && p.ctx.open
      && (p.ctx.status != 0 <==> HasResponse(calls, n))
      && |p.handles| == n
  {
    if n > 0 {
      TicketsCountResets(calls, n - 1);
    }
  }

  lemma {:induction false} HandlesCarryTheirCount(calls: seq<Call>, n: nat, k: nat)
    requires k < n <= |calls|
    ensures |Play(calls, n).handles| == n
    ensures Play(calls, n).handles[k] == if IssuesHandle(calls, k) then Handle(Resets(calls, k + 1)) else Zero
  {
    TicketsCountResets(calls, n - 1);
    if k < n - 1 {
      HandlesCarryTheirCount(calls, n - 1, k);
    } else {
      TicketsCountResets(calls, n);
    }
  }

  /** A ticket comparison succeeds exactly when the handle was issued and no reset happened since. */
  lemma LiveMeansNoResetSince(calls: seq<Call>, k: nat, from: nat)
    requires k < |calls|
    ensures
      var p := Play(calls, k);
      && (Live(p.ctx, HandleAt(p.handles, from)) <==> IsLive(calls, k, from))
      && (HandleAt(p.handles, from).Handle? <==> IsIssued(calls, k, from))
  {
    TicketsCountResets(calls, k);
    if from < k {
      HandlesCarryTheirCount(calls, k, from);
      ResetsBetween(calls, from + 1, k);
    }
  }

  /** A setter call is live only under a response, and one call changes the expectation as its kind says. */
  lemma ExpectationStep(calls: seq<Call>, n: nat)
    requires 0 < n <= |calls|
    ensures
      var before, after, call := ExpectedPending(calls, n - 1), ExpectedPending(calls, n), calls[n - 1];
      if IsReset(call) then
        after == if call.Hijack? then Pending(0, Takeover(call.takeover.value), false)
                 else Pending(call.status, Nothing, false)
      else if IsLiveSet(calls, n - 1) then
        before.status != 0 && after == PendingWith(before.status, call.setter)
      else after == before
  {
  }

  lemma {:induction false} PanicsFollowTrace(calls: seq<Call>, n: nat)
    requires n <= |calls|
    ensures |Play(calls, n).panics| == n
    ensures forall k :: 0 <= k < n ==> Play(calls, n).panics[k] == ShouldPanic(calls, k)
  {
    if n > 0 {
      PanicsFollowTrace(calls, n - 1);
      var call := calls[n - 1];
      if call.Set? || call.Cookie? || call.SetHeader? {
        LiveMeansNoResetSince(calls, n - 1, call.from);
      }
    }
  }

  lemma {:induction false} HeadersFollowTrace(calls: seq<Call>, n: nat, key: string)
    requires n <= |calls|
    ensures HeaderAt(Play(calls, n).header, key) == ExpectedHeader(calls, n, key)
  {
    if n > 0 {
      HeadersFollowTrace(calls, n - 1, key);
      var call := calls[n - 1];
      if call.Set? || call.Cookie? || call.SetHeader? {
        LiveMeansNoResetSince(calls, n - 1, call.from);
      }
    }
  }

  lemma {:induction false} PendingFollowsTrace(calls: seq<Call>, n: nat)
    requires n <= |calls|
    ensures
      var c := Play(calls, n).ctx;
      Pending(c.status, c.body, c.json) == ExpectedPending(calls, n)
  {
    if n > 0 {
      PendingFollowsTrace(calls, n - 1);
      ExpectationStep(calls, n);
      if calls[n - 1].Set? {
        LiveMeansNoResetSince(calls, n - 1, calls[n - 1].from);
      }
    }
  }

  /**
   After any calls through any handles, the pending response is the one of the last reset and the last
   live setter after it, every header has the values the calls since the last new response give it, and exactly
   the calls that should panic do.
   */
  lemma ContextFollowsTrace(calls: seq<Call>, n: nat)
    requires n <= |calls|
    ensures
      var p := Play(calls, n);
      && Pending(p.ctx.status, p.ctx.body, p.ctx.json) == ExpectedPending(calls, n)
      && |p.panics| == n
      && (forall k :: 0 <= k < n ==> p.panics[k] == ShouldPanic(calls, k))
      && (forall key :: HeaderAt(p.header, key) == ExpectedHeader(calls, n, key))
  {
    PendingFollowsTrace(calls, n);
    PanicsFollowTrace(calls, n);
    forall key {
      HeadersFollowTrace(calls, n, key);
    }
  }

  /** A setter or cookie through a stale handle changes nothing at all. */
  lemma StaleSetterChangesNothing(calls: seq<Call>, n: nat)
    requires 0 < n <= |calls| && (calls[n - 1].Set? || calls[n - 1].Cookie?)
    requires !IsLive(calls, n - 1, calls[n - 1].from)
    ensures Play(calls, n).ctx == Play(calls, n - 1).ctx && Play(calls, n).header == Play(calls, n - 1).header
  {
    LiveMeansNoResetSince(calls, n - 1, calls[n - 1].from);
  }

  // ---------- reachable states ----------

  lemma {:induction false} TraceIsReachable(calls: seq<Call>, n: nat)
    requires n <= |calls|
    ensures Reachable(Play(calls, n).ctx)
    ensures forall r :: r in Play(calls, n).handles ==> Issued(Play(calls, n).ctx, r)
  {
    if n > 0 {
      TraceIsReachable(calls, n - 1);
      var before := Play(calls, n - 1);
      if calls[n - 1].Set? {
        assert Issued(before.ctx, HandleAt(before.handles, calls[n - 1].from));
      }
    }
  }

  /** No calls ever store a direct body `writeResponse` cannot write, or a body to write under no valid status. */
  lemma BodyIsAlwaysSupported(calls: seq<Call>)
    ensures
      var c := Play(calls, |calls|).ctx;
      && (!c.json ==> !c.body.Other?)
      && (!c.json && c.body.Takeover? ==> c.status == 0)
      && (c.json || c.body.Raw? || c.body.Text? || c.body.Streaming? ==> ValidStatus(c.status))
  {
    TraceIsReachable(calls, |calls|);
  }

  /** A body that is a hijack function and was stored to be run, not to be marshalled. */
  predicate HoldsTakeover(c: Ctx) {
    c.body.Takeover? && !c.json
  }

  /**
   `Hijacked()` holds exactly when a takeover is pending. The marshaller matters: a hijack function
   handed to JsonBody is a body to marshal, and `Hijacked()` rightly ignores it.
   */
  lemma HijackedMeansTakeover(calls: seq<Call>)
    ensures IsHijacked(Play(calls, |calls|).ctx) <==> HoldsTakeover(Play(calls, |calls|).ctx)
  {
    TraceIsReachable(calls, |calls|);
  }

  lemma HijackFunctionAsJson(hijack: HijackCode)
    ensures
      var c := Play([NewResponse(200), Set(0, JsonBody(Takeover(hijack)))], 2).ctx;
      c.body.Takeover? && !IsHijacked(c)
  {
    var calls := [NewResponse(200), Set(0, JsonBody(Takeover(hijack)))];
    LiveMeansNoResetSince(calls, 1, 0);
    assert LastReset(calls, 1) == 0;
    assert Play(calls, 2) == AfterCall(Play(calls, 1), calls[1]);
  }
}
