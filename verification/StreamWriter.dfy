/**
 stream_writer.go: the response writer the server installs around the connection's own one.
 */
module StreamWriters {
  import opened Wire

  /** A StreamWriter together with the connection behind it. `attached` is `writer != nil`. */
  datatype Stream = Stream(attached: bool, status: int, bytesWritten: nat, conn: Conn)

  const FRESH_STREAM := Stream(true, 0, 0, FRESH_CONN)

  datatype StreamStep = StreamStep(stream: Stream, panicked: bool)

  datatype StreamWrite = StreamWrite(stream: Stream, failed: bool, panicked: bool)

  datatype StreamHijack = StreamHijack(stream: Stream, ok: bool)

  /** A call on a detached writer dies on the nil interface, after the status was recorded. */
  function AfterStreamWriteHeader(s: Stream, code: int): StreamStep {
    var recorded := if code >= 200 && s.status == 0 then s.(status := code) else s;
    if !s.attached then StreamStep(recorded, true)
    else
      var step := AfterWriteHeader(s.conn, code);
      StreamStep(recorded.(conn := step.conn), step.panicked)
  }

  function AfterStreamWrite(s: Stream, data: Bytes, net: Network): StreamWrite {
    var recorded := if s.status == 0 then s.(status := 200) else s;
    if !s.attached then StreamWrite(recorded, false, true)
    else
      var step := AfterWrite(s.conn, data, net);
      StreamWrite(recorded.(conn := step.conn, bytesWritten := s.bytesWritten + step.count), step.failed, false)
  }

  function AfterStreamHijack(s: Stream, net: Network): StreamHijack {
    if !s.attached then StreamHijack(s, false)
    else
      var step := AfterHijack(s.conn, net);
      StreamHijack(s.(conn := step.conn, attached := !step.ok), step.ok)
  }

  class StreamWriter {
    var writer: ResponseWriter?
    var status: int
    var bytesWritten: nat

    constructor (writer: ResponseWriter)
      ensures this.writer == writer && status == 0 && bytesWritten == 0
    {
      this.writer := writer;
      status := 0;
      bytesWritten := 0;
    }

    /** The writer seen as a value; `under` is the response writer it was created around. */
    ghost function View(under: ResponseWriter): Stream
      reads this, under
    {
      Stream(writer != null, status, bytesWritten, under.conn)
    }

    method WriteHeader(statusCode: int, ghost under: ResponseWriter) returns (panicked: bool)
      requires writer == null || writer == under
      modifies this, under
      ensures writer == old(writer)
      ensures StreamStep(View(under), panicked) == AfterStreamWriteHeader(old(View(under)), statusCode)
    {
      if statusCode >= 200 && status == 0 {
        status := statusCode;
      }
      if writer == null {
        return true;
      }
      panicked := writer.WriteHeader(statusCode);
    }

    method Write(body: Bytes, ghost under: ResponseWriter) returns (failed: bool, panicked: bool)
      requires writer == null || writer == under
      modifies this, under
      ensures writer == old(writer)
      ensures StreamWrite(View(under), failed, panicked) == AfterStreamWrite(old(View(under)), body, under.net)
    {
      if status == 0 {
        status := 200;
      }
      if writer == null {
        return false, true;
      }
      var count;
      count, failed := writer.Write(body);
      bytesWritten := bytesWritten + count;
      panicked := false;
    }

    method Hijack(ghost under: ResponseWriter) returns (ok: bool)
      requires writer == null || writer == under
      modifies this, under
      ensures writer == if ok then null else old(writer)
      ensures StreamHijack(View(under), ok) == AfterStreamHijack(old(View(under)), under.net)
    {
      if writer == null {
        return false;
      }
      ok := writer.Hijack();
      if ok {
        writer := null;
      }
    }
  }

  // ---------- accounting ----------

  /** One call on a StreamWriter; `recovers` says whether its caller survives a panic of the call. */
  datatype StreamOp = WriteHeader(code: int) | Write(data: Bytes) | TakeOver

  datatype StreamCall = StreamCall(op: StreamOp, recovers: bool)

  function AfterOp(s: Stream, op: StreamOp, net: Network): StreamStep {
    match op
    case WriteHeader(code) => AfterStreamWriteHeader(s, code)
    case Write(data) => var w := AfterStreamWrite(s, data, net); StreamStep(w.stream, w.panicked)
    case TakeOver => StreamStep(AfterStreamHijack(s, net).stream, false)
  }

  function AfterCalls(s: Stream, calls: seq<StreamCall>, net: Network): StreamStep
    decreases |calls|
  {
    if calls == [] then StreamStep(s, false)
    else
      var step := AfterOp(s, calls[0].op, net);
      if step.panicked && !calls[0].recovers then step else AfterCalls(step.stream, calls[1..], net)
  }

  /** The recorded status and byte count are the ones of the connection. */
  ghost predicate Accurate(s: Stream) {
    s.status == s.conn.final && s.bytesWritten == |s.conn.accepted|
  }

  predicate Decides(op: StreamOp) {
    op.Write? || (op.WriteHeader? && (op.code == 101 || op.code >= 200))
  }

  /** A panic that leaves the status open and ends the calls: a code below 100 whose caller does not recover. */
  predicate EndsUndecided(call: StreamCall) {
    call.op.WriteHeader? && call.op.code < 100 && !call.recovers
  }

  /** The first call that settles the status, if there is one, is one whose status StreamWriter records as sent. */
  predicate FirstDecisionRecorded(calls: seq<StreamCall>) {
    calls != [] && !EndsUndecided(calls[0]) ==>
      if Decides(calls[0].op) then calls[0].op.WriteHeader? ==> 200 <= calls[0].op.code <= 999
      else FirstDecisionRecorded(calls[1..])
  }

  /** A writer whose status is already committed and which stays truthful whatever is called on it. */
  ghost predicate Committed(s: Stream) {
    && s.conn.final != 0
    && Accurate(s)
    && s.attached == !s.conn.hijacked
  }

  lemma CommittedIsKept(s: Stream, op: StreamOp, net: Network)
    requires Committed(s)
    ensures
      var step := AfterOp(s, op, net);
      && Committed(step.stream)
      && step.stream.status == s.status
      && step.stream.conn.sent == s.conn.sent
      && step.stream.conn.closes == s.conn.closes
      && s.conn.accepted <= step.stream.conn.accepted
      && (!s.attached ==> !step.stream.attached)
      && (step.panicked ==> !s.attached)
  {
  }

  lemma {:induction false} CommittedThroughCalls(s: Stream, calls: seq<StreamCall>, net: Network)
    requires Committed(s)
    ensures
      var step := AfterCalls(s, calls, net);
      && Committed(step.stream)
      && step.stream.status == s.status
      && step.stream.conn.sent == s.conn.sent
      && step.stream.conn.closes == s.conn.closes
      && s.conn.accepted <= step.stream.conn.accepted
      && (!s.attached ==> !step.stream.attached)
      && (step.panicked ==> !step.stream.attached)
      && (!step.stream.attached && s.attached ==> exists k :: 0 <= k < |calls| && calls[k].op.TakeOver?)
    decreases |calls|
  {
    if calls != [] {
      CommittedIsKept(s, calls[0].op, net);
      var step := AfterOp(s, calls[0].op, net);
      if !(step.panicked && !calls[0].recovers) {
        CommittedThroughCalls(step.stream, calls[1..], net);
        if step.stream.attached && !AfterCalls(s, calls, net).stream.attached {
          var k :| 0 <= k < |calls[1..]| && calls[1..][k].op.TakeOver?;
          assert calls[k + 1].op.TakeOver?;
        }
      }
    }
  }

  ghost predicate NoTakeOver(calls: seq<StreamCall>) {
    forall k :: 0 <= k < |calls| ==> !calls[k].op.TakeOver?
  }

  /** Once a wrong status is recorded nothing ever corrects it. */
  lemma {:induction false} MisrecordedForever(s: Stream, calls: seq<StreamCall>, net: Network)
    requires s.attached && !s.conn.hijacked
    requires s.conn.final == 101 || s.status > 999
    requires 0 <= s.conn.final <= 999 && s.status != 101
    requires NoTakeOver(calls)
    ensures !Accurate(AfterCalls(s, calls, net).stream)
    decreases |calls|
  {
    if calls != [] {
      var step := AfterOp(s, calls[0].op, net);
      if !(step.panicked && !calls[0].recovers) {
        MisrecordedForever(step.stream, calls[1..], net);
      }
    }
  }

  /** Before anything is decided the writer agrees with the connection: no final status on either side. */
  ghost predicate Undecided(s: Stream) {
    s.attached && !s.conn.hijacked && s.status == 0 && s.conn.final == 0 && s.bytesWritten == |s.conn.accepted|
  }

  /**
   For any calls of WriteHeader and Write, in any order and with any codes, ended or not by a panic, the recorded
   status and byte count equal what the connection saw exactly when the first deciding call is not a status that
   StreamWriter misreads: 101, which commits without being recorded, or a code above 999,
   which is recorded although the connection refuses it.
   */
  lemma {:induction false} AccountingIsExact(s: Stream, calls: seq<StreamCall>, net: Network)
    requires Undecided(s)
    requires NoTakeOver(calls)
    ensures Accurate(AfterCalls(s, calls, net).stream) <==> FirstDecisionRecorded(calls)
    decreases |calls|
  {
    if calls != [] {
      var step := AfterOp(s, calls[0].op, net);
      if step.panicked && !calls[0].recovers {
        assert AfterCalls(s, calls, net) == step;
      } else if !Decides(calls[0].op) {
        AccountingIsExact(step.stream, calls[1..], net);
      } else if FirstDecisionRecorded(calls) {
        CommittedThroughCalls(step.stream, calls[1..], net);
      } else {
        MisrecordedForever(step.stream, calls[1..], net);
      }
    }
  }

  /** 101 goes out but is not recorded, so a later write records 200; 1000 is recorded but never goes out. */
  lemma MisrecordedStatuses(net: Network)
    ensures
      var switched := AfterCalls(FRESH_STREAM, [StreamCall(WriteHeader(101), true), StreamCall(Write([]), true)], net).stream;
      switched.conn.final == 101 && switched.status == 200
    ensures
      var refused := AfterCalls(FRESH_STREAM, [StreamCall(WriteHeader(1000), true)], net).stream;
      refused.conn.final == 0 && refused.status == 1000
  {
    var calls := [StreamCall(WriteHeader(101), true), StreamCall(Write([]), true)];
    assert calls[1..] == [StreamCall(Write([]), true)];
    var first := AfterOp(FRESH_STREAM, calls[0].op, net).stream;
    assert AfterCalls(first, calls[1..], net).stream == AfterOp(first, calls[1].op, net).stream;
  }

  // ---------- delivery ----------

  /** What a body writes, if every call runs and the network takes everything. */
  function Payloads(calls: seq<StreamCall>): Bytes {
    if calls == [] then []
    else (if calls[0].op.Write? then calls[0].op.data else []) + Payloads(calls[1..])
  }

  /** Whether a call that cannot be made without a connection ends the body. */
  predicate EndsWithoutWriter(calls: seq<StreamCall>) {
    exists k :: 0 <= k < |calls| && !calls[k].op.TakeOver? && !calls[k].recovers
  }

  /**
   What the network takes of a body whose next call gets its reply `n`: of each write the prefix that its reply
   accepts, up to a takeover that is granted.
   */
  function Taken(calls: seq<StreamCall>, net: Network, n: nat): Bytes
    decreases |calls|
  {
    if calls == [] then []
    else
      match calls[0].op
      case WriteHeader(_) => Taken(calls[1..], net, n)
      case Write(data) => data[..if net(n).count < |data| then net(n).count else |data|] + Taken(calls[1..], net, n + 1)
      case TakeOver => if net(n).ok then [] else Taken(calls[1..], net, n + 1)
  }

  /** Whether the body dies on a call it makes after it took the connection over. */
  predicate DiesDetached(calls: seq<StreamCall>, net: Network, n: nat)
    decreases |calls|
  {
    calls != [] &&
    match calls[0].op
    case WriteHeader(_) => DiesDetached(calls[1..], net, n)
    case Write(_) => DiesDetached(calls[1..], net, n + 1)
    case TakeOver => if net(n).ok then EndsWithoutWriter(calls[1..]) else DiesDetached(calls[1..], net, n + 1)
  }

  /** A detached writer sends nothing, and dies on the first call whose panic is not recovered. */
  lemma {:induction false} DetachedSendsNothing(s: Stream, calls: seq<StreamCall>, net: Network)
    requires Committed(s) && !s.attached
    ensures AfterCalls(s, calls, net).stream.conn.accepted == s.conn.accepted
    ensures AfterCalls(s, calls, net).panicked <==> EndsWithoutWriter(calls)
    decreases |calls|
  {
    if calls != [] {
      var step := AfterOp(s, calls[0].op, net);
      if step.panicked && !calls[0].recovers {
        assert !calls[0].op.TakeOver?;
      } else {
        CommittedIsKept(s, calls[0].op, net);
        DetachedSendsNothing(step.stream, calls[1..], net);
        forall k | 0 <= k < |calls| && !calls[k].op.TakeOver? && !calls[k].recovers
          ensures 0 < k && calls[k] == calls[1..][k - 1]
        {
        }
      }
    }
  }

  /** Every call of a body on a committed writer runs: of each write the client gets what the network takes. */
  lemma {:induction false} CallsReachTheClient(s: Stream, calls: seq<StreamCall>, net: Network)
    requires Committed(s) && s.attached
    ensures AfterCalls(s, calls, net).stream.conn.accepted == s.conn.accepted + Taken(calls, net, s.conn.answered)
    ensures AfterCalls(s, calls, net).panicked <==> DiesDetached(calls, net, s.conn.answered)
    decreases |calls|
  {
    if calls != [] {
      var step := AfterOp(s, calls[0].op, net);
      CommittedIsKept(s, calls[0].op, net);
      assert !step.panicked && AfterCalls(s, calls, net) == AfterCalls(step.stream, calls[1..], net);
      if step.stream.attached {
        CallsReachTheClient(step.stream, calls[1..], net);
      } else {
        DetachedSendsNothing(step.stream, calls[1..], net);
      }
    }
  }

  /** A network that takes every write whole takes the whole of a body that keeps its connection. */
  lemma {:induction false} EverythingIsTaken(calls: seq<StreamCall>, net: Network, n: nat)
    requires NoTakeOver(calls)
    requires forall k, m: nat :: 0 <= k < |calls| && calls[k].op.Write? ==> |calls[k].op.data| <= net(m).count
    ensures Taken(calls, net, n) == Payloads(calls) && !DiesDetached(calls, net, n)
    decreases |calls|
  {
    if calls != [] {
      forall k, m: nat | 0 <= k < |calls[1..]| && calls[1..][k].op.Write?
        ensures |calls[1..][k].op.data| <= net(m).count
      {
        assert calls[1..][k] == calls[k + 1];
      }
      EverythingIsTaken(calls[1..], net, if calls[0].op.Write? then n + 1 else n);
    }
  }
}
