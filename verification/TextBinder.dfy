/**
 bindForm and bindJson as the program of the goroutine in `bindFullTextBodyWithTimeout`, and what `parse` sees
 of the race: the charset sniffing, the reads, the decoding, the trailing check and the binding, each with the
 status the code sends for its failure.
 */
module TextBinders {
  import opened Wire
  import opened RequestTags
  import opened TagTheorems
  import opened Charsets
  import opened JsonBodies
  import opened BodyRaces
  import opened Binding
  import opened DirectBindings

  /** A request body as the network delivers it, one piece a read, and its charset parameter. */
  datatype TextRequest = TextRequest(pieces: seq<Bytes>, charset: Option<string>)

  /** What `Decode` into the target comes to; user code of the target's type may panic in it. */
  datatype Decoding = Refused | Panics | Decoded(data: Data, document: nat)

  /** `charset.Lookup`, the JSON scanner, `url.ParseQuery` and the decoding of one scanned JSON value. */
  datatype Decoders = Decoders(
    lookup: string -> Option<Decoder>,
    grammar: Grammar,
    form: Bytes -> Option<Data>,
    json: Bytes -> Decoding)

  // ---------- what the body comes to when every read succeeds ----------

  /** The decoded text, as `charsetReader` yields it; None for an unknown charset. */
  function TextOfBody(d: Decoders, body: TextRequest): Option<Bytes> {
    if body.charset.None? then Some(SniffedText(Joined(body.pieces)))
    else
      var decoder := d.lookup(body.charset.value);
      if decoder.None? then None else Some(decoder.value(Joined(body.pieces)))
  }

  function FormText(values: Option<Data>): TextBody {
    if values.Some? then Content(values.value, 0) else Malformed
  }

  function ReadText(decoding: Decoding): TextBody {
    match decoding
    case Refused => Malformed
    case Panics => BinderPanics
    case Decoded(data, document) => Content(data, document)
  }

  /** A JSON body is one value that its target takes, followed by white space. */
  function JsonText(d: Decoders, text: Bytes): TextBody {
    var end := FirstValue(d.grammar, text);
    if end.None? || end.value > |text| then Malformed
    else
      var read := ReadText(d.json(text[..end.value]));
      if read.Content? && !AllSpace(text[end.value..]) then Malformed else read
  }

  function Finished(d: Decoders, body: TextRequest, s: Source): TextBody {
    var text := TextOfBody(d, body);
    if text.None? then BadCharset
    else if s == Form then FormText(d.form(text.value))
    else JsonText(d, text.value)
  }

  /** charsetReader, the reads, the decoding and the trailing check, one after the other, with no read failing. */
  method ReadBody(d: Decoders, body: TextRequest, s: Source) returns (read: TextBody)
    requires s == Form || s == Json
    ensures read == Finished(d, body, s)
  {
    var reader := new BufferedReader(body.pieces);
    var decoder := CharsetReader(reader, body.charset, d.lookup);
    if decoder.None? {
      return BadCharset;
    }
    var text := TextOf(decoder.value, reader.buffer + Joined(reader.pieces));
    if s == Form {
      return FormText(d.form(text));
    }
    assert Joined([text]) == text;
    var value := Decode(d.grammar, [text]);
    if value.None? {
      return Malformed;
    }
    var end := value.value.end;
    var remaining := value.value.buffered[end..] + Joined(value.value.unread);
    assert value.value.buffered[..end] == text[..end] && remaining == text[end..];
    read := ReadText(d.json(value.value.buffered[..end]));
    if read.Content? {
      var trailing := HasTrailingData(remaining);
      if trailing {
        read := Malformed;
      }
    }
  }

  /** `text` is the body in UTF-8: by its charset parameter, or sniffed. */
  ghost predicate IsText(d: Decoders, body: TextRequest, text: Bytes) {
    match body.charset
    case None => text == SniffedText(Joined(body.pieces))
    case Some(charset) => d.lookup(charset).Some? && text == d.lookup(charset).value(Joined(body.pieces))
  }

  /** The first value of the text is `text[..end]`, and decoding it comes to `decoding`. */
  ghost predicate DecodesTo(d: Decoders, text: Bytes, end: nat, decoding: Decoding) {
    end <= |text| && EndsAt(d.grammar, 0, text, 0, end) && d.json(text[..end]) == decoding
  }

  /** A form body is the data its text parses to, and malformed exactly if it does not parse. */
  lemma FormIsReadExactly(d: Decoders, body: TextRequest, text: Bytes)
    requires IsText(d, body, text)
    ensures
      var read := Finished(d, body, Form);
      match d.form(text)
      case Some(data) => read.Content? && read.data == data
      case None => read == Malformed
  {
  }

  /** A JSON body is what its first value decodes to, if only white space follows; a panic in decoding comes first. */
  lemma JsonIsReadExactly(d: Decoders, body: TextRequest, text: Bytes, data: Data, document: nat)
    requires IsText(d, body, text)
    ensures Finished(d, body, Json) == Content(data, document) <==>
      exists end: nat :: DecodesTo(d, text, end, Decoding.Decoded(data, document)) &&
        forall k :: end <= k < |text| ==> text[k] in {0x20, 0x09, 0x0D, 0x0A}
    ensures Finished(d, body, Json) == TextBody.BinderPanics <==> exists end: nat :: DecodesTo(d, text, end, Decoding.Panics)
    ensures Finished(d, body, Json) in {Malformed, TextBody.BinderPanics} || Finished(d, body, Json).Content?
  {
    forall end: nat
      ensures FirstValue(d.grammar, text) == Some(end) <==> EndsAt(d.grammar, 0, text, 0, end)
    {
      FirstValueExactly(d.grammar, text, end);
    }
    var first := FirstValue(d.grammar, text);
    if first.Some? && first.value <= |text| {
      var end := first.value;
      assert AllSpace(text[end..]) <==> forall k :: end <= k < |text| ==> text[k] in {0x20, 0x09, 0x0D, 0x0A} by {
        forall k | end <= k < |text|
          ensures text[k] == text[end..][k - end]
        {
        }
      }
      assert DecodesTo(d, text, end, d.json(text[..end]));
    }
  }

  /** An unknown charset, and nothing else, keeps a body from being read. */
  lemma UnknownCharsetIsRefused(d: Decoders, body: TextRequest, s: Source)
    requires s == Form || s == Json
    ensures Finished(d, body, s) == BadCharset <==> !exists text :: IsText(d, body, text)
  {
    match body.charset
    case None => assert IsText(d, body, SniffedText(Joined(body.pieces)));
    case Some(charset) =>
      if d.lookup(charset).Some? {
        assert IsText(d, body, d.lookup(charset).value(Joined(body.pieces)));
      }
  }

  // ---------- the goroutine ----------

  /**
   How the readers divide the body: reads made while sniffing, and further reads the JSON decoder makes before it
   has decided on the first value. Buffering makes them arbitrary.
   */
  datatype Plan = Plan(sniffs: nat, decides: nat)

  /** One bind: `named` is what binding the named fields comes to, or `Parsed` when the source has a whole field. */
  datatype Job = Job(decoders: Decoders, body: TextRequest, source: Source, whole: bool, named: Bound, plan: Plan)

  predicate Sound(job: Job) {
    && (job.source == Form || job.source == Json)
    && job.named in {Parsed, Rejected(400), PanickedBinder}
    && (job.whole ==> job.named == Parsed)
  }

  function MessageOf(bound: Bound): Message {
    match bound
    case Parsed => Result(0, false)
    case Rejected(status) => Result(status, true)
    case PanickedBinder => Recovered
  }

  const REFUSE := Send(Result(400, true))

  /** `n` reads in a row; the first one that fails ends them. */
  function Reads(n: nat, next: Code, onFail: Code): Code {
    if n == 0 then next else Read(Reads(n - 1, next, onFail), onFail)
  }

  /** `Set` of the whole field, or `BindStructWithTag` on the named fields; it is the last thing before the send. */
  function BindFields(job: Job): Code {
    Touch(Send(MessageOf(job.named)))
  }

  /** `bindForm` with `left` reads to the end of the body. */
  function FormCode(job: Job, text: Bytes, left: nat): Code {
    Reads(left, if job.decoders.form(text).Some? then BindFields(job) else REFUSE, Send(Result(500, true)))
  }

  /** `bindJson` once the decoder has decided on the first value: for a whole field decoding touches it. */
  function DecodedCode(job: Job, text: Bytes, left: nat): Code {
    var end := FirstValue(job.decoders.grammar, text);
    if end.None? || end.value > |text| then REFUSE
    else
      var checked :=
        if !AllSpace(text[end.value..]) then REFUSE
        else if job.whole then Send(Result(0, false))
        else BindFields(job);
      var after :=
        match job.decoders.json(text[..end.value])
        case Refused => REFUSE
        case Panics => Send(Recovered)
        case Decoded(_, _) => Reads(left, checked, REFUSE);
      if job.whole then Touch(after) else after
  }

  /** `bindJson`: the reads until the first value is decided, its decoding, the rest of the body and its check. */
  function JsonCode(job: Job, text: Bytes, left: nat): Code {
    var first := if job.plan.decides < left then job.plan.decides else left;
    Reads(first, DecodedCode(job, text, left - first), REFUSE)
  }

  function BinderCode(job: Job, text: Bytes, left: nat): Code {
    if job.source == Form then FormCode(job, text, left) else JsonCode(job, text, left)
  }

  /** Sniffing ignores a failed read; the binder meets the failure again at its own next read. */
  function Sniffing(job: Job, text: Bytes, sniffs: nat, left: nat): Code {
    if sniffs == 0 || left == 0 then BinderCode(job, text, left)
    else Read(Sniffing(job, text, sniffs - 1, left - 1), BinderCode(job, text, left))
  }

  /** The goroutine of one bind: only an unknown charset ends it before any read. */
  function Goroutine(job: Job): Code {
    var text := TextOfBody(job.decoders, job.body);
    if text.None? then Send(Result(415, true))
    else Sniffing(job, text.value, SniffedReads(job), |job.body.pieces|)
  }

  function SniffedReads(job: Job): nat {
    if job.body.charset.Some? then 0 else job.plan.sniffs
  }

  // ---------- what the goroutine can send ----------

  /** The text body when no read fails. */
  function WholeText(job: Job): TextBody {
    Finished(job.decoders, job.body, job.source)
  }

  /**
   The text body when the read after `got` successful ones fails, and with it every later one. It is a read failure,
   unless sniffing met it and the JSON decoder finds its value in what was sniffed: decoding that value may panic
   before the next read.
   */
  function CutOff(job: Job, got: nat): TextBody {
    if job.source == Json && got < SniffedReads(job) && job.plan.decides == 0 && WholeText(job) == TextBody.BinderPanics
    then TextBody.BinderPanics else ReadFailed
  }

  /** The outcome a text body calls for, and the message that carries it. */
  function OutcomeFor(job: Job, text: TextBody): Bound {
    Then(OutcomeOfText(text, job.source), job.named)
  }

  function MessageFor(job: Job, text: TextBody): Message {
    MessageOf(OutcomeFor(job, text))
  }

  /** With every read failing the code ends in `message`. */
  predicate FailsWith(code: Code, message: Message) {
    match code
    case Send(sent) => sent == message
    case Touch(rest) => FailsWith(rest, message)
    case Read(_, onFail) => FailsWith(onFail, message)
  }

  /**
   After `got` successful reads: if all later ones succeed the code sends the message for the whole body, and only
   after its last piece if that is a success; from the first one that fails, the message for the body cut off there.
   */
  predicate SendsWhatItRead(code: Code, job: Job, got: nat) {
    match code
    case Send(sent) => sent == MessageFor(job, WholeText(job)) && (sent == Result(0, false) ==> got == |job.body.pieces|)
    case Touch(rest) => SendsWhatItRead(rest, job, got)
    case Read(onData, onFail) =>
      && got < |job.body.pieces|
      && SendsWhatItRead(onData, job, got + 1)
      && FailsWith(onFail, MessageFor(job, CutOff(job, got)))
  }

  lemma {:induction false} ReadsSend(job: Job, n: nat, next: Code, got: nat)
    requires got + n <= |job.body.pieces| && SendsWhatItRead(next, job, got + n)
    requires n == 0 || SniffedReads(job) <= got
    ensures SendsWhatItRead(Reads(n, next, Send(MessageFor(job, ReadFailed))), job, got)
  {
    if n > 0 {
      ReadsSend(job, n - 1, next, got + 1);
    }
  }

  /** The last operations of a bind, once the whole body was read. */
  lemma DecodedSends(job: Job, text: Bytes, left: nat, got: nat)
    requires Sound(job) && job.source == Json && TextOfBody(job.decoders, job.body) == Some(text)
    requires got + left == |job.body.pieces| && (left == 0 || SniffedReads(job) <= got)
    ensures SendsWhatItRead(DecodedCode(job, text, left), job, got)
  {
    var end := FirstValue(job.decoders.grammar, text);
    if end.Some? && end.value <= |text| && job.decoders.json(text[..end.value]).Decoded? {
      var checked :=
        if !AllSpace(text[end.value..]) then REFUSE
        else if job.whole then Send(Result(0, false))
        else BindFields(job);
      ReadsSend(job, left, checked, got);
    }
  }

  lemma BinderSends(job: Job, text: Bytes, left: nat, got: nat)
    requires Sound(job) && TextOfBody(job.decoders, job.body) == Some(text)
    requires got + left == |job.body.pieces| && (left == 0 || SniffedReads(job) <= got)
    ensures SendsWhatItRead(BinderCode(job, text, left), job, got)
  {
    if job.source == Form {
      ReadsSend(job, left, if job.decoders.form(text).Some? then BindFields(job) else REFUSE, got);
    } else {
      var first := if job.plan.decides < left then job.plan.decides else left;
      DecodedSends(job, text, left - first, got + first);
      ReadsSend(job, first, DecodedCode(job, text, left - first), got);
    }
  }

  /** The binder behind a failed sniff, with a piece of the body still missing. */
  lemma BinderFails(job: Job, text: Bytes, left: nat, got: nat)
    requires Sound(job) && TextOfBody(job.decoders, job.body) == Some(text)
    requires left > 0 && got < SniffedReads(job)
    ensures FailsWith(BinderCode(job, text, left), MessageFor(job, CutOff(job, got)))
  {
  }

  lemma {:induction false} SniffingSends(job: Job, text: Bytes, sniffs: nat, left: nat, got: nat)
    requires Sound(job) && TextOfBody(job.decoders, job.body) == Some(text)
    requires got + left == |job.body.pieces| && got + sniffs == SniffedReads(job)
    ensures SendsWhatItRead(Sniffing(job, text, sniffs, left), job, got)
    decreases sniffs
  {
    if sniffs == 0 || left == 0 {
      BinderSends(job, text, left, got);
    } else {
      SniffingSends(job, text, sniffs - 1, left - 1, got + 1);
      BinderFails(job, text, left, got);
    }
  }

  /**
   However the reads are divided, the goroutine sends what the whole body calls for if no read fails, success only
   after the last piece, and otherwise what the body calls for when it is cut off at the first failed read.
   */
  lemma GoroutineSends(job: Job)
    requires Sound(job)
    ensures SendsWhatItRead(Goroutine(job), job, 0)
  {
    var text := TextOfBody(job.decoders, job.body);
    if text.Some? {
      SniffingSends(job, text.value, SniffedReads(job), |job.body.pieces|, 0);
    }
  }

  /** No way through the code ends in success without a touch of `parsed`. */
  predicate TouchesFirst(code: Code) {
    match code
    case Send(message) => message != Result(0, false)
    case Touch(_) => true
    case Read(onData, onFail) => TouchesFirst(onData) && TouchesFirst(onFail)
  }

  lemma {:induction false} ReadsTouch(n: nat, next: Code, onFail: Code)
    requires TouchesFirst(next) && TouchesFirst(onFail)
    ensures TouchesFirst(Reads(n, next, onFail))
  {
    if n > 0 {
      ReadsTouch(n - 1, next, onFail);
    }
  }

  lemma BinderTouches(job: Job, text: Bytes, left: nat)
    ensures TouchesFirst(BinderCode(job, text, left))
  {
    if job.source == Form {
      ReadsTouch(left, if job.decoders.form(text).Some? then BindFields(job) else REFUSE, Send(Result(500, true)));
    } else {
      var first := if job.plan.decides < left then job.plan.decides else left;
      ReadsTouch(left - first, REFUSE, REFUSE);
      ReadsTouch(left - first, BindFields(job), REFUSE);
      ReadsTouch(first, DecodedCode(job, text, left - first), REFUSE);
    }
  }

  lemma {:induction false} SniffingTouches(job: Job, text: Bytes, sniffs: nat, left: nat)
    ensures TouchesFirst(Sniffing(job, text, sniffs, left))
    decreases sniffs
  {
    BinderTouches(job, text, left);
    if sniffs > 0 && left > 0 {
      SniffingTouches(job, text, sniffs - 1, left - 1);
    }
  }

  /** Whether the goroutine ever touched `parsed`. */
  predicate BinderTouched(touches: seq<Owner>) {
    touches != [] && (touches[|touches| - 1] == TheBinder || BinderTouched(touches[..|touches| - 1]))
  }

  lemma OneMoreTouch(touches: seq<Owner>, owner: Owner)
    ensures BinderTouched(touches + [owner]) <==> owner == TheBinder || BinderTouched(touches)
  {
    assert (touches + [owner])[..|touches|] == touches;
  }

  /** The goroutine is on its way to a touch, or made one, unless it fails. */
  ghost predicate TouchedBySuccess(st: State) {
    TouchesFirst(st.program) &&
    match st.binder
    case NotStarted => true
    case Running(code) => BinderTouched(st.touches) || TouchesFirst(code)
    case Ended(sent) => BinderTouched(st.touches) || sent != Result(0, false)
  }

  lemma GoroutineTouches(job: Job)
    ensures TouchesFirst(Goroutine(job))
  {
    var text := TextOfBody(job.decoders, job.body);
    if text.Some? {
      SniffingTouches(job, text.value, SniffedReads(job), |job.body.pieces|);
    }
  }

  lemma MoveKeepsTouched(st: State)
    requires TouchedBySuccess(st) && BinderCanMove(st)
    ensures TouchedBySuccess(Step(st, BinderMoves))
  {
    OneMoreTouch(st.touches, TheBinder);
  }

  lemma CallerKeepsTouched(st: State)
    requires TouchedBySuccess(st)
    ensures TouchedBySuccess(Step(st, CallerTouches))
  {
    OneMoreTouch(st.touches, TheCaller);
  }

  lemma StepKeepsTouched(st: State, c: Choice)
    requires TouchedBySuccess(st)
    ensures TouchedBySuccess(Step(st, c))
  {
    match c
    case BinderMoves => if BinderCanMove(st) { MoveKeepsTouched(st); }
    case CallerTouches => CallerKeepsTouched(st);
    case _ => assert Step(st, c).touches == st.touches;
  }

  lemma {:induction false} SuccessWasTouched(contentLength: int, program: Code, choices: seq<Choice>)
    requires TouchesFirst(program)
    ensures TouchedBySuccess(After(Start(contentLength, program), choices))
  {
    if choices != [] {
      var rest := choices[..|choices| - 1];
      SuccessWasTouched(contentLength, program, rest);
      StepKeepsTouched(After(Start(contentLength, program), rest), choices[|choices| - 1]);
    }
  }

  // ---------- the race as parse sees it ----------

  /** Every read from here on fails. */
  predicate NothingMore(st: State) {
    st.closed || (st.broken && st.arrived == 0)
  }

  /** Where the goroutine is, it can only send the message for what it has read. */
  ghost predicate OnCourse(st: State, job: Job) {
    match st.binder
    case NotStarted => !st.readFailed && st.received == 0 && SendsWhatItRead(st.program, job, 0)
    case Running(code) =>
      if st.readFailed then NothingMore(st) && FailsWith(code, MessageFor(job, CutOff(job, st.received)))
      else SendsWhatItRead(code, job, st.received)
    case Ended(sent) =>
      if st.readFailed then sent == MessageFor(job, CutOff(job, st.received))
      else sent == MessageFor(job, WholeText(job)) && (sent == Result(0, false) ==> st.received == |job.body.pieces|)
  }

  lemma MoveStaysOnCourse(st: State, job: Job)
    requires BinderCanMove(st) && OnCourse(st, job)
    ensures OnCourse(Step(st, BinderMoves), job)
  {
  }

  lemma StepStaysOnCourse(st: State, c: Choice, job: Job)
    requires Protocol(st) && OnCourse(st, job)
    ensures OnCourse(Step(st, c), job)
  {
    if c.BinderMoves? && BinderCanMove(st) {
      MoveStaysOnCourse(st, job);
    }
  }

  lemma {:induction false} RunStaysOnCourse(contentLength: int, job: Job, choices: seq<Choice>)
    requires Sound(job)
    ensures OnCourse(After(Start(contentLength, Goroutine(job)), choices), job)
  {
    if choices == [] {
      GoroutineSends(job);
    } else {
      var rest := choices[..|choices| - 1];
      RunStaysOnCourse(contentLength, job, rest);
      NeverShared(contentLength, Goroutine(job), rest);
      StepStaysOnCourse(After(Start(contentLength, Goroutine(job)), rest), choices[|choices| - 1], job);
    }
  }

  /** The text body that a race leaves for `parse`: given up, cut off by a failed read, or read to its end. */
  function Left(st: State, job: Job): TextBody {
    if st.closed then TimedOut else if st.readFailed then CutOff(job, st.received) else WholeText(job)
  }

  function CallerOutcome(caller: Caller): Binding.Bound
    requires caller.Bound? || caller.Failed? || caller.Panicking?
  {
    match caller
    case Bound(_) => Parsed
    case Failed(status) => Rejected(status)
    case Panicking => PanickedBinder
  }

  /** The goroutine was started exactly if the length check let it; otherwise the check's status is the outcome. */
  ghost predicate LengthDecided(st: State) {
    && (!st.binder.NotStarted? ==> 0 <= st.contentLength <= 1024 * 1024)
    && (st.binder.NotStarted? && !st.caller.Preparing? ==>
          st.caller == Failed(if st.contentLength < 0 then 411 else 413)
          && !(0 <= st.contentLength <= 1024 * 1024))
  }

  lemma StepKeepsLengthDecided(st: State, c: Choice)
    requires Protocol(st) && LengthDecided(st)
    ensures LengthDecided(Step(st, c)) && Step(st, c).contentLength == st.contentLength
  {
  }

  lemma {:induction false} LengthDecides(contentLength: int, program: Code, choices: seq<Choice>)
    ensures
      var st := After(Start(contentLength, program), choices);
      LengthDecided(st) && st.contentLength == contentLength
  {
    if choices != [] {
      var rest := choices[..|choices| - 1];
      LengthDecides(contentLength, program, rest);
      NeverShared(contentLength, program, rest);
      StepKeepsLengthDecided(After(Start(contentLength, program), rest), choices[|choices| - 1]);
    }
  }

  /** The bind that `parse` starts for a request of type `t`: its values are bound as those of the whole body. */
  ghost function JobOf(
      t: GoType, tags: Tags, request: MatchedRequest, lib: Library, s: Source,
      d: Decoders, body: TextRequest, plan: Plan): (job: Job)
    requires s == Form || s == Json
    ensures Sound(job)
  {
    var named := SourceOutcome(t, tags, request.(text := Finished(d, body, s)), lib, s);
    Job(d, body, s, s in tags.index, named, plan)
  }

  /** What the caller of a started goroutine gets is the outcome of the text body that is left. */
  lemma CallerGetsTheTextLeft(job: Job, st: State)
    requires Sound(job) && Protocol(st) && HasOutcome(st) && OnCourse(st, job) && !st.binder.NotStarted?
    ensures CallerOutcome(st.caller) == OutcomeFor(job, Left(st, job))
  {
  }

  /** And that is the outcome of `parse` on the request with that text body. */
  lemma OutcomeIsOfTheTextLeft(
      t: GoType, tags: Tags, request: MatchedRequest, lib: Library, job: Job, st: State)
    requires Sound(job) && SelectBody(tags, request) == Select(job.source)
    requires job.named == SourceOutcome(t, tags, request.(text := WholeText(job)), lib, job.source)
    requires Protocol(st) && LengthDecided(st) && HasOutcome(st) && st.contentLength == request.contentLength
    requires OnCourse(st, job)
    ensures CallerOutcome(st.caller) == BodyOutcome(t, tags, request.(text := Left(st, job)), lib)
  {
    var left: MatchedRequest := request.(text := Left(st, job));
    var s := job.source;
    assert SelectBody(tags, left) == Select(s);
    assert BodyOutcome(t, tags, left, lib) == Then(TextOutcome(left, s), SourceOutcome(t, tags, left, lib, s));
    if !st.binder.NotStarted? {
      CallerGetsTheTextLeft(job, st);
      assert TextOutcome(left, s) == OutcomeOfText(Left(st, job), s);
    }
  }

  /**
   For every body, every division of its reads and every interleaving of the goroutine, the caller, the network and
   the clock: what the caller gets is exactly the outcome that `parse` assigns to the text body the race leaves,
   which is given by whether the caller gave up and by where a read failed.
   */
  lemma RaceIsItsTextBody(
      t: GoType, tags: Tags, request: MatchedRequest, lib: Library, s: Source,
      d: Decoders, body: TextRequest, plan: Plan, choices: seq<Choice>)
    requires (s == Form || s == Json) && SelectBody(tags, request) == Select(s)
    requires HasOutcome(
      After(Start(request.contentLength, Goroutine(JobOf(t, tags, request, lib, s, d, body, plan))), choices))
    ensures
      var job := JobOf(t, tags, request, lib, s, d, body, plan);
      var st := After(Start(request.contentLength, Goroutine(job)), choices);
      CallerOutcome(st.caller) == BodyOutcome(t, tags, request.(text := Left(st, job)), lib)
  {
    var job := JobOf(t, tags, request, lib, s, d, body, plan);
    RunStaysOnCourse(request.contentLength, job, choices);
    NeverShared(request.contentLength, Goroutine(job), choices);
    LengthDecides(request.contentLength, Goroutine(job), choices);
    OutcomeIsOfTheTextLeft(t, tags, request, lib, job, After(Start(request.contentLength, Goroutine(job)), choices));
  }

  /**
   So in every interleaving a body bind that fails does so with an error status; a nil error means that no read
   failed, every piece of the body was received, and the whole body was decoded and bound; and a panic is one of
   decoding or converting its values.
   */
  lemma EveryRaceEndsInAnErrorStatusOrTheBody(contentLength: int, job: Job, choices: seq<Choice>)
    requires Sound(job)
    ensures
      var st := After(Start(contentLength, Goroutine(job)), choices);
      && (st.caller.Failed? ==> IsErrorStatus(st.caller.status))
      && (st.caller.Bound? ==>
            && !st.readFailed && st.received == |job.body.pieces|
            && WholeText(job).Content? && job.named == Parsed && BinderTouched(st.touches))
      && (st.caller.Panicking? ==>
            WholeText(job).BinderPanics? || (WholeText(job).Content? && job.named == PanickedBinder && !st.readFailed))
  {
    RunStaysOnCourse(contentLength, job, choices);
    NeverShared(contentLength, Goroutine(job), choices);
    GoroutineTouches(job);
    SuccessWasTouched(contentLength, Goroutine(job), choices);
  }

  // ---------- a client that sends its body ----------

  function Repeat(c: Choice, n: nat): seq<Choice> {
    if n == 0 then [] else Repeat(c, n - 1) + [c]
  }

  lemma {:induction false} DataArrived(st: State, n: nat)
    requires !st.broken
    ensures After(st, Repeat(DataArrives, n)) == st.(arrived := st.arrived + n)
  {
    if n > 0 {
      DataArrived(st, n - 1);
      assert Repeat(DataArrives, n)[..|Repeat(DataArrives, n)| - 1] == Repeat(DataArrives, n - 1);
    }
  }

  /** The goroutine runs with all the data it may still read at hand, and has not failed. */
  ghost predicate WellFed(st: State, job: Job) {
    && OnCourse(st, job) && !st.readFailed && !st.closed && st.channel == (if st.binder.Ended? then Some(st.binder.sent) else None)
    && !st.binder.NotStarted? && st.arrived + st.received >= |job.body.pieces|
  }

  lemma TurnKeepsWellFed(st: State, job: Job)
    requires WellFed(st, job)
    ensures
      var after := Step(st, BinderMoves);
      && WellFed(after, job) && after.caller == st.caller
      && (st.binder.Running? ==> Remaining(after.binder) < Remaining(st.binder))
      && (st.binder.Ended? ==> after == st)
  {
    if st.binder.Running? {
      assert BinderCanMove(st);
      MoveStaysOnCourse(st, job);
    }
  }

  lemma {:induction false} TurnsEnd(st: State, job: Job, n: nat)
    requires WellFed(st, job)
    ensures
      var after := After(st, Repeat(BinderMoves, n));
      && WellFed(after, job) && after.caller == st.caller
      && (after.binder.Ended? || Remaining(after.binder) + n <= Remaining(st.binder))
  {
    if n > 0 {
      TurnsEnd(st, job, n - 1);
      assert Repeat(BinderMoves, n)[..|Repeat(BinderMoves, n)| - 1] == Repeat(BinderMoves, n - 1);
      TurnKeepsWellFed(After(st, Repeat(BinderMoves, n - 1)), job);
    }
  }

  /**
   A bind can succeed: if the body arrives before the goroutine reads it and nobody gives up, the caller gets the
   outcome of the whole body as soon as the goroutine had its turns.
   */
  lemma PromptBodyIsBound(contentLength: int, job: Job, pieces: nat, turns: nat)
    requires Sound(job) && 0 <= contentLength <= 1024 * 1024
    requires pieces >= |job.body.pieces| && turns >= Height(Goroutine(job))
    ensures
      var run := [CallerBindsBody] + Repeat(DataArrives, pieces) + Repeat(BinderMoves, turns) + [CallerTakesDone];
      var end := After(Start(contentLength, Goroutine(job)), run);
      HasOutcome(end) && CallerOutcome(end.caller) == OutcomeFor(job, WholeText(job))
  {
    var start, arrive, move := Start(contentLength, Goroutine(job)), Repeat(DataArrives, pieces), Repeat(BinderMoves, turns);
    var bound := [CallerBindsBody];
    assert bound[..0] == [] && After(start, bound) == Step(start, CallerBindsBody);
    AfterBoth(start, bound, arrive);
    AfterBoth(start, bound + arrive, move);
    RunStaysOnCourse(contentLength, job, bound);
    var fed := After(start, bound + arrive);
    DataArrived(After(start, bound), pieces);
    TurnsEnd(fed, job, turns);
    var done := After(start, bound + arrive + move);
    assert (bound + arrive + move + [CallerTakesDone])[..|bound + arrive + move|] == bound + arrive + move;
    assert done.binder.Ended?;
  }

  /** After a failed read, unless it gave up, the caller gets the read failure or the decoder's panic, nothing else. */
  lemma FailedReadFails(contentLength: int, job: Job, choices: seq<Choice>)
    requires Sound(job)
    ensures
      var st := After(Start(contentLength, Goroutine(job)), choices);
      st.readFailed && !st.closed && HasOutcome(st) ==>
        st.caller == if CutOff(job, st.received) == ReadFailed then Failed(if job.source == Form then 500 else 400)
                     else Panicking
  {
    RunStaysOnCourse(contentLength, job, choices);
    NeverShared(contentLength, Goroutine(job), choices);
  }

  // ---------- from the text to the field ----------

  /** The named values of a text that is read to its end. */
  ghost predicate HasData(d: Decoders, text: Bytes, s: Source, data: Data) {
    if s == Form then d.form(text) == Some(data)
    else exists end: nat, document :: DecodesTo(d, text, end, Decoding.Decoded(data, document))
  }

  /** After a successful parse a named form or JSON field holds the conversion of its value in the body's text. */
  lemma NamedBodyField(
      t: GoType, tags: Tags, request: MatchedRequest, lib: Library, record: Record, path: Path, f: Field,
      s: Source, d: Decoders, body: TextRequest, text: Bytes)
    requires Compile(t, true) == Some(tags) && Outcome(t, tags, request, lib) == Parsed
    requires path in record && IsLeaf(t, path) && FieldByIndex(t, path) == Some(f)
    requires (s == Form || s == Json) && BodySource(t, request) == Some(s) && request.text == Finished(d, body, s)
    requires s in f.tags && f.tags[s] != "" && IsText(d, body, text)
    ensures
      var after := Sources(t, tags, request, lib, record, |SOURCES|);
      && path in after && request.text.Content?
      && HasData(d, text, s, request.text.data)
      && (f.tags[s] in request.text.data ==> lib.convert(f.typ, request.text.data[f.tags[s]]) == Fits(after[path]))
  {
    NamedBodyFieldIsBound(t, tags, request, lib, record, path, f, s);
    TextHasItsData(d, body, text, s);
  }

  lemma TextHasItsData(d: Decoders, body: TextRequest, text: Bytes, s: Source)
    requires (s == Form || s == Json) && IsText(d, body, text) && Finished(d, body, s).Content?
    ensures HasData(d, text, s, Finished(d, body, s).data)
  {
    var read := Finished(d, body, s);
    if s == Form {
      FormIsReadExactly(d, body, text);
    } else {
      JsonIsReadExactly(d, body, text, read.data, read.document);
      var end: nat :| DecodesTo(d, text, end, Decoding.Decoded(read.data, read.document));
    }
  }
}
