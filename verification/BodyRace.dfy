/**
 The race in request_body.go between the goroutine that reads and binds a form or JSON body and the
 caller that waits for it, for the request's cancellation, or for the timer; with what `requestHandler`
 does with the outcome.

 The goroutine runs a fixed program whose next operation is a read, a touch of `parsed`, or the final send.
 Every interleaving of its steps with the caller, the network and the clock is a sequence of choices.
 */
module BodyRaces {
  import opened Wire

  /** What travels over the channel `done`. */
  datatype Message = Result(status: int, failed: bool) | Recovered

  /**
   What the goroutine does from here on: a read of the body, which goes on differently when it fails; a touch
   of `parsed`; or its only send. A panic is the send of the deferred recover.
   */
  datatype Code = Read(onData: Code, onFail: Code) | Touch(rest: Code) | Send(message: Message)

  datatype Binder = NotStarted | Running(code: Code) | Ended(sent: Message)

  /**
   The caller. `Preparing` is everything before the body (defaults, headers, cookies, query, path),
   `Bound` everything after a nil error (validation and the typed handler); both may touch `parsed`.
   */
  datatype Caller = Preparing | Selecting | Bound(status: int) | Failed(status: int) | Panicking

  /** Who touched `parsed`. */
  datatype Owner = TheCaller | TheBinder

  /**
   `channel` is the one-slot channel; `arrived` counts the reads the network can satisfy by now; `broken` says
   that it will satisfy no more; `received` counts the reads that returned data to the goroutine, and `readFailed`
   remembers that some read failed.
   */
  datatype State = State(
    contentLength: int,
    program: Code,
    caller: Caller,
    binder: Binder,
    channel: Option<Message>,
    arrived: nat,
    broken: bool,
    closed: bool,
    cancelled: bool,
    timerFired: bool,
    received: nat,
    readFailed: bool,
    touches: seq<Owner>)

  datatype Choice =
    | CallerTouches
    | CallerBindsBody
    | CallerTakesDone
    | CallerTakesCancel
    | CallerTakesTimer
    | BinderMoves
    | DataArrives
    | ConnectionBreaks
    | RequestCancelled
    | TimerFires

  const MAX_BODY_LENGTH := 0x10_0000

  function Start(contentLength: int, program: Code): State {
    State(contentLength, program, Preparing, NotStarted, None, 0, false, false, false, false, 0, false, [])
  }

  /** A read returns once data is there, or once it can only fail. */
  predicate ReadReturns(st: State) {
    st.arrived > 0 || st.broken || st.closed
  }

  /** The goroutine's own next operation is possible: a read must return, a send needs the free slot. */
  predicate BinderCanMove(st: State) {
    st.binder.Running? &&
    match st.binder.code
    case Read(_, _) => ReadReturns(st)
    case Touch(_) => true
    case Send(_) => st.channel.None?
  }

  predicate Enabled(st: State, c: Choice) {
    match c
    case CallerTouches => st.caller.Preparing? || st.caller.Bound?
    case CallerBindsBody => st.caller.Preparing?
    case CallerTakesDone => st.caller.Selecting? && st.channel.Some?
    case CallerTakesCancel => st.caller.Selecting? && st.cancelled
    case CallerTakesTimer => st.caller.Selecting? && st.timerFired
    case BinderMoves => BinderCanMove(st)
    case DataArrives => !st.broken
    case ConnectionBreaks => true
    case RequestCancelled => true
    case TimerFires => true
  }

  /** Closing the body is part of giving up on the goroutine. */
  function GiveUp(st: State): State {
    st.(caller := Failed(408), closed := true)
  }

  /** One operation of the goroutine; data that arrived is lost to it once the body is closed. */
  function Move(st: State): State
    requires BinderCanMove(st)
  {
    match st.binder.code
    case Read(onData, onFail) =>
      if st.arrived > 0 && !st.closed then
        st.(arrived := st.arrived - 1, received := st.received + 1, binder := Running(onData))
      else st.(readFailed := true, binder := Running(onFail))
    case Touch(rest) => st.(touches := st.touches + [TheBinder], binder := Running(rest))
    case Send(message) => st.(binder := Ended(message), channel := Some(message))
  }

  function Step(st: State, c: Choice): State {
    if !Enabled(st, c) then st
    else
      match c
      case CallerTouches => st.(touches := st.touches + [TheCaller])
      case CallerBindsBody =>
        if st.contentLength < 0 then st.(caller := Failed(411))
        else if st.contentLength > MAX_BODY_LENGTH then st.(caller := Failed(413))
        else st.(caller := Selecting, binder := Running(st.program))
      case CallerTakesDone =>
        var m := st.channel.value;
        st.(channel := None,
            caller := if m.Recovered? then Panicking else if m.failed then Failed(m.status) else Bound(m.status))
      case CallerTakesCancel => GiveUp(st)
      case CallerTakesTimer => GiveUp(st)
      case BinderMoves => Move(st)
      case DataArrives => st.(arrived := st.arrived + 1)
      case ConnectionBreaks => st.(broken := true)
      case RequestCancelled => st.(cancelled := true)
      case TimerFires => st.(timerFired := true)
  }

  function After(st: State, choices: seq<Choice>): State
    decreases |choices|
  {
    if choices == [] then st else Step(After(st, choices[..|choices| - 1]), choices[|choices| - 1])
  }

  lemma {:induction false} AfterBoth(st: State, a: seq<Choice>, b: seq<Choice>)
    ensures After(st, a + b) == After(After(st, a), b)
    decreases |b|
  {
    if b == [] {
      assert a + b == a;
    } else {
      AfterBoth(st, a, b[..|b| - 1]);
      assert (a + b)[..|a + b| - 1] == a + b[..|b| - 1];
    }
  }

  // ---------- exclusive ownership ----------

  predicate CallerMayTouch(st: State) {
    Enabled(st, CallerTouches)
  }

  predicate BinderMayTouch(st: State) {
    st.binder.Running?
  }

  /** All touches of the caller, then all of the binder, then again only the caller. */
  ghost predicate HandedOver(touches: seq<Owner>, given: nat, returned: nat) {
    && given <= returned <= |touches|
    && (forall k :: 0 <= k < given ==> touches[k] == TheCaller)
    && (forall k :: given <= k < returned ==> touches[k] == TheBinder)
    && (forall k :: returned <= k < |touches| ==> touches[k] == TheCaller)
  }

  /** The protocol invariant: where the result is, given where the two parties are. */
  ghost predicate Protocol(st: State) {
    match st.caller
    case Preparing => st.binder.NotStarted? && st.channel.None? && !st.closed
    case Selecting =>
      && !st.binder.NotStarted? && !st.closed
      && st.channel == (if st.binder.Ended? then Some(st.binder.sent) else None)
    case Bound(status) => st.binder == Ended(Result(status, false)) && st.channel.None? && !st.closed
    case Panicking => st.binder == Ended(Recovered) && st.channel.None? && !st.closed
    case Failed(status) =>
      if st.binder.NotStarted? then status in {411, 413} && st.channel.None? && !st.closed
      else if st.closed then status == 408 && st.channel == (if st.binder.Ended? then Some(st.binder.sent) else None)
      else st.binder == Ended(Result(status, true)) && st.channel.None?
  }

  /** Ownership of `parsed` was handed over at `given` and `returned`, as far as the caller's phase says. */
  ghost predicate OwnedSince(st: State, given: nat, returned: nat) {
    && HandedOver(st.touches, given, returned)
    && (st.caller.Preparing? ==> given == |st.touches|)
    && (!st.caller.Bound? ==> returned == |st.touches|)
  }

  ghost predicate Ownership(st: State) {
    exists given, returned :: OwnedSince(st, given, returned)
  }

  lemma StepKeepsProtocol(st: State, c: Choice)
    requires Protocol(st)
    ensures Protocol(Step(st, c))
  {
  }

  lemma TouchesOnlyGrow(st: State, c: Choice)
    requires Protocol(st)
    ensures
      var after := Step(st, c);
      || after.touches == st.touches
      || (after.touches == st.touches + [TheCaller] && after.caller == st.caller && CallerMayTouch(st))
      || (after.touches == st.touches + [TheBinder] && after.caller == st.caller && (st.caller.Selecting? || st.caller.Failed?))
    ensures Step(st, c).caller.Preparing? ==> st.caller.Preparing?
    ensures st.caller.Bound? ==> Step(st, c).caller.Bound?
  {
  }

  lemma StepKeepsOwnership(st: State, c: Choice)
    requires Protocol(st) && Ownership(st)
    ensures Ownership(Step(st, c))
  {
    var after := Step(st, c);
    var given: nat, returned: nat :| OwnedSince(st, given, returned);
    TouchesOnlyGrow(st, c);
    assert OwnedSince(after, if after.caller.Preparing? then |after.touches| else given,
                      if after.caller.Bound? then returned else |after.touches|);
  }

  /**
   In every interleaving the binder goroutine and the code before and after the bind never own `parsed`
   together: its touches are the caller's, then the binder's, then the caller's again, and the last part
   exists only after a nil error, when the goroutine has ended.
   */
  lemma {:induction false} NeverShared(contentLength: int, program: Code, choices: seq<Choice>)
    ensures
      var st := After(Start(contentLength, program), choices);
      && Protocol(st)
      && Ownership(st)
      && !(CallerMayTouch(st) && BinderMayTouch(st))
      && (st.caller.Bound? ==> st.binder.Ended?)
  {
    if choices == [] {
      assert OwnedSince(Start(contentLength, program), 0, 0);
    } else {
      var rest, c := choices[..|choices| - 1], choices[|choices| - 1];
      NeverShared(contentLength, program, rest);
      StepKeepsProtocol(After(Start(contentLength, program), rest), c);
      StepKeepsOwnership(After(Start(contentLength, program), rest), c);
    }
  }

  lemma FailureStays(st: State, c: Choice)
    requires Protocol(st) && (st.caller.Failed? || st.caller.Panicking?)
    ensures Step(st, c).caller == st.caller
    ensures Step(st, c).touches == st.touches
         || (Step(st, c).touches == st.touches + [TheBinder] && st.caller == Failed(408))
  {
  }

  /** Once the bind has failed, whatever happens later, no caller touches `parsed` and the status stays. */
  lemma {:induction false} FailureIsFinal(st: State, choices: seq<Choice>)
    requires Protocol(st) && (st.caller.Failed? || st.caller.Panicking?)
    ensures
      var end := After(st, choices);
      && Protocol(end)
      && end.caller == st.caller
      && st.touches <= end.touches
      && (forall k :: |st.touches| <= k < |end.touches| ==> end.touches[k] == TheBinder)
      && (end.touches != st.touches ==> st.caller == Failed(408))
  {
    if choices != [] {
      var rest, c := choices[..|choices| - 1], choices[|choices| - 1];
      FailureIsFinal(st, rest);
      StepKeepsProtocol(After(st, rest), c);
      FailureStays(After(st, rest), c);
    }
  }

  // ---------- delivery ----------

  predicate Sends(st: State, c: Choice) {
    c.BinderMoves? && Enabled(st, c) && st.binder.code.Send?
  }

  /** How many messages the goroutine sent in a run. */
  function Sent(st: State, choices: seq<Choice>): nat
    decreases |choices|
  {
    if choices == [] then 0
    else
      var rest, c := choices[..|choices| - 1], choices[|choices| - 1];
      Sent(st, rest) + if Sends(After(st, rest), c) then 1 else 0
  }

  lemma StepSends(st: State, c: Choice)
    requires Protocol(st)
    ensures Sends(st, c) ==> !st.binder.Ended? && Step(st, c).binder.Ended?
    ensures !Sends(st, c) ==> (Step(st, c).binder.Ended? <==> st.binder.Ended?)
  {
  }

  /**
   The goroutine sends exactly one message if it ends and none before, and while it runs the slot is free, so
   a send never waits; the caller's outcome is that message unless it gave up first.
   */
  lemma {:induction false} ExactlyOneMessage(contentLength: int, program: Code, choices: seq<Choice>)
    ensures
      var st := After(Start(contentLength, program), choices);
      && Sent(Start(contentLength, program), choices) == (if st.binder.Ended? then 1 else 0)
      && (st.binder.Running? ==> st.channel.None?)
      && (st.caller.Panicking? ==> st.binder == Ended(Recovered))
      && (st.caller.Bound? ==> st.binder == Ended(Result(st.caller.status, false)))
      && (st.caller.Failed? && !st.closed && !st.binder.NotStarted? ==> st.binder == Ended(Result(st.caller.status, true)))
  {
    NeverShared(contentLength, program, choices);
    if choices != [] {
      var rest, c := choices[..|choices| - 1], choices[|choices| - 1];
      ExactlyOneMessage(contentLength, program, rest);
      NeverShared(contentLength, program, rest);
      StepSends(After(Start(contentLength, program), rest), c);
    }
  }

  /** Taking the result re-raises a recovered panic, and only that. */
  lemma DoneDecides(contentLength: int, program: Code, choices: seq<Choice>)
    requires Enabled(After(Start(contentLength, program), choices), CallerTakesDone)
    ensures
      var st := After(Start(contentLength, program), choices);
      Step(st, CallerTakesDone).caller.Panicking? <==> st.binder == Ended(Recovered)
  {
    NeverShared(contentLength, program, choices);
  }

  // ---------- blocking ----------

  /** The goroutine waits in a read: nothing arrived, the connection holds, and nobody closed the body. */
  predicate Blocked(st: State) {
    st.binder.Running? && st.binder.code.Read? && st.arrived == 0 && !st.broken && !st.closed
  }

  /** A goroutine that runs is stuck if and only if it is blocked in such a read; a send never blocks it. */
  lemma StuckOnlyInARead(contentLength: int, program: Code, choices: seq<Choice>)
    requires After(Start(contentLength, program), choices).binder.Running?
    ensures
      var st := After(Start(contentLength, program), choices);
      !Enabled(st, BinderMoves) <==> Blocked(st)
  {
    NeverShared(contentLength, program, choices);
  }

  /** The steps that end a blocked read: data, a broken connection, or the caller giving up. */
  predicate Unblocks(st: State, c: Choice) {
    c.DataArrives? || c.ConnectionBreaks? || ((c.CallerTakesCancel? || c.CallerTakesTimer?) && Enabled(st, c))
  }

  lemma BlockedUntilUnblocked(st: State, c: Choice)
    requires Protocol(st) && Blocked(st)
    ensures Blocked(Step(st, c)) <==> !Unblocks(st, c)
  {
  }

  /**
   Without the close the goroutine may wait for ever: with a silent client, and a caller that never takes the
   timer or the cancellation, it is blocked after any number of steps of anybody.
   */
  lemma {:induction false} SilenceBlocksForEver(st: State, choices: seq<Choice>)
    requires Protocol(st) && Blocked(st)
    requires forall k :: 0 <= k < |choices| ==>
               choices[k] in {BinderMoves, CallerTakesDone, CallerTouches, CallerBindsBody, RequestCancelled, TimerFires}
    ensures Protocol(After(st, choices)) && Blocked(After(st, choices))
  {
    if choices != [] {
      var rest, c := choices[..|choices| - 1], choices[|choices| - 1];
      SilenceBlocksForEver(st, rest);
      StepKeepsProtocol(After(st, rest), c);
      BlockedUntilUnblocked(After(st, rest), c);
    }
  }

  /** Such a wait is reachable: a program that starts with a read is blocked as soon as it is started. */
  lemma SilentClientBlocks(contentLength: int, onData: Code, onFail: Code, choices: seq<Choice>)
    requires 0 <= contentLength <= MAX_BODY_LENGTH
    requires forall k :: 0 <= k < |choices| ==>
               choices[k] in {BinderMoves, CallerTakesDone, CallerTouches, CallerBindsBody, RequestCancelled, TimerFires}
    ensures Blocked(After(Start(contentLength, Read(onData, onFail)), [CallerBindsBody] + choices))
  {
    var start := Start(contentLength, Read(onData, onFail));
    assert After(start, [CallerBindsBody]) == Step(After(start, []), CallerBindsBody) by {
      assert [CallerBindsBody][..0] == [];
    }
    NeverShared(contentLength, Read(onData, onFail), [CallerBindsBody]);
    AfterBoth(start, [CallerBindsBody], choices);
    SilenceBlocksForEver(After(start, [CallerBindsBody]), choices);
  }

  // ---------- progress ----------

  /** How many operations the goroutine makes at most. */
  function Height(code: Code): (h: nat)
    ensures h > 0
  {
    match code
    case Read(onData, onFail) => 1 + if Height(onData) > Height(onFail) then Height(onData) else Height(onFail)
    case Touch(rest) => 1 + Height(rest)
    case Send(_) => 1
  }

  function Remaining(b: Binder): nat {
    if b.Running? then Height(b.code) else 0
  }

  /** How often the scheduler turns to the goroutine. */
  function Turns(choices: seq<Choice>): nat {
    if choices == [] then 0
    else Turns(choices[..|choices| - 1]) + if choices[|choices| - 1].BinderMoves? then 1 else 0
  }

  /** An operation shortens what is left, and nothing else changes it once the goroutine was started. */
  lemma StepsShorten(st: State, c: Choice)
    ensures
      var after := Step(st, c);
      if c.BinderMoves? && Enabled(st, c) then Remaining(after.binder) < Remaining(st.binder)
      else after.binder == (if c.CallerBindsBody? && after.caller.Selecting? && Enabled(st, c) then Running(st.program)
                            else st.binder)
  {
  }

  lemma EachTurnCounts(st: State, c: Choice)
    requires Protocol(st) && st.closed
    ensures Step(st, c).closed && (Step(st, c).binder.NotStarted? <==> st.binder.NotStarted?)
    ensures c.BinderMoves? && st.binder.Running? ==> Enabled(st, c)
  {
  }

  /**
   Closing the body unblocks the goroutine: its own next operation is possible in every state after the caller
   gave up.
   */
  lemma GivingUpUnblocks(contentLength: int, program: Code, choices: seq<Choice>)
    ensures
      var st := After(Start(contentLength, program), choices);
      st.caller == Failed(408) && st.binder.Running? ==> st.closed && Enabled(st, BinderMoves)
  {
    NeverShared(contentLength, program, choices);
  }

  /** Once the body is closed the goroutine ends in as many turns as it has operations left, whatever happens between them. */
  lemma {:induction false} ClosedBinderEnds(st: State, choices: seq<Choice>)
    requires Protocol(st) && st.closed && !st.binder.NotStarted?
    ensures
      var end := After(st, choices);
      && Protocol(end) && end.closed && !end.binder.NotStarted?
      && (end.binder.Ended? || Remaining(end.binder) + Turns(choices) <= Remaining(st.binder))
  {
    if choices != [] {
      var rest, c := choices[..|choices| - 1], choices[|choices| - 1];
      ClosedBinderEnds(st, rest);
      StepKeepsProtocol(After(st, rest), c);
      EachTurnCounts(After(st, rest), c);
      StepsShorten(After(st, rest), c);
    }
  }

  ghost predicate WithinProgram(st: State, program: Code) {
    st.program == program && Remaining(st.binder) <= Height(program)
  }

  lemma StepStaysWithin(st: State, c: Choice, program: Code)
    requires WithinProgram(st, program)
    ensures WithinProgram(Step(st, c), program)
  {
    StepsShorten(st, c);
  }

  lemma {:induction false} RunsStayWithin(contentLength: int, program: Code, choices: seq<Choice>)
    ensures WithinProgram(After(Start(contentLength, program), choices), program)
  {
    if choices != [] {
      var rest, c := choices[..|choices| - 1], choices[|choices| - 1];
      RunsStayWithin(contentLength, program, rest);
      StepStaysWithin(After(Start(contentLength, program), rest), c, program);
    }
  }

  /** The caller can leave the select exactly when it was cancelled, timed out, or the goroutine has ended. */
  lemma CallerCanLeave(contentLength: int, program: Code, choices: seq<Choice>)
    requires After(Start(contentLength, program), choices).caller.Selecting?
    ensures
      var st := After(Start(contentLength, program), choices);
      (exists c :: !Step(st, c).caller.Selecting?) <==> st.cancelled || st.timerFired || st.binder.Ended?
  {
    NeverShared(contentLength, program, choices);
    var st := After(Start(contentLength, program), choices);
    if st.cancelled { assert !Step(st, CallerTakesCancel).caller.Selecting?; }
    if st.timerFired { assert !Step(st, CallerTakesTimer).caller.Selecting?; }
    if st.binder.Ended? { assert !Step(st, CallerTakesDone).caller.Selecting?; }
  }

  /**
   Every bind ends: once the timer has fired and the caller has had a turn at it, and the goroutine has then had
   as many turns as its program has operations, in any interleaving and with a client that may stay silent, the
   caller has its outcome and a goroutine that was started has sent its one message and ended.
   */
  lemma EveryBindEnds(contentLength: int, program: Code, before: seq<Choice>, later: seq<Choice>)
    requires After(Start(contentLength, program), before).timerFired
    requires !After(Start(contentLength, program), before).caller.Preparing?
    requires Turns(later) >= Height(program)
    ensures
      var run := before + [CallerTakesTimer] + later;
      var end := After(Start(contentLength, program), run);
      && (end.caller.Bound? || end.caller.Failed? || end.caller.Panicking?)
      && (end.binder.NotStarted? || (end.binder.Ended? && Sent(Start(contentLength, program), run) == 1))
  {
    var start, taken := Start(contentLength, program), before + [CallerTakesTimer];
    var st := After(start, taken);
    assert taken[..|before|] == before;
    NeverShared(contentLength, program, before);
    NeverShared(contentLength, program, taken);
    RunsStayWithin(contentLength, program, taken);
    AfterBoth(start, taken, later);
    OutcomeStays(st, later);
    if st.closed {
      ClosedBinderEnds(st, later);
    }
    ExactlyOneMessage(contentLength, program, taken + later);
  }

  /** A caller that waits can always give up: the timer and the cancellation can come at any time. */
  lemma GivingUpIsPossible(st: State)
    requires Protocol(st) && st.caller.Selecting?
    ensures
      var timed := Step(Step(st, TimerFires), CallerTakesTimer);
      timed.caller == Failed(408) && timed.closed && timed.binder == st.binder
    ensures
      var left := Step(Step(st, RequestCancelled), CallerTakesCancel);
      left.caller == Failed(408) && left.closed && left.binder == st.binder
  {
  }

  predicate HasOutcome(st: State) {
    st.caller.Bound? || st.caller.Failed? || st.caller.Panicking?
  }

  lemma {:induction false} OutcomeStays(st: State, choices: seq<Choice>)
    requires Protocol(st) && HasOutcome(st)
    ensures After(st, choices).caller == st.caller && Protocol(After(st, choices))
    ensures !st.closed ==> After(st, choices).binder == st.binder
  {
    if choices != [] {
      OutcomeStays(st, choices[..|choices| - 1]);
      StepKeepsProtocol(After(st, choices[..|choices| - 1]), choices[|choices| - 1]);
    }
  }
}
