/**
 The process-wide cache of compiled request types: `createTags` called by any number of goroutines.

 Each goroutine's call is cut into the steps between which others can run: the kind check, taking the
 mutex, the lookup, the compilation, the store, and the deferred unlock.
 */
module TagCaches {
  import opened Wire
  import opened RequestTags
  import opened TagTheorems

  /** Where a goroutine is; `Left` keeps the result of its last call, None for a panic. */
  datatype Thread =
    | Idle
    | Waiting(t: GoType)
    | Holding(t: GoType)
    | Compiling(t: GoType)
    | Storing(t: GoType, tags: Tags)
    | Leaving(t: GoType, result: Option<Tags>)
    | Left(t: GoType, result: Option<Tags>)

  datatype State = State(cache: map<GoType, Tags>, holder: Option<nat>, threads: map<nat, Thread>)

  const START := State(map[], None, map[])

  /** Outcome of `ApplyDefaults` for each type; it does not depend on time. */
  type Defaults = GoType -> bool

  function ThreadAt(st: State, i: nat): Thread {
    if i in st.threads then st.threads[i] else Idle
  }

  function Go(st: State, i: nat, thread: Thread): State {
    st.(threads := st.threads[i := thread])
  }

  /** One scheduler choice: goroutine `thread` moves; `call` is the type it asks for if it is between calls. */
  datatype Choice = Choice(thread: nat, call: GoType)

  /** The next step of the chosen goroutine; a goroutine waiting for the mutex stays where it is. */
  function Step(st: State, c: Choice, defaults: Defaults): State {
    var i := c.thread;
    match ThreadAt(st, i)
    case Waiting(t) => if st.holder.None? then Go(st, i, Holding(t)).(holder := Some(i)) else st
    case Holding(t) => Go(st, i, if t in st.cache then Leaving(t, Some(st.cache[t])) else Compiling(t))
    case Compiling(t) =>
      var compiled := Compile(t, defaults(t));
      Go(st, i, if compiled.Some? then Storing(t, compiled.value) else Leaving(t, None))
    case Storing(t, tags) => Go(st, i, Leaving(t, Some(tags))).(cache := st.cache[t := tags])
    case Leaving(t, result) => Go(st, i, Left(t, result)).(holder := None)
    case _ => Go(st, i, if c.call.Struct? then Waiting(c.call) else Left(c.call, None))
  }

  function After(choices: seq<Choice>, n: nat, defaults: Defaults): State
    requires n <= |choices|
  {
    if n == 0 then START else Step(After(choices, n - 1, defaults), choices[n - 1], defaults)
  }

  predicate InsideMutex(thread: Thread) {
    thread.Holding? || thread.Compiling? || thread.Storing? || thread.Leaving?
  }

  /** What a goroutine knows at its step, given the cache. */
  ghost predicate ThreadKnows(st: State, thread: Thread, defaults: Defaults) {
    match thread
    case Idle => true
    case Waiting(t) => t.Struct?
    case Holding(t) => t.Struct?
    case Compiling(t) => t !in st.cache
    case Storing(t, tags) => t !in st.cache && Compile(t, defaults(t)) == Some(tags)
    case Leaving(t, result) => result == Compile(t, defaults(t)) && (result.Some? ==> t in st.cache)
    case Left(t, result) => result == Compile(t, defaults(t)) && (result.Some? ==> t in st.cache)
  }

  ghost predicate CacheIsRight(cache: map<GoType, Tags>, defaults: Defaults) {
    forall t :: t in cache ==> Compile(t, defaults(t)) == Some(cache[t])
  }

  ghost predicate Invariant(st: State, defaults: Defaults) {
    && CacheIsRight(st.cache, defaults)
    && (forall i: nat :: InsideMutex(ThreadAt(st, i)) <==> st.holder == Some(i))
    && (forall i: nat :: ThreadKnows(st, ThreadAt(st, i), defaults))
  }

  lemma StepKeepsInvariant(st: State, c: Choice, defaults: Defaults)
    requires Invariant(st, defaults)
    ensures Invariant(Step(st, c, defaults), defaults)
  {
  }

  /** The only change to the cache is a new entry for a type that had none. */
  lemma StepKeepsEntries(st: State, c: Choice, defaults: Defaults)
    requires Invariant(st, defaults)
    ensures forall t :: t in st.cache ==> t in Step(st, c, defaults).cache && Step(st, c, defaults).cache[t] == st.cache[t]
  {
  }

  /**
   In every interleaving of calls, successes and panics: each call returns what compiling its type from
   scratch gives, or panics when that panics; the mutex is held exactly while a call is inside, so a call
   that panicked has released it.
   */
  lemma {:induction false} EveryCallCompiles(choices: seq<Choice>, n: nat, defaults: Defaults)
    requires n <= |choices|
    ensures
      var st := After(choices, n, defaults);
      && Invariant(st, defaults)
      && (forall i: nat :: ThreadAt(st, i).Left? ==>
            ThreadAt(st, i).result == Compile(ThreadAt(st, i).t, defaults(ThreadAt(st, i).t)))
      && (forall i: nat :: ThreadAt(st, i).Left? ==> st.holder != Some(i))
  {
    if n > 0 {
      EveryCallCompiles(choices, n - 1, defaults);
      StepKeepsInvariant(After(choices, n - 1, defaults), choices[n - 1], defaults);
    }
    var st := After(choices, n, defaults);
    forall i: nat | ThreadAt(st, i).Left?
      ensures ThreadAt(st, i).result == Compile(ThreadAt(st, i).t, defaults(ThreadAt(st, i).t))
      ensures st.holder != Some(i)
    {
      assert ThreadKnows(st, ThreadAt(st, i), defaults);
    }
  }

  /** An entry, once stored, is never changed or removed. */
  lemma {:induction false} EntriesAreForever(choices: seq<Choice>, m: nat, n: nat, defaults: Defaults, t: GoType)
    requires m <= n <= |choices|
    requires t in After(choices, m, defaults).cache
    ensures t in After(choices, n, defaults).cache
    ensures After(choices, n, defaults).cache[t] == After(choices, m, defaults).cache[t]
  {
    if m < n {
      EntriesAreForever(choices, m, n - 1, defaults, t);
      EveryCallCompiles(choices, n - 1, defaults);
      StepKeepsEntries(After(choices, n - 1, defaults), choices[n - 1], defaults);
    }
  }

  /** At most one goroutine compiles at a time, and never a type that is already cached. */
  lemma OneCompilationAtATime(choices: seq<Choice>, n: nat, defaults: Defaults, i: nat, j: nat)
    requires n <= |choices|
    requires
      var st := After(choices, n, defaults);
      ThreadAt(st, i).Compiling? && (ThreadAt(st, j).Compiling? || ThreadAt(st, j).Storing?)
    ensures i == j && ThreadAt(After(choices, n, defaults), i).t !in After(choices, n, defaults).cache
  {
    EveryCallCompiles(choices, n, defaults);
    var st := After(choices, n, defaults);
    assert InsideMutex(ThreadAt(st, i)) && InsideMutex(ThreadAt(st, j));
    assert ThreadKnows(st, ThreadAt(st, i), defaults);
  }

  /** A type is compiled with success at most once: from the first call that returned on, no goroutine compiles it. */
  lemma CompiledOnce(choices: seq<Choice>, m: nat, n: nat, defaults: Defaults, i: nat, j: nat)
    requires m <= n <= |choices|
    requires ThreadAt(After(choices, m, defaults), i).Left? && ThreadAt(After(choices, m, defaults), i).result.Some?
    ensures
      var t, later := ThreadAt(After(choices, m, defaults), i).t, After(choices, n, defaults);
      && t in later.cache && Some(later.cache[t]) == ThreadAt(After(choices, m, defaults), i).result
      && !(ThreadAt(later, j).Compiling? && ThreadAt(later, j).t == t)
  {
    var st, later := After(choices, m, defaults), After(choices, n, defaults);
    EveryCallCompiles(choices, m, defaults);
    assert ThreadKnows(st, ThreadAt(st, i), defaults);
    EntriesAreForever(choices, m, n, defaults, ThreadAt(st, i).t);
    EveryCallCompiles(choices, n, defaults);
    assert ThreadKnows(later, ThreadAt(later, j), defaults);
  }

  // ---------- every call returns ----------

  function Continue(st: State, choices: seq<Choice>, defaults: Defaults): State
    decreases |choices|
  {
    if choices == [] then st else Continue(Step(st, choices[0], defaults), choices[1..], defaults)
  }

  function Turns(choices: seq<Choice>, i: nat): nat {
    if choices == [] then 0 else (if choices[0].thread == i then 1 else 0) + Turns(choices[1..], i)
  }

  /** How many of its own steps a call inside the mutex has left at most. */
  function StepsLeft(thread: Thread): nat {
    match thread
    case Holding(_) => 4
    case Compiling(_) => 3
    case Storing(_, _) => 2
    case Leaving(_, _) => 1
    case _ => 0
  }

  lemma OthersDoNotMatter(st: State, c: Choice, i: nat, defaults: Defaults)
    requires c.thread != i
    ensures ThreadAt(Step(st, c, defaults), i) == ThreadAt(st, i)
  {
  }

  lemma OwnStep(st: State, c: Choice, defaults: Defaults)
    requires Invariant(st, defaults) && InsideMutex(ThreadAt(st, c.thread))
    ensures
      var before, after := ThreadAt(st, c.thread), ThreadAt(Step(st, c, defaults), c.thread);
      && after.t == before.t
      && (InsideMutex(after) || after.Left?)
      && StepsLeft(after) < StepsLeft(before)
      && (after.Left? ==> Step(st, c, defaults).holder == None)
  {
    assert ThreadKnows(st, ThreadAt(st, c.thread), defaults);
  }

  /** The call of goroutine `i` for type `t` returns on the way through `choices`, with what compiling `t` gives. */
  ghost predicate Returns(st: State, choices: seq<Choice>, i: nat, t: GoType, defaults: Defaults) {
    exists j :: 0 <= j <= |choices| && ThreadAt(Continue(st, choices[..j], defaults), i) == Left(t, Compile(t, defaults(t)))
  }

  lemma ReturnsLater(st: State, choices: seq<Choice>, i: nat, t: GoType, defaults: Defaults)
    requires choices != [] && Returns(Step(st, choices[0], defaults), choices[1..], i, t, defaults)
    ensures Returns(st, choices, i, t, defaults)
  {
    var next := Step(st, choices[0], defaults);
    var j :| 0 <= j <= |choices[1..]| &&
      ThreadAt(Continue(next, choices[1..][..j], defaults), i) == Left(t, Compile(t, defaults(t)));
    assert choices[..j + 1][1..] == choices[1..][..j] && choices[..j + 1][0] == choices[0];
    assert Continue(st, choices[..j + 1], defaults) == Continue(next, choices[1..][..j], defaults);
  }

  lemma ReturnsNow(st: State, choices: seq<Choice>, i: nat, t: GoType, defaults: Defaults)
    requires ThreadAt(st, i) == Left(t, Compile(t, defaults(t)))
    ensures Returns(st, choices, i, t, defaults)
  {
    assert choices[..0] == [] && Continue(st, choices[..0], defaults) == st;
  }

  /** A call inside the mutex returns within four turns of its goroutine, in any interleaving with the others. */
  lemma {:induction false} InsideReturns(st: State, choices: seq<Choice>, i: nat, defaults: Defaults)
    requires Invariant(st, defaults) && InsideMutex(ThreadAt(st, i))
    requires Turns(choices, i) >= StepsLeft(ThreadAt(st, i))
    ensures Returns(st, choices, i, ThreadAt(st, i).t, defaults)
    decreases |choices|
  {
    if choices != [] {
      var c, t := choices[0], ThreadAt(st, i).t;
      var next := Step(st, c, defaults);
      StepKeepsInvariant(st, c, defaults);
      if c.thread == i {
        OwnStep(st, c, defaults);
      } else {
        OthersDoNotMatter(st, c, i, defaults);
      }
      if ThreadAt(next, i).Left? {
        assert ThreadKnows(next, ThreadAt(next, i), defaults);
        ReturnsNow(next, choices[1..], i, t, defaults);
      } else {
        InsideReturns(next, choices[1..], i, defaults);
      }
      ReturnsLater(st, choices, i, t, defaults);
    }
  }

  /** A goroutine that waits is kept waiting only while another one is inside the mutex. */
  lemma WaitsOnlyForTheMutex(st: State, c: Choice, defaults: Defaults)
    requires Invariant(st, defaults) && ThreadAt(st, c.thread).Waiting?
    ensures
      var after := ThreadAt(Step(st, c, defaults), c.thread);
      if exists other: nat :: InsideMutex(ThreadAt(st, other)) then after == ThreadAt(st, c.thread)
      else after == Holding(ThreadAt(st, c.thread).t)
  {
    if st.holder.Some? {
      assert InsideMutex(ThreadAt(st, st.holder.value));
    }
  }

  function Alone(i: nat, n: nat, t: GoType): (choices: seq<Choice>)
    ensures |choices| == n && Turns(choices, i) == n
  {
    if n == 0 then [] else [Choice(i, t)] + Alone(i, n - 1, t)
  }

  lemma {:induction false} ReturnsAfter(
      st: State, first: seq<Choice>, own: seq<Choice>, i: nat, t: GoType, defaults: Defaults)
    requires Returns(Continue(st, first, defaults), own, i, t, defaults)
    ensures Returns(st, first + own, i, t, defaults)
    decreases |first|
  {
    if first == [] {
      assert first + own == own;
    } else {
      assert (first + own)[1..] == first[1..] + own && (first + own)[0] == first[0];
      ReturnsAfter(Step(st, first[0], defaults), first[1..], own, i, t, defaults);
      ReturnsLater(st, first + own, i, t, defaults);
    }
  }

  /** Left alone, the goroutine inside the mutex gives it back within four steps, and nobody else moves. */
  lemma {:induction false} HolderReleases(st: State, h: nat, i: nat, defaults: Defaults) returns (n: nat)
    requires Invariant(st, defaults) && st.holder == Some(h) && i != h
    ensures n <= StepsLeft(ThreadAt(st, h))
    ensures
      var after := Continue(st, Alone(h, n, HttpHeader), defaults);
      Invariant(after, defaults) && after.holder == None && ThreadAt(after, i) == ThreadAt(st, i)
    decreases StepsLeft(ThreadAt(st, h))
  {
    var c := Choice(h, HttpHeader);
    var next := Step(st, c, defaults);
    assert InsideMutex(ThreadAt(st, h));
    StepKeepsInvariant(st, c, defaults);
    OwnStep(st, c, defaults);
    OthersDoNotMatter(st, c, i, defaults);
    if next.holder == None {
      n := 1;
      assert Alone(h, 1, HttpHeader) == [c] && [c][1..] == [];
      assert Continue(next, [], defaults) == next;
      assert Continue(st, [c], defaults) == next;
    } else {
      assert InsideMutex(ThreadAt(next, h));
      var m := HolderReleases(next, h, i, defaults);
      n := m + 1;
      assert Alone(h, n, HttpHeader)[1..] == Alone(h, m, HttpHeader);
    }
  }

  /**
   No call is ever stuck: in every state that can be reached, a waiting call can return, with the right result,
   within nine steps of the goroutine inside the mutex and its own.
   */
  lemma EveryCallCanReturn(choices: seq<Choice>, i: nat, defaults: Defaults) returns (more: seq<Choice>)
    requires ThreadAt(After(choices, |choices|, defaults), i).Waiting?
    ensures |more| <= 9
    ensures
      var st := After(choices, |choices|, defaults);
      Returns(st, more, i, ThreadAt(st, i).t, defaults)
  {
    var st := After(choices, |choices|, defaults);
    var t := ThreadAt(st, i).t;
    EveryCallCompiles(choices, |choices|, defaults);
    var first, free := [], st;
    if st.holder.Some? {
      var h := st.holder.value;
      assert InsideMutex(ThreadAt(st, h));
      var n := HolderReleases(st, h, i, defaults);
      first, free := Alone(h, n, HttpHeader), Continue(st, Alone(h, n, HttpHeader), defaults);
    }
    var own := Alone(i, 5, t);
    var entered := Step(free, own[0], defaults);
    StepKeepsInvariant(free, own[0], defaults);
    InsideReturns(entered, own[1..], i, defaults);
    ReturnsLater(free, own, i, t, defaults);
    more := first + own;
    ReturnsAfter(st, first, own, i, t, defaults);
  }
}
