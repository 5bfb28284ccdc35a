/** The event loop's own methods. Each runs here without interruption, and is proved to be a run of the protocol's
    actions, so that what is proved of the protocol holds of the object. Other threads' calls arrive while user
    code runs; all other interleavings are the protocol's. */
module EventLoops {
  import opened EventLoopProtocol

  /** A call made on the loop from the loop thread or from another. */
  datatype Caller = LoopThread | Other(t: Thread)
  datatype Call = Queues(f: Functor, caller: Caller) | Quits(caller: Caller)

  /** The actions of one call. */
  function ActionsOf(c: Call): seq<Action> {
    match c
    case Queues(f, LoopThread) => [OwnerPush(f), OwnerCheck]
    case Queues(f, Other(t)) => [Push(t, f), Wake(t)]
    case Quits(LoopThread) => [OwnerQuit]
    case Quits(Other(t)) => [Action.Quit(t), Wake(t)]
  }

  function ActionsOfAll(calls: seq<Call>): seq<Action> {
    if calls == [] then [] else ActionsOf(calls[0]) + ActionsOfAll(calls[1..])
  }

  /** Of a batch of n functors, each with the calls that are made while it runs; a functor for which none are
      given makes none. */
  function ActionsOfBatch(n: nat, during: seq<seq<Call>>): seq<Action> {
    if n == 0 then []
    else [StartNext] + ActionsOfAll(First(during)) + ActionsOfBatch(n - 1, Others(during))
  }

  function First(during: seq<seq<Call>>): seq<Call> {
    if during == [] then [] else during[0]
  }

  function Others(during: seq<seq<Call>>): seq<seq<Call>> {
    if during == [] then [] else during[1..]
  }

  /** Of doPendingFunctors, with n functors waiting, until it clears its flag. */
  function ActionsOfPending(n: nat, during: seq<seq<Call>>): seq<Action> {
    [SetCalling, SwapOut] + ActionsOfBatch(n, during) + [EndBatch]
  }

  /** Of the destruction of the batch, as doPendingFunctors returns. */
  function ActionsOfRelease(released: seq<Call>): seq<Action> {
    ActionsOfAll(released) + [Released]
  }

  // ----- the effect of user code -----

  /** No call is under way: nobody stands between a push or a request to quit and its wakeup. */
  ghost predicate Settled(s: State) {
    s.debts == map[] && !s.ownerChecks
  }

  /** What a call changes, in the middle of user code. */
  function AfterCall(s: State, c: Call): State {
    s.(quit := s.quit || c.Quits?,
       pending := s.pending + Functors(c),
       pushed := s.pushed + Functors(c),
       counter := s.counter + if c.caller.Other? || (c.Queues? && s.calling) then 1 else 0)
  }

  function Functors(c: Call): seq<Functor> {
    if c.Queues? then [c.f] else []
  }

  function AfterCalls(s: State, calls: seq<Call>): State
    decreases |calls|
  {
    if calls == [] then s else AfterCalls(AfterCall(s, calls[0]), calls[1..])
  }

  /** The next functor of the batch starts, and the calls are made. */
  function AfterFunctor(s: State, calls: seq<Call>): State {
    if s.batch == [] then s else AfterCalls(s.(executed := s.executed + [s.batch[0]], batch := s.batch[1..]), calls)
  }

  function AfterBatch(s: State, n: nat, during: seq<seq<Call>>): State
    decreases n
  {
    if n == 0 then s else AfterBatch(AfterFunctor(s, First(during)), n - 1, Others(during))
  }

  lemma QueueingIsRun(s: State, f: Functor, caller: Caller)
    requires Settled(s) && UserCode(s)
    ensures AfterCall(s, Queues(f, caller)) == Run(s, ActionsOf(Queues(f, caller)))
  {
    match caller
    case LoopThread => RunOfTwo(s, OwnerPush(f), OwnerCheck);
    case Other(t) =>
      RunOfTwo(s, Push(t, f), Wake(t));
      assert s.debts[t := ForPush] - {t} == map[];
  }

  lemma QuittingIsRun(s: State, caller: Caller)
    requires Settled(s) && UserCode(s)
    ensures AfterCall(s, Quits(caller)) == Run(s, ActionsOf(Quits(caller)))
  {
    match caller
    case LoopThread => RunOfOne(s, OwnerQuit);
    case Other(t) =>
      RunOfTwo(s, Action.Quit(t), Wake(t));
      assert s.debts[t := ForQuit] - {t} == map[];
  }

  /** A call is a run of its actions, and keeps what every run keeps. */
  lemma CallIsRun(s: State, c: Call)
    requires Settled(s) && UserCode(s)
    ensures AfterCall(s, c) == Run(s, ActionsOf(c))
    ensures InOrder(s) ==> InOrder(AfterCall(s, c))
  {
    match c {
      case Queues(f, caller) => QueueingIsRun(s, f, caller);
      case Quits(caller) => QuittingIsRun(s, caller);
    }
    if InOrder(s) {
      RunKeepsOrder(s, ActionsOf(c));
    }
  }

  lemma {:induction false} CallsAreRun(s: State, calls: seq<Call>)
    requires Settled(s) && UserCode(s)
    ensures AfterCalls(s, calls) == Run(s, ActionsOfAll(calls))
    ensures Settled(AfterCalls(s, calls)) && SameBatch(s, AfterCalls(s, calls))
    decreases |calls|
  {
    if calls != [] {
      CallIsRun(s, calls[0]);
      CallsAreRun(AfterCall(s, calls[0]), calls[1..]);
      RunInParts(s, ActionsOf(calls[0]), ActionsOfAll(calls[1..]));
    }
  }

  function AllFunctors(calls: seq<Call>): seq<Functor> {
    if calls == [] then [] else Functors(calls[0]) + AllFunctors(calls[1..])
  }

  /** All that is queued while n functors run. */
  function FunctorsDuring(n: nat, during: seq<seq<Call>>): seq<Functor> {
    if n == 0 then [] else AllFunctors(First(during)) + FunctorsDuring(n - 1, Others(during))
  }

  /** The loop thread queues nothing in these calls. */
  predicate Quiet(calls: seq<Call>) {
    forall i :: 0 <= i < |calls| ==> !(calls[i].Queues? && calls[i].caller.LoopThread?)
  }

  lemma {:induction false} CallsPush(s: State, calls: seq<Call>)
    ensures var s' := AfterCalls(s, calls);
            s'.pushed == s.pushed + AllFunctors(calls) && s'.pending == s.pending + AllFunctors(calls)
            && s'.batch == s.batch && s'.calling == s.calling
            && (s.calling || Quiet(calls) ==> s'.counter >= s.counter + |AllFunctors(calls)|)
    decreases |calls|
  {
    if calls != [] {
      CallsPush(AfterCall(s, calls[0]), calls[1..]);
    }
  }

  lemma {:induction false} PushedDuring(s: State, n: nat, during: seq<seq<Call>>)
    requires |s.batch| == n
    ensures var s' := AfterBatch(s, n, during);
            s'.pushed == s.pushed + FunctorsDuring(n, during) && s'.pending == s.pending + FunctorsDuring(n, during)
            && (s.calling ==> s'.counter >= s.counter + |FunctorsDuring(n, during)|)
    decreases n
  {
    if n > 0 {
      var s1 := s.(executed := s.executed + [s.batch[0]], batch := s.batch[1..]);
      CallsPush(s1, First(during));
      PushedDuring(AfterFunctor(s, First(during)), n - 1, Others(during));
    }
  }

  predicate SameBatch(s: State, s': State) {
    s'.phase == s.phase && s'.batch == s.batch && s'.executed == s.executed
  }

  lemma FunctorIsRun(s: State, calls: seq<Call>)
    requires Settled(s) && s.phase.Execute? && s.batch != []
    ensures var s' := AfterFunctor(s, calls);
            && s' == Run(s, [StartNext] + ActionsOfAll(calls))
            && Settled(s') && s'.phase.Execute? && s'.batch == s.batch[1..] && s'.executed == s.executed + [s.batch[0]]
  {
    RunOfOne(s, StartNext);
    CallsAreRun(Step(s, StartNext), calls);
    RunInParts(s, [StartNext], ActionsOfAll(calls));
  }

  lemma {:induction false} BatchEffect(s: State, n: nat, during: seq<seq<Call>>)
    requires Settled(s) && s.phase.Execute? && |s.batch| == n
    ensures var s' := AfterBatch(s, n, during);
            Settled(s') && s'.phase.Execute? && s'.batch == [] && s'.executed == s.executed + s.batch
    decreases n
  {
    if n > 0 {
      FunctorIsRun(s, First(during));
      BatchEffect(AfterFunctor(s, First(during)), n - 1, Others(during));
    }
  }

  lemma {:induction false} BatchIsRun(s: State, n: nat, during: seq<seq<Call>>)
    requires Settled(s) && s.phase.Execute? && |s.batch| == n
    ensures AfterBatch(s, n, during) == Run(s, ActionsOfBatch(n, during))
    decreases n
  {
    if n > 0 {
      FunctorIsRun(s, First(during));
      BatchIsRun(AfterFunctor(s, First(during)), n - 1, Others(during));
      RunInParts(s, [StartNext] + ActionsOfAll(First(during)), ActionsOfBatch(n - 1, Others(during)));
    }
  }

  /** From setting the flag to clearing it. */
  lemma PendingIsRun(s: State, during: seq<seq<Call>>)
    requires Settled(s) && s.phase.Begin?
    ensures var s2 := Step(Step(s, SetCalling), SwapOut); var n := |s.pending|;
            && Settled(s2) && s2.phase.Execute? && s2.batch == s.pending && s2.executed == s.executed
            && Step(AfterBatch(s2, n, during), EndBatch) == Run(s, ActionsOfPending(n, during))
  {
    var n := |s.pending|;
    var s1 := Step(s, SetCalling);
    var s2 := Step(s1, SwapOut);
    var batch := ActionsOfBatch(n, during);
    BatchEffect(s2, n, during);
    BatchIsRun(s2, n, during);
    RunOfTwo(s, SetCalling, SwapOut);
    RunOfOne(AfterBatch(s2, n, during), EndBatch);
    RunInParts(s2, batch, [EndBatch]);
    RunInParts(s, [SetCalling, SwapOut], batch + [EndBatch]);
    assert [SetCalling, SwapOut] + (batch + [EndBatch]) == ActionsOfPending(n, during);
  }

  /** The batch's functors are destroyed. */
  lemma ReleaseIsRun(s: State, released: seq<Call>)
    requires Settled(s) && s.phase.Release?
    ensures Step(AfterCalls(s, released), Released) == Run(s, ActionsOfRelease(released))
    ensures Settled(AfterCalls(s, released)) && SameBatch(s, AfterCalls(s, released))
  {
    CallsAreRun(s, released);
    RunOfOne(AfterCalls(s, released), Released);
    RunInParts(s, ActionsOfAll(released), [Released]);
  }

  // ----- a round of loop() -----

  predicate AllQuiet(rounds: seq<Round>) {
    forall i :: 0 <= i < |rounds| ==> Quiet(rounds[i].released)
  }

  /** What one return of poll brings: whether it reports the eventfd, which it does only if that is readable, the
      calls made while the handlers run, those made while each functor runs, and those made while the functors are
      destroyed. */
  datatype Round = Round(reportsWakeup: bool, handled: seq<Call>, during: seq<seq<Call>>, released: seq<Call>)

  /** From the test of the flag to the end of the handlers. */
  function Handled(s: State, wakeReady: bool, handled: seq<Call>): State {
    Step(AfterCalls(Polled(s, wakeReady), handled), HandlersDone)
  }

  function Polled(s: State, wakeReady: bool): State {
    var s1 := Step(Step(s, TestQuit), PollReturns(wakeReady));
    if wakeReady then Step(s1, ReadEventFd) else s1
  }

  lemma PolledIsRun(s: State, wakeReady: bool)
    requires Settled(s) && s.phase.Test? && !s.quit && (wakeReady ==> s.counter > 0)
    ensures var s' := Polled(s, wakeReady);
            && s' == Run(s, [TestQuit, PollReturns(wakeReady)] + if wakeReady then [ReadEventFd] else [])
            && Settled(s') && s'.phase.Handle? && !s'.wakeReady
  {
    RunOfTwo(s, TestQuit, PollReturns(wakeReady));
    var s1 := Step(Step(s, TestQuit), PollReturns(wakeReady));
    RunOfOne(s1, ReadEventFd);
    RunInParts(s, [TestQuit, PollReturns(wakeReady)], if wakeReady then [ReadEventFd] else []);
  }

  lemma {:induction false} CallsKeepWakeReady(s: State, calls: seq<Call>)
    ensures AfterCalls(s, calls).wakeReady == s.wakeReady
    decreases |calls|
  {
    if calls != [] {
      CallsKeepWakeReady(AfterCall(s, calls[0]), calls[1..]);
    }
  }

  lemma HandledIsRun(s: State, wakeReady: bool, handled: seq<Call>)
    requires Settled(s) && s.phase.Test? && !s.quit && (wakeReady ==> s.counter > 0)
    ensures var s' := Handled(s, wakeReady, handled);
            && s' == Run(s, [TestQuit, PollReturns(wakeReady)] + (if wakeReady then [ReadEventFd] else [])
                            + ActionsOfAll(handled) + [HandlersDone])
            && Settled(s') && s'.phase.Begin?
  {
    var polled := [TestQuit, PollReturns(wakeReady)] + if wakeReady then [ReadEventFd] else [];
    PolledIsRun(s, wakeReady);
    var s1 := Polled(s, wakeReady);
    CallsAreRun(s1, handled);
    CallsKeepWakeReady(s1, handled);
    RunOfOne(AfterCalls(s1, handled), HandlersDone);
    RunInParts(s, polled, ActionsOfAll(handled));
    RunInParts(s, polled + ActionsOfAll(handled), [HandlersDone]);
  }

  lemma Regroup(a: seq<Functor>, b: seq<Functor>, c: seq<Functor>)
    ensures a + b + c == a + (b + c)
  {
  }

  class EventLoop {
    var quitting: bool
    var callingPendingFunctors: bool
    var pendingFunctors: seq<Functor>
    /** The counter of the eventfd. */
    var wakeupCount: nat
    /** Where the loop thread is, the running batch and the history. */
    ghost var protocol: State
    /** What runInLoop has run at once. */
    ghost var ranAtOnce: seq<Functor>

    ghost predicate Mirrors()
      reads this
    {
      && protocol.quit == quitting && protocol.calling == callingPendingFunctors
      && protocol.pending == pendingFunctors && protocol.counter == wakeupCount
    }

    ghost predicate Valid()
      reads this
    {
      Mirrors() && InOrder(protocol) && Settled(protocol)
    }

    constructor ()
      ensures Valid() && protocol == INITIAL && ranAtOnce == []
    {
      quitting, callingPendingFunctors, pendingFunctors, wakeupCount := false, false, [], 0;
      protocol, ranAtOnce := INITIAL, [];
    }

    method Wakeup()
      modifies this`wakeupCount
      ensures wakeupCount == old(wakeupCount) + 1
    {
      wakeupCount := wakeupCount + 1;
    }

    method HandleRead()
      modifies this`wakeupCount
      ensures wakeupCount == 0
    {
      wakeupCount := 0;
    }

    method Quit(caller: Caller)
      requires Valid() && UserCode(protocol)
      modifies this`quitting, this`wakeupCount, this`protocol
      ensures Valid() && protocol == Run(old(protocol), ActionsOf(Quits(caller)))
      ensures UserCode(protocol)
    {
      quitting := true;
      if caller != LoopThread {
        Wakeup();
      }
      CallIsRun(protocol, Quits(caller));
      protocol := AfterCall(protocol, Quits(caller));
    }

    method QueueInLoop(cb: Functor, caller: Caller)
      requires Valid() && UserCode(protocol)
      modifies this`pendingFunctors, this`wakeupCount, this`protocol
      ensures Valid() && protocol == Run(old(protocol), ActionsOf(Queues(cb, caller)))
      ensures UserCode(protocol)
    {
      pendingFunctors := pendingFunctors + [cb];
      if caller != LoopThread || callingPendingFunctors {
        Wakeup();
      }
      CallIsRun(protocol, Queues(cb, caller));
      protocol := AfterCall(protocol, Queues(cb, caller));
    }

    /** Either the functor has run when the call returns and the queue has not been touched, or it is queued. */
    method RunInLoop(cb: Functor, caller: Caller)
      requires Valid() && UserCode(protocol)
      modifies this`ranAtOnce, this`pendingFunctors, this`wakeupCount, this`protocol
      ensures Valid() && UserCode(protocol)
      ensures caller == LoopThread ==> ranAtOnce == old(ranAtOnce) + [cb] && protocol == old(protocol)
      ensures caller != LoopThread ==>
                ranAtOnce == old(ranAtOnce) && protocol == Run(old(protocol), ActionsOf(Queues(cb, caller)))
    {
      if caller == LoopThread {
        ranAtOnce := ranAtOnce + [cb];
      } else {
        QueueInLoop(cb, caller);
      }
    }

    /** User code, in the loop thread or in others. */
    method MakeCall(c: Call)
      requires Valid() && UserCode(protocol)
      modifies this`quitting, this`pendingFunctors, this`wakeupCount, this`protocol
      ensures Valid() && UserCode(protocol) && protocol == AfterCall(old(protocol), c)
    {
      CallIsRun(protocol, c);
      match c
      case Queues(f, caller) => QueueInLoop(f, caller);
      case Quits(caller) => Quit(caller);
    }

    method MakeCalls(calls: seq<Call>)
      requires Valid() && UserCode(protocol)
      modifies this`quitting, this`pendingFunctors, this`wakeupCount, this`protocol
      ensures Valid() && UserCode(protocol) && protocol == AfterCalls(old(protocol), calls)
      ensures SameBatch(old(protocol), protocol)
      decreases |calls|
    {
      if calls != [] {
        MakeCall(calls[0]);
        MakeCalls(calls[1..]);
      }
    }

    /** loop(), as far as the given returns of poll take it: it has returned, or is at poll again. The actions of
        the protocol it has taken are given back. Entered with every waiting functor announced, and with destructors
        that queue nothing in the loop thread, it is never at poll with a functor that will not wake it. */
    method Loop(rounds: seq<Round>) returns (ghost actions: seq<Action>)
      requires Valid() && protocol.phase.Outside?
      modifies this`quitting, this`callingPendingFunctors, this`pendingFunctors, this`wakeupCount, this`protocol
      ensures Valid() && protocol == Run(old(protocol), actions)
      ensures if quitting then protocol.phase.Outside? else protocol.phase.Poll?
      ensures old(Covered(protocol)) && AllQuiet(rounds) && !quitting && wakeupCount == 0 ==>
                protocol.executed == protocol.pushed
    {
      StepKeepsOrder(protocol, EnterLoop);
      RunOfOne(protocol, EnterLoop);
      quitting := false;
      protocol := Step(protocol, EnterLoop);
      actions := [EnterLoop];
      var i := 0;
      while !quitting && i < |rounds|
        invariant 0 <= i <= |rounds|
        invariant Valid() && protocol.phase.Test? && protocol == Run(old(protocol), actions)
        invariant old(Covered(protocol)) && AllQuiet(rounds) && pendingFunctors != [] ==> wakeupCount > 0
      {
        ghost var more := RunRound(rounds[i]);
        RunInParts(old(protocol), actions, more);
        actions := actions + more;
        i := i + 1;
      }
      StepKeepsOrder(protocol, TestQuit);
      RunOfOne(protocol, TestQuit);
      RunInParts(old(protocol), actions, [TestQuit]);
      actions := actions + [TestQuit];
      protocol := Step(protocol, TestQuit);
    }

    /** One round: poll returns, the handlers run, then the functors, and these are destroyed. */
    method RunRound(r: Round) returns (ghost actions: seq<Action>)
      requires Valid() && protocol.phase.Test? && !quitting
      modifies this`quitting, this`callingPendingFunctors, this`pendingFunctors, this`wakeupCount, this`protocol
      ensures Valid() && protocol.phase.Test? && protocol == Run(old(protocol), actions)
      ensures Quiet(r.released) && pendingFunctors != [] ==> wakeupCount > 0
    {
      var wakeReady := r.reportsWakeup && wakeupCount > 0;
      HandledIsRun(protocol, wakeReady, r.handled);
      HandleEvents(wakeReady, r.handled);
      ghost var pending, release := ActionsOfPending(|pendingFunctors|, r.during), ActionsOfRelease(r.released);
      DoPendingFunctors(r.during, r.released);
      ghost var handled := [TestQuit, PollReturns(wakeReady)] + (if wakeReady then [ReadEventFd] else [])
                           + ActionsOfAll(r.handled) + [HandlersDone];
      actions := handled + pending + release;
      RunInParts(old(protocol), handled, pending);
      RunInParts(old(protocol), handled + pending, release);
    }

    method HandleEvents(wakeReady: bool, handled: seq<Call>)
      requires Valid() && protocol.phase.Test? && !quitting && (wakeReady ==> wakeupCount > 0)
      modifies this`quitting, this`pendingFunctors, this`wakeupCount, this`protocol
      ensures Valid() && protocol == Handled(old(protocol), wakeReady, handled)
    {
      PollEvents(wakeReady);
      CallsKeepWakeReady(protocol, handled);
      MakeCalls(handled);
      StepKeepsOrder(protocol, HandlersDone);
      protocol := Step(protocol, HandlersDone);
    }

    method PollEvents(wakeReady: bool)
      requires Valid() && protocol.phase.Test? && !quitting && (wakeReady ==> wakeupCount > 0)
      modifies this`wakeupCount, this`protocol
      ensures Valid() && protocol == Polled(old(protocol), wakeReady)
      ensures protocol.phase.Handle? && !protocol.wakeReady
    {
      PolledIsRun(protocol, wakeReady);
      RunKeepsOrder(protocol, [TestQuit, PollReturns(wakeReady)] + if wakeReady then [ReadEventFd] else []);
      if wakeReady {
        HandleRead();
      }
      protocol := Polled(protocol, wakeReady);
    }

    /** Runs exactly the functors that wait when it begins, each once, in order, and destroys them. What is queued
        meanwhile waits in the order of the calls, and each of these has made the eventfd readable, except what the
        loop thread queues while the functors are destroyed. All of it is a run of the protocol. */
    method DoPendingFunctors(during: seq<seq<Call>>, released: seq<Call>)
      requires Valid() && protocol.phase.Begin?
      modifies this`quitting, this`callingPendingFunctors, this`pendingFunctors, this`wakeupCount, this`protocol
      ensures Valid() && protocol.phase.Test?
      ensures protocol
              == Run(Run(old(protocol), ActionsOfPending(|old(pendingFunctors)|, during)), ActionsOfRelease(released))
      ensures protocol.executed == old(protocol).executed + old(pendingFunctors)
      ensures pendingFunctors == FunctorsDuring(|old(pendingFunctors)|, during) + AllFunctors(released)
      ensures protocol.pushed == old(protocol).pushed + pendingFunctors
      ensures Quiet(released) ==> wakeupCount >= old(wakeupCount) + |pendingFunctors|
    {
      ghost var before := protocol.pushed;
      RunBatch(during);
      Regroup(before, pendingFunctors, AllFunctors(released));
      ReleaseBatch(released);
    }

    /** The functors are destroyed, and what they own with them. */
    method ReleaseBatch(released: seq<Call>)
      requires Valid() && protocol.phase.Release?
      modifies this`quitting, this`pendingFunctors, this`wakeupCount, this`protocol
      ensures Valid() && protocol.phase.Test? && protocol == Run(old(protocol), ActionsOfRelease(released))
      ensures protocol.executed == old(protocol).executed
      ensures pendingFunctors == old(pendingFunctors) + AllFunctors(released)
      ensures protocol.pushed == old(protocol).pushed + AllFunctors(released)
      ensures Quiet(released) ==> wakeupCount >= old(wakeupCount) + |AllFunctors(released)|
    {
      ReleaseIsRun(protocol, released);
      CallsPush(protocol, released);
      MakeCalls(released);
      StepKeepsOrder(protocol, Released);
      protocol := Step(protocol, Released);
    }

    /** Until the flag is cleared. */
    method RunBatch(during: seq<seq<Call>>)
      requires Valid() && protocol.phase.Begin?
      modifies this`quitting, this`callingPendingFunctors, this`pendingFunctors, this`wakeupCount, this`protocol
      ensures Valid() && protocol == Run(old(protocol), ActionsOfPending(|old(pendingFunctors)|, during))
      ensures protocol.phase.Release?
      ensures protocol.executed == old(protocol).executed + old(pendingFunctors)
      ensures pendingFunctors == FunctorsDuring(|old(pendingFunctors)|, during)
      ensures protocol.pushed == old(protocol).pushed + pendingFunctors
      ensures wakeupCount >= old(wakeupCount) + |pendingFunctors|
    {
      PendingIsRun(protocol, during);
      var functors := Swap();
      PushedDuring(protocol, |functors|, during);
      RunFunctors(functors, during);
      StepKeepsOrder(protocol, EndBatch);
      callingPendingFunctors := false;
      protocol := Step(protocol, EndBatch);
    }

    /** Sets the flag and takes out what waits. */
    method Swap() returns (functors: seq<Functor>)
      requires Valid() && protocol.phase.Begin?
      modifies this`callingPendingFunctors, this`pendingFunctors, this`protocol
      ensures Valid() && protocol == Step(Step(old(protocol), SetCalling), SwapOut)
      ensures protocol.phase.Execute? && protocol.executed == old(protocol).executed
      ensures functors == old(pendingFunctors) == protocol.batch && pendingFunctors == []
    {
      functors := [];
      callingPendingFunctors := true;
      StepKeepsOrder(protocol, SetCalling);
      protocol := Step(protocol, SetCalling);
      functors, pendingFunctors := pendingFunctors, functors;
      StepKeepsOrder(protocol, SwapOut);
      protocol := Step(protocol, SwapOut);
    }

    /** The loop over the batch that has been swapped out. */
    method RunFunctors(functors: seq<Functor>, during: seq<seq<Call>>)
      requires Valid() && protocol.phase.Execute? && protocol.batch == functors
      modifies this`quitting, this`pendingFunctors, this`wakeupCount, this`protocol
      ensures Valid() && protocol == AfterBatch(old(protocol), |functors|, during)
      ensures protocol.phase.Execute? && protocol.batch == []
      ensures protocol.executed == old(protocol).executed + functors
    {
      BatchEffect(protocol, |functors|, during);
      var i, left := 0, during;
      ghost var goal := AfterBatch(protocol, |functors|, during);
      while i < |functors|
        invariant 0 <= i <= |functors|
        invariant Valid() && protocol.phase.Execute? && protocol.batch == functors[i..]
        invariant AfterBatch(protocol, |functors| - i, left) == goal
      {
        RunFunctor(functors[i], First(left));
        left := Others(left);
        i := i + 1;
      }
    }

    /** One functor of the batch, with the calls made while it runs. */
    method RunFunctor(functor: Functor, calls: seq<Call>)
      requires Valid() && protocol.phase.Execute? && protocol.batch != [] && protocol.batch[0] == functor
      modifies this`quitting, this`pendingFunctors, this`wakeupCount, this`protocol
      ensures Valid() && protocol == AfterFunctor(old(protocol), calls)
      ensures protocol.phase.Execute? && protocol.batch == old(protocol).batch[1..]
    {
      StepKeepsOrder(protocol, StartNext);
      protocol := Step(protocol, StartNext);
      MakeCalls(calls);
    }
  }
}
