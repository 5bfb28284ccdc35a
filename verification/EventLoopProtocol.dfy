/** The event loop as a protocol between the thread that runs it and any number of other threads that
    queue functors or ask it to quit. Every action is one atomic step: a section under the mutex, one
    access to an atomic flag, or one system call on the eventfd. */
module EventLoopProtocol {

  /** Functors and threads are known by number. */
  type Functor = nat
  type Thread = nat

  /** Where the loop thread is. `Handle`, `Execute` and `Release` run user code: handlers, functors, and the
      destructors of what the batch's functors own, which run after the flag has been cleared. `Outside` is
      before loop() and after it has returned. */
  datatype Phase = Outside | Test | Poll | Handle | Begin | Swap | Execute | Release

  /** What another thread has done and not yet followed by its wakeup. */
  datatype Debt = ForPush | ForQuit

  /** `counter` is the eventfd; `wakeReady` says that the wakeup channel is among the active channels still
      to be handled; `ownerChecks` that the loop thread itself stands between its push and the test
      whether to wake. The last five fields are ghosts of the history: all functors in the order of their
      pushes, those started, how many had been pushed when poll last returned, how many when the last batch
      was swapped out, and how often poll was entered. */
  datatype State = State(
    phase: Phase,
    quit: bool,
    calling: bool,
    pending: seq<Functor>,
    batch: seq<Functor>,
    counter: nat,
    wakeReady: bool,
    ownerChecks: bool,
    debts: map<Thread, Debt>,
    pushed: seq<Functor>,
    executed: seq<Functor>,
    sweepMark: nat,
    batchEnd: nat,
    polls: nat)

  const INITIAL := State(Outside, false, false, [], [], 0, false, false, map[], [], [], 0, 0, 0)

  datatype Action =
    // the loop thread, in loop() and doPendingFunctors()
    | EnterLoop
    | TestQuit
    | PollReturns(wakeReady: bool)
    | ReadEventFd
    | HandlersDone
    | SetCalling
    | SwapOut
    | StartNext
    | EndBatch
    | Released
    // user code in the loop thread
    | OwnerPush(f: Functor)
    | OwnerCheck
    | OwnerQuit
    // another thread
    | Push(t: Thread, f: Functor)
    | Quit(t: Thread)
    | Wake(t: Thread)

  predicate UserCode(s: State) {
    (s.phase.Outside? || s.phase.Handle? || s.phase.Execute? || s.phase.Release?) && !s.ownerChecks
  }

  /** poll may also return for other reasons, and may report the eventfd late, but never reports it
      while its counter is zero. */
  predicate Enabled(s: State, a: Action) {
    match a
    case EnterLoop => s.phase.Outside? && !s.ownerChecks
    case TestQuit => s.phase.Test?
    case PollReturns(wakeReady) => s.phase.Poll? && (wakeReady ==> s.counter > 0)
    case ReadEventFd => s.phase.Handle? && s.wakeReady && !s.ownerChecks
    case HandlersDone => s.phase.Handle? && !s.wakeReady && !s.ownerChecks
    case SetCalling => s.phase.Begin?
    case SwapOut => s.phase.Swap?
    case StartNext => s.phase.Execute? && s.batch != [] && !s.ownerChecks
    case EndBatch => s.phase.Execute? && s.batch == [] && !s.ownerChecks
    case Released => s.phase.Release? && !s.ownerChecks
    case OwnerPush(_) => UserCode(s)
    case OwnerCheck => s.ownerChecks
    case OwnerQuit => UserCode(s)
    case Push(t, _) => t !in s.debts
    case Quit(t) => t !in s.debts
    case Wake(t) => t in s.debts
  }

  /** An action that is not enabled is not taken. */
  function Step(s: State, a: Action): State {
    if !Enabled(s, a) then s else
    match a
    case EnterLoop => s.(phase := Test, quit := false)
    case TestQuit => if s.quit then s.(phase := Outside) else s.(phase := Poll, polls := s.polls + 1)
    case PollReturns(wakeReady) => s.(phase := Handle, wakeReady := wakeReady, sweepMark := |s.pushed|)
    case ReadEventFd => s.(counter := 0, wakeReady := false)
    case HandlersDone => s.(phase := Begin)
    case SetCalling => s.(phase := Swap, calling := true)
    case SwapOut => s.(phase := Execute, batch := s.pending, pending := [], batchEnd := |s.pushed|)
    case StartNext => s.(executed := s.executed + [s.batch[0]], batch := s.batch[1..])
    case EndBatch => s.(phase := Release, calling := false)
    case Released => s.(phase := Test)
    case OwnerPush(f) => s.(pending := s.pending + [f], pushed := s.pushed + [f], ownerChecks := true)
    case OwnerCheck => s.(counter := if s.calling then s.counter + 1 else s.counter, ownerChecks := false)
    case OwnerQuit => s.(quit := true)
    case Push(t, f) => s.(pending := s.pending + [f], pushed := s.pushed + [f], debts := s.debts[t := ForPush])
    case Quit(t) => s.(quit := true, debts := s.debts[t := ForQuit])
    case Wake(t) => s.(counter := s.counter + 1, debts := s.debts - {t})
  }

  function Run(s: State, actions: seq<Action>): State
    decreases |actions|
  {
    if actions == [] then s else Run(Step(s, actions[0]), actions[1..])
  }

  // ----- functors run once each, in order, in batches fixed at the swap -----

  /** What was pushed is what was started, then what the batch still holds, then what waits; in a batch
      the boundary between the last two stands where it was at the swap. */
  ghost predicate InOrder(s: State) {
    && s.executed + s.batch + s.pending == s.pushed
    && (s.batch != [] ==> s.phase.Execute?)
    && (s.phase.Execute? ==> |s.executed| + |s.batch| == s.batchEnd)
    && (s.calling <==> s.phase.Swap? || s.phase.Execute?)
    && (s.wakeReady ==> s.phase.Handle?)
    && (s.ownerChecks ==> s.phase.Outside? || s.phase.Handle? || s.phase.Execute? || s.phase.Release?)
  }

  lemma StepKeepsOrder(s: State, a: Action)
    requires InOrder(s)
    ensures InOrder(Step(s, a))
  {
  }

  lemma {:induction false} RunKeepsOrder(s: State, actions: seq<Action>)
    requires InOrder(s)
    ensures InOrder(Run(s, actions))
    decreases |actions|
  {
    if actions != [] {
      StepKeepsOrder(s, actions[0]);
      RunKeepsOrder(Step(s, actions[0]), actions[1..]);
    }
  }

  /** Another thread may push whenever it is not between an earlier push and its wakeup, wherever the loop is; the
      loop thread in all user code. */
  predicate MayPush(s: State, a: Action) {
    match a
    case Push(t, _) => t !in s.debts
    case OwnerPush(_) =>
      (s.phase.Outside? || s.phase.Handle? || s.phase.Execute? || s.phase.Release?) && !s.ownerChecks
    case _ => false
  }

  /** The functors that the actions of a run push, from the actions themselves. */
  function Pushes(s: State, actions: seq<Action>): seq<Functor>
    decreases |actions|
  {
    if actions == [] then []
    else (if MayPush(s, actions[0]) then [actions[0].f] else []) + Pushes(Step(s, actions[0]), actions[1..])
  }

  lemma StepPushes(s: State, a: Action)
    ensures Step(s, a).pushed == s.pushed + if MayPush(s, a) then [a.f] else []
  {
  }

  lemma {:induction false} RunPushes(s: State, actions: seq<Action>)
    ensures Run(s, actions).pushed == s.pushed + Pushes(s, actions)
    decreases |actions|
  {
    if actions != [] {
      StepPushes(s, actions[0]);
      RunPushes(Step(s, actions[0]), actions[1..]);
    }
  }

  lemma PushedFromInitial(actions: seq<Action>)
    ensures Run(INITIAL, actions).pushed == Pushes(INITIAL, actions)
  {
    RunPushes(INITIAL, actions);
    assert [] + Pushes(INITIAL, actions) == Pushes(INITIAL, actions);
  }

  /** In every run the functors started are the first ones pushed, each once, in the order of the pushes, and the
      others wait; and while a batch runs, only functors pushed before its swap belong to it. */
  lemma ExecutedIsAPrefixOfPushed(actions: seq<Action>)
    ensures var s := Run(INITIAL, actions); var pushes := Pushes(INITIAL, actions);
            && s.executed <= pushes
            && (s.phase.Execute? ==> |s.executed| <= s.batchEnd <= |pushes|
                                     && s.batch == pushes[|s.executed|..s.batchEnd]
                                     && s.pending == pushes[s.batchEnd..])
            && (!s.phase.Execute? ==> s.pending == pushes[|s.executed|..])
  {
    PushedFromInitial(actions);
    RunKeepsOrder(INITIAL, actions);
  }

  lemma StepKeepsBatch(s: State, a: Action)
    requires s.phase.Execute? && !a.EndBatch?
    ensures var s' := Step(s, a); s'.phase.Execute? && s'.executed + s'.batch == s.executed + s.batch
  {
  }

  /** From one swap to the end of its batch the loop starts exactly the functors it swapped out, whatever
      these functors and other threads push meanwhile. */
  lemma {:induction false} BatchIsFixedAtSwap(s: State, actions: seq<Action>)
    requires s.phase.Execute? && EndBatch !in actions
    ensures var s' := Run(s, actions);
            s'.phase.Execute? && s'.executed + s'.batch == s.executed + s.batch
            && (s'.batch == [] ==> s'.executed == s.executed + s.batch)
    decreases |actions|
  {
    if actions != [] {
      StepKeepsBatch(s, actions[0]);
      BatchIsFixedAtSwap(Step(s, actions[0]), actions[1..]);
    }
  }

  // ----- no wake-up is lost -----

  ghost predicate SomeoneOwes(s: State, d: Debt) {
    exists t :: t in s.debts && s.debts[t] == d
  }

  /** Waiting functors are announced: the eventfd is readable, or another thread is between its push and
      its wakeup, or the loop thread is, inside a functor. */
  ghost predicate Covered(s: State) {
    s.pending != [] ==> s.counter > 0 || SomeoneOwes(s, ForPush) || (s.ownerChecks && s.calling)
  }

  /** From the swap until poll returns. */
  ghost predicate NoneLost(s: State) {
    s.phase.Execute? || s.phase.Test? || s.phase.Poll? ==> Covered(s)
  }

  lemma OtherThreadsKeepCover(s: State, a: Action)
    requires Covered(s) && (a.Push? || a.Quit? || a.Wake?)
    ensures Covered(Step(s, a))
  {
    var s' := Step(s, a);
    if Enabled(s, a) {
      if a.Push? {
        assert s'.debts[a.t] == ForPush;
      } else if a.Quit? && SomeoneOwes(s, ForPush) {
        var t :| t in s.debts && s.debts[t] == ForPush;
        assert t in s'.debts && s'.debts[t] == ForPush;
      }
    }
  }

  /** The steps towards the test with which the loop leaves user code that wakes nobody for what it queues. */
  predicate Resumes(a: Action) {
    a.EnterLoop? || a.Released?
  }

  /** One step loses no wake-up, except exactly these: entering loop(), or going on after a batch's functors
      have been destroyed, while functors wait that nobody will announce. Only the loop thread itself can have
      queued these, before loop() or in a destructor. */
  lemma StepLosesNone(s: State, a: Action)
    requires InOrder(s) && NoneLost(s)
    ensures NoneLost(Step(s, a)) <==> !(Resumes(a) && Enabled(s, a) && !Covered(s))
  {
    if a.Push? || a.Quit? || a.Wake? {
      if Covered(s) {
        OtherThreadsKeepCover(s, a);
      }
    }
  }

  /** The run enters loop(), and leaves the destructors of a batch, only with every waiting functor announced. */
  ghost predicate ResumesCovered(s: State, actions: seq<Action>)
    decreases |actions|
  {
    actions != [] ==>
      (Resumes(actions[0]) && Enabled(s, actions[0]) ==> Covered(s))
      && ResumesCovered(Step(s, actions[0]), actions[1..])
  }

  lemma {:induction false} RunLosesNone(s: State, actions: seq<Action>)
    requires InOrder(s) && NoneLost(s) && ResumesCovered(s, actions)
    ensures NoneLost(Run(s, actions)) && InOrder(Run(s, actions))
    decreases |actions|
  {
    if actions != [] {
      StepKeepsOrder(s, actions[0]);
      StepLosesNone(s, actions[0]);
      RunLosesNone(Step(s, actions[0]), actions[1..]);
    }
  }

  /** No lost wake-up, for any number of threads and any interleaving: whenever the loop is at poll with
      functors waiting, the eventfd is readable or some thread is about to make it so. */
  lemma NoLostWakeup(actions: seq<Action>)
    requires ResumesCovered(INITIAL, actions)
    ensures var s := Run(INITIAL, actions);
            s.phase.Poll? && s.pending != [] ==> s.counter > 0 || SomeoneOwes(s, ForPush)
  {
    RunLosesNone(INITIAL, actions);
  }

  /** No action of the run is a push by the loop thread outside loop() or in a destructor of a batch's functor. */
  ghost predicate OwnerQueuesInside(s: State, actions: seq<Action>)
    decreases |actions|
  {
    actions != [] ==>
      (actions[0].OwnerPush? ==> !s.phase.Outside? && !s.phase.Release?) && OwnerQueuesInside(Step(s, actions[0]), actions[1..])
  }

  /** A loop thread that queues functors only from its handlers and functors always resumes covered, also
      when it runs loop() again. */
  lemma {:induction false} QueueingInsideSuffices(s: State, actions: seq<Action>)
    requires InOrder(s) && NoneLost(s) && OwnerQueuesInside(s, actions)
    requires s.phase.Outside? || s.phase.Release? ==> Covered(s) && !s.ownerChecks
    ensures ResumesCovered(s, actions)
    decreases |actions|
  {
    if actions != [] {
      var a := actions[0];
      StepKeepsOrder(s, a);
      StepLosesNone(s, a);
      if (s.phase.Outside? || s.phase.Release?) && (a.Push? || a.Quit? || a.Wake?) {
        OtherThreadsKeepCover(s, a);
      }
      QueueingInsideSuffices(Step(s, a), actions[1..]);
    }
  }

  /** So when poll can only time out and no other thread is on its way, everything pushed has been started. */
  lemma BlockedMeansNothingToDo(actions: seq<Action>)
    requires ResumesCovered(INITIAL, actions)
    ensures var s := Run(INITIAL, actions);
            s.phase.Poll? && s.counter == 0 && s.debts == map[] ==>
              s.executed == Pushes(INITIAL, actions) && !s.quit
  {
    PushedFromInitial(actions);
    RunLosesNone(INITIAL, actions);
    RunAnnouncesQuit(INITIAL, actions);
  }

  /** Both exceptions are real: a functor the loop thread queues before it calls loop() waits unannounced. */
  lemma QueuedBeforeLoopIsNotAnnounced(f: Functor)
    ensures var s := Run(INITIAL, [OwnerPush(f), OwnerCheck, EnterLoop, TestQuit]);
            s.phase.Poll? && s.pending == [f] && s.counter == 0 && s.debts == map[]
  {
    RunOfFour(INITIAL, OwnerPush(f), OwnerCheck, EnterLoop, TestQuit);
  }

  lemma {:induction false} RunInParts(s: State, a: seq<Action>, b: seq<Action>)
    ensures Run(s, a + b) == Run(Run(s, a), b)
    decreases |a|
  {
    if a == [] {
      assert a + b == b;
    } else {
      assert (a + b)[1..] == a[1..] + b;
      RunInParts(Step(s, a[0]), a[1..], b);
    }
  }

  lemma RunOfOne(s: State, a: Action)
    ensures Run(s, [a]) == Step(s, a)
  {
    assert Run(Step(s, a), []) == Step(s, a);
  }

  lemma RunOfTwo(s: State, a: Action, b: Action)
    ensures Run(s, [a, b]) == Step(Step(s, a), b)
  {
    assert [a, b] == [a] + [b];
    RunInParts(s, [a], [b]);
    RunOfOne(s, a);
    RunOfOne(Step(s, a), b);
  }

  lemma RunOfFour(s: State, a: Action, b: Action, c: Action, d: Action)
    ensures Run(s, [a, b, c, d]) == Step(Step(Step(Step(s, a), b), c), d)
  {
    assert [a, b, c, d] == [a, b] + [c, d];
    RunInParts(s, [a, b], [c, d]);
    RunOfTwo(s, a, b);
    RunOfTwo(Step(Step(s, a), b), c, d);
  }

  /** A functor of another thread is queued and the loop entered; the loop wakes; the functor runs, and what it
      owns is to be destroyed. */
  const QUEUED: seq<Action> := [Push(1, 1), Wake(1), EnterLoop, TestQuit]
  const WOKEN: seq<Action> := [PollReturns(true), ReadEventFd, HandlersDone, SetCalling]
  const RAN: seq<Action> := [SwapOut, StartNext] + [EndBatch]

  lemma ReachesPoll()
    ensures Run(INITIAL, QUEUED) == INITIAL.(phase := Poll, pending := [1], pushed := [1], counter := 1, polls := 1)
  {
    RunOfFour(INITIAL, Push(1, 1), Wake(1), EnterLoop, TestQuit);
    assert map[1 := ForPush] - {1} == map[];
  }

  lemma ReachesSwap(s: State)
    requires s == INITIAL.(phase := Poll, pending := [1], pushed := [1], counter := 1, polls := 1)
    ensures Run(s, WOKEN) == s.(phase := Swap, counter := 0, sweepMark := 1, calling := true)
  {
    RunOfFour(s, PollReturns(true), ReadEventFd, HandlersDone, SetCalling);
  }

  /** Up to the destructors of the first batch. */
  const FIRST_BATCH: seq<Action> := QUEUED + WOKEN + RAN

  lemma FirstBatchIsReleased()
    ensures Run(INITIAL, FIRST_BATCH)
            == INITIAL.(phase := Release, pushed := [1], executed := [1], polls := 1, sweepMark := 1, batchEnd := 1)
  {
    ReachesPoll();
    var s1 := INITIAL.(phase := Poll, pending := [1], pushed := [1], counter := 1, polls := 1);
    ReachesSwap(s1);
    ReachesRelease(s1.(phase := Swap, counter := 0, sweepMark := 1, calling := true));
    RunInParts(INITIAL, QUEUED, WOKEN);
    RunInParts(INITIAL, QUEUED + WOKEN, RAN);
  }

  lemma ReachesRelease(s: State)
    requires s == INITIAL.(phase := Swap, pending := [1], pushed := [1], polls := 1, sweepMark := 1, calling := true)
    ensures Run(s, RAN) == s.(phase := Release, pending := [], executed := [1], batchEnd := 1, calling := false)
  {
    RunOfTwo(s, SwapOut, StartNext);
    RunOfOne(Step(Step(s, SwapOut), StartNext), EndBatch);
    RunInParts(s, [SwapOut, StartNext], [EndBatch]);
  }

  /** ... and a functor that a destructor queues then waits unannounced, too. */
  lemma QueuedInDestructorIsNotAnnounced(f: Functor)
    ensures var s := Run(INITIAL, FIRST_BATCH + [OwnerPush(f), OwnerCheck, Released, TestQuit]);
            s.phase.Poll? && s.pending == [f] && s.counter == 0 && s.debts == map[]
  {
    FirstBatchIsReleased();
    RunInParts(INITIAL, FIRST_BATCH, [OwnerPush(f), OwnerCheck, Released, TestQuit]);
    RunOfFour(Run(INITIAL, FIRST_BATCH), OwnerPush(f), OwnerCheck, Released, TestQuit);
  }

  /** An announcement ends the poll: if the eventfd is readable poll can report it, and a thread that owes a wakeup
      can make it so, wherever the loop is. */
  lemma AnnouncementEndsPoll(s: State, t: Thread)
    ensures t in s.debts ==> Step(s, Wake(t)) == s.(counter := s.counter + 1, debts := s.debts - {t})
    ensures s.phase.Poll? && s.counter > 0 ==>
              var s' := Step(s, PollReturns(true)); s'.phase.Handle? && s'.wakeReady
    ensures s.phase.Poll? && t in s.debts ==>
              var s' := Run(s, [Wake(t), PollReturns(true)]); s'.phase.Handle? && s'.wakeReady
  {
    RunOfTwo(s, Wake(t), PollReturns(true));
  }

  // ----- no functor waits through a second poll -----

  /** Every functor that was waiting when poll last returned has been started once the loop is back at
      its test. */
  ghost predicate Swept(s: State) {
    match s.phase
    case Handle => s.sweepMark <= |s.pushed|
    case Begin => s.sweepMark <= |s.pushed|
    case Swap => s.sweepMark <= |s.pushed|
    case Execute => s.sweepMark <= |s.executed| + |s.batch|
    case _ => s.sweepMark <= |s.executed|
  }

  lemma StepSweeps(s: State, a: Action)
    requires InOrder(s) && Swept(s)
    ensures Swept(Step(s, a))
  {
  }

  lemma {:induction false} RunSweeps(s: State, actions: seq<Action>)
    requires InOrder(s) && Swept(s)
    ensures Swept(Run(s, actions))
    decreases |actions|
  {
    if actions != [] {
      StepKeepsOrder(s, actions[0]);
      StepSweeps(s, actions[0]);
      RunSweeps(Step(s, actions[0]), actions[1..]);
    }
  }

  lemma StepKeepsMark(s: State, a: Action)
    requires !a.PollReturns?
    ensures Step(s, a).sweepMark == s.sweepMark
  {
  }

  lemma {:induction false} RunKeepsMark(s: State, actions: seq<Action>)
    requires forall i :: 0 <= i < |actions| ==> !actions[i].PollReturns?
    ensures Run(s, actions).sweepMark == s.sweepMark
    decreases |actions|
  {
    if actions != [] {
      StepKeepsMark(s, actions[0]);
      RunKeepsMark(Step(s, actions[0]), actions[1..]);
    }
  }

  /** In every run: at the test, at poll and after loop() has returned, the functors pushed before the
      last return of poll have all been started. */
  lemma OneIterationRunsAllThatWaited(before: seq<Action>, wakeReady: bool, after: seq<Action>)
    requires Run(INITIAL, before).phase.Poll? && (wakeReady ==> Run(INITIAL, before).counter > 0)
    requires forall i :: 0 <= i < |after| ==> !after[i].PollReturns?
    ensures var s := Run(INITIAL, before + [PollReturns(wakeReady)] + after);
            s.phase.Release? || s.phase.Test? || s.phase.Poll? || s.phase.Outside? ==>
              Pushes(INITIAL, before) <= s.executed
  {
    var s0 := Run(INITIAL, before);
    var s1 := Step(s0, PollReturns(wakeReady));
    RunInParts(INITIAL, before + [PollReturns(wakeReady)], after);
    RunInParts(INITIAL, before, [PollReturns(wakeReady)]);
    RunOfOne(s0, PollReturns(wakeReady));
    RunKeepsOrder(INITIAL, before);
    PushedFromInitial(before);
    AfterPollAllRun(s1, after);
  }

  lemma AfterPollAllRun(s: State, after: seq<Action>)
    requires InOrder(s) && s.phase.Handle? && s.sweepMark == |s.pushed|
    requires forall i :: 0 <= i < |after| ==> !after[i].PollReturns?
    ensures var s' := Run(s, after);
            s'.phase.Release? || s'.phase.Test? || s'.phase.Poll? || s'.phase.Outside? ==> s.pushed <= s'.executed
  {
    RunSweeps(s, after);
    RunKeepsOrder(s, after);
    RunKeepsMark(s, after);
    RunPushes(s, after);
    var s' := Run(s, after);
    assert s'.pushed[..|s.pushed|] == s.pushed;
    assert s'.executed == s'.pushed[..|s'.executed|];
  }

  // ----- quitting -----

  /** At poll, a request to quit is announced too. */
  ghost predicate QuitAnnounced(s: State) {
    s.phase.Poll? && s.quit ==> s.counter > 0 || SomeoneOwes(s, ForQuit)
  }

  lemma StepAnnouncesQuit(s: State, a: Action)
    requires QuitAnnounced(s)
    ensures QuitAnnounced(Step(s, a))
  {
    var s' := Step(s, a);
    if Enabled(s, a) {
      if a.Quit? {
        assert s'.debts[a.t] == ForQuit;
      } else if a.Push? && SomeoneOwes(s, ForQuit) {
        var t :| t in s.debts && s.debts[t] == ForQuit;
        assert t in s'.debts && s'.debts[t] == ForQuit;
      }
    }
  }

  /** In every run, without exception: the loop is never at poll with a request to quit that will not wake
      it. */
  lemma {:induction false} RunAnnouncesQuit(s: State, actions: seq<Action>)
    requires QuitAnnounced(s)
    ensures QuitAnnounced(Run(s, actions))
    decreases |actions|
  {
    if actions != [] {
      StepAnnouncesQuit(s, actions[0]);
      RunAnnouncesQuit(Step(s, actions[0]), actions[1..]);
    }
  }

  lemma StepObeysQuit(s: State, a: Action)
    requires s.quit && !a.EnterLoop?
    ensures Step(s, a).quit && Step(s, a).polls == s.polls
  {
  }

  /** A request made while the loop runs stays, and the loop never enters poll again. */
  lemma {:induction false} QuitIsObeyed(s: State, actions: seq<Action>)
    requires s.quit && EnterLoop !in actions
    ensures Run(s, actions).quit && Run(s, actions).polls == s.polls
    decreases |actions|
  {
    if actions != [] {
      StepObeysQuit(s, actions[0]);
      QuitIsObeyed(Step(s, actions[0]), actions[1..]);
    }
  }

  /** From here on the run does not enter poll before loop() returns. */
  ghost predicate NoPollBeforeReturn(s: State, actions: seq<Action>)
    decreases |actions|
  {
    actions != [] ==>
      if actions[0].TestQuit? && Enabled(s, TestQuit) then Step(s, TestQuit).phase.Outside?
      else NoPollBeforeReturn(Step(s, actions[0]), actions[1..])
  }

  lemma StepStaysInside(s: State, a: Action)
    requires s.quit && !s.phase.Outside?
    ensures Step(s, a).quit && (Step(s, a).phase.Outside? ==> a.TestQuit?)
  {
  }

  lemma {:induction false} RequestInsideIsObeyed(s: State, actions: seq<Action>)
    requires s.quit && !s.phase.Outside?
    ensures NoPollBeforeReturn(s, actions)
    decreases |actions|
  {
    if actions != [] && !(actions[0].TestQuit? && Enabled(s, TestQuit)) {
      StepStaysInside(s, actions[0]);
      RequestInsideIsObeyed(Step(s, actions[0]), actions[1..]);
    }
  }

  /** The run that polls in spite of the request. */
  lemma RequestOutsideIsForgotten(s: State) returns (actions: seq<Action>)
    requires s.phase.Outside?
    ensures !NoPollBeforeReturn(s, actions)
    decreases s.ownerChecks
  {
    if s.ownerChecks {
      var rest := RequestOutsideIsForgotten(Step(s, OwnerCheck));
      actions := [OwnerCheck] + rest;
      assert actions[1..] == rest;
    } else {
      actions := [EnterLoop, TestQuit];
      assert actions[1..] == [TestQuit];
      assert !NoPollBeforeReturn(Step(s, EnterLoop), [TestQuit]);
    }
  }

  /** The loop thread may ask to quit in all user code, another thread wherever the loop is, unless it is between an
      earlier call and its wakeup. */
  predicate MayQuit(s: State, q: Action) {
    match q
    case OwnerQuit =>
      (s.phase.Outside? || s.phase.Handle? || s.phase.Execute? || s.phase.Release?) && !s.ownerChecks
    case Quit(t) => t !in s.debts
    case _ => false
  }

  /** A request to quit, by the loop thread or by another, makes loop() return without entering poll again,
      whatever else happens, if and only if loop() has been entered when it is made. */
  lemma QuitEndsLoopIffInside(s: State, q: Action)
    requires MayQuit(s, q)
    ensures (forall actions :: NoPollBeforeReturn(Step(s, q), actions)) <==> !s.phase.Outside?
  {
    RequestIsMade(s, q);
    if s.phase.Outside? {
      var actions := RequestOutsideIsForgotten(Step(s, q));
    } else {
      forall actions ensures NoPollBeforeReturn(Step(s, q), actions) {
        RequestInsideIsObeyed(Step(s, q), actions);
      }
    }
  }

  lemma RequestIsMade(s: State, q: Action)
    requires MayQuit(s, q)
    ensures Step(s, q).quit && Step(s, q).phase == s.phase
  {
  }

  /** A request made before loop() is entered is forgotten: with it or without it, entering leads to the
      same state, at poll. The other thread has only its wakeup left to make, which ends that one poll. */
  lemma QuitBeforeLoopIsForgotten(s: State, t: Thread)
    requires s.phase.Outside? && !s.ownerChecks
    ensures var s' := Run(s, [EnterLoop, TestQuit]);
            && s'.phase.Poll? && !s'.quit
            && Run(s, [OwnerQuit, EnterLoop, TestQuit]) == s'
            && (t !in s.debts ==> Run(s, [Quit(t), EnterLoop, TestQuit]) == s'.(debts := s.debts[t := ForQuit]))
  {
    RunOfTwo(s, EnterLoop, TestQuit);
    QuitThenEnter(s, OwnerQuit);
    QuitThenEnter(s, Quit(t));
  }

  lemma QuitThenEnter(s: State, q: Action)
    ensures Run(s, [q, EnterLoop, TestQuit]) == Step(Step(Step(s, q), EnterLoop), TestQuit)
  {
    assert [q, EnterLoop, TestQuit] == [q] + [EnterLoop, TestQuit];
    RunInParts(s, [q], [EnterLoop, TestQuit]);
    RunOfOne(s, q);
    RunOfTwo(Step(s, q), EnterLoop, TestQuit);
  }
}
