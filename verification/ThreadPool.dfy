/** The thread pool as a monitor: every section under the mutex is one atomic step, and a worker's wait
    releases the mutex in the step that finds the queue empty. Tasks are known by their place in the
    order in which they were queued. */
module ThreadPool {

  type Worker = nat

  /** A queued function object may be empty. */
  datatype Task = Empty | Work

  /** Where a worker is: in the thread-init callback; on its way to the lock above the queue test; waiting
      on the condition variable; past the lock with a task in hand, not yet started; running it; returned;
      or ended by an exception that a task or the callback threw. */
  datatype Place =
    | Starting
    | Heading
    | Waiting
    | Holding(task: nat)
    | Running(task: nat)
    | Returned
    | Thrown

  /** `tasks` are all tasks ever queued, the first `popped` of them taken; so the queue is the rest.
      `started`, `finished` and `failed` are the tasks whose call was made, returned, threw. `stopMark` is
      the number of tasks queued when stop was first called. */
  datatype State = State(
    running: bool,
    tasks: seq<Task>,
    popped: nat,
    workers: map<Worker, Place>,
    started: seq<nat>,
    finished: set<nat>,
    failed: set<nat>,
    stopMark: nat)

  function Queue(s: State): seq<Task>
    requires s.popped <= |s.tasks|
  {
    s.tasks[s.popped..]
  }

  /** start() has set the flag, and its workers come into being one by one; tasks may have been queued
      before. */
  ghost predicate Started(s: State) {
    s.running && s.popped == 0 && s.workers == map[] && s.started == [] && s.finished == {} && s.failed == {}
    && s.stopMark == 0
  }

  datatype Action =
    | Spawn(w: Worker)
    | Enter(w: Worker)        // the init callback returned, or there is none
    | Take(w: Worker)         // lock, test the queue: pop, wait or return
    | SpuriousWake(w: Worker)
    | Begin(w: Worker)        // test the task: call it, or drop an empty one
    | Finish(w: Worker)
    | Throw(w: Worker)
    | Add(task: Task, notified: Worker)   // lock, push_back, notify_one
    | Stop                    // lock, clear the flag, notify_all

  predicate Enabled(s: State, a: Action) {
    match a
    case Spawn(w) => w !in s.workers
    case Enter(w) => w in s.workers && s.workers[w].Starting?
    case Take(w) => w in s.workers && s.workers[w].Heading? && s.popped <= |s.tasks|
    case SpuriousWake(w) => w in s.workers && s.workers[w].Waiting?
    case Begin(w) => w in s.workers && s.workers[w].Holding? && s.workers[w].task < |s.tasks|
    case Finish(w) => w in s.workers && s.workers[w].Running?
    case Throw(w) => w in s.workers && (s.workers[w].Running? || s.workers[w].Starting?)
    // notify_one wakes one of the waiting workers, any of them, if there is one
    case Add(_, w) => (exists x :: x in s.workers && s.workers[x].Waiting?) ==> w in s.workers && s.workers[w].Waiting?
    case Stop => true
  }

  function Move(s: State, w: Worker, p: Place): State {
    s.(workers := s.workers[w := p])
  }

  function WakeAll(workers: map<Worker, Place>): map<Worker, Place> {
    map w | w in workers :: if workers[w].Waiting? then Heading else workers[w]
  }

  function Step(s: State, a: Action): State {
    if !Enabled(s, a) then s else
    match a
    case Spawn(w) => Move(s, w, Starting)
    case Enter(w) => Move(s, w, Heading)
    case Take(w) =>
      if s.popped == |s.tasks| then
        if !s.running then Move(s, w, Returned) else Move(s, w, Waiting)
      else Move(s, w, Holding(s.popped)).(popped := s.popped + 1)
    case SpuriousWake(w) => Move(s, w, Heading)
    case Begin(w) =>
      if s.tasks[s.workers[w].task].Empty? then Move(s, w, Heading)
      else Move(s, w, Running(s.workers[w].task)).(started := s.started + [s.workers[w].task])
    case Finish(w) => Move(s, w, Heading).(finished := s.finished + {s.workers[w].task})
    case Throw(w) =>
      if s.workers[w].Running? then Move(s, w, Thrown).(failed := s.failed + {s.workers[w].task})
      else Move(s, w, Thrown)
    case Add(task, w) =>
      var s' := s.(tasks := s.tasks + [task]);
      if w in s.workers && s.workers[w].Waiting? then Move(s', w, Heading) else s'
    case Stop =>
      s.(running := false, workers := WakeAll(s.workers),
         stopMark := if s.running then |s.tasks| else s.stopMark)
  }

  function Run(s: State, actions: seq<Action>): State
    decreases |actions|
  {
    if actions == [] then s else Run(Step(s, actions[0]), actions[1..])
  }

  // ----- no work beside sleepers -----

  function HeadingWorkers(s: State): set<Worker> {
    set w | w in s.workers && s.workers[w].Heading?
  }

  ghost predicate SomeoneWaits(s: State) {
    exists w :: w in s.workers && s.workers[w].Waiting?
  }

  /** If a worker sleeps, enough workers are awake and on their way to the queue to take all of it. */
  ghost predicate NoWorkBesideSleepers(s: State) {
    s.popped <= |s.tasks| && (SomeoneWaits(s) ==> |s.tasks| - s.popped <= |HeadingWorkers(s)|)
  }

  lemma MoveHeads(s: State, w: Worker, p: Place)
    ensures HeadingWorkers(Move(s, w, p)) == if p.Heading? then HeadingWorkers(s) + {w} else HeadingWorkers(s) - {w}
  {
  }

  lemma MoveCounts(s: State, w: Worker, p: Place)
    ensures var s' := Move(s, w, p);
            && HeadingWorkers(s') == (if p.Heading? then HeadingWorkers(s) + {w} else HeadingWorkers(s) - {w})
            && (SomeoneWaits(s') ==> p.Waiting? || SomeoneWaits(s))
            && (p.Waiting? ==> SomeoneWaits(s'))
            && (p.Heading? ==> |HeadingWorkers(s')| == |HeadingWorkers(s)| + if w in HeadingWorkers(s) then 0 else 1)
  {
    var s' := Move(s, w, p);
    MoveHeads(s, w, p);
    if p.Waiting? {
      assert s'.workers[w].Waiting?;
    }
    if p.Heading? {
      WithOneMore(HeadingWorkers(s), w);
    }
  }

  lemma WithOneMore(workers: set<Worker>, w: Worker)
    ensures |workers + {w}| == |workers| + if w in workers then 0 else 1
  {
    if w in workers {
      assert workers + {w} == workers;
    }
  }

  /** A move to the queue, or between places off the way to it. */
  lemma MoveKeepsBalance(s: State, w: Worker, p: Place)
    requires NoWorkBesideSleepers(s) && !p.Waiting? && (p.Heading? || w !in HeadingWorkers(s))
    ensures NoWorkBesideSleepers(Move(s, w, p))
  {
    MoveCounts(s, w, p);
  }

  /** A worker leaves the way to the queue with a task, or because there is none. */
  lemma TakeKeepsBalance(s: State, w: Worker)
    requires NoWorkBesideSleepers(s) && Enabled(s, Take(w))
    ensures NoWorkBesideSleepers(Step(s, Take(w)))
  {
    if s.popped < |s.tasks| {
      MoveCounts(s, w, Holding(s.popped));
    }
  }

  /** A new task comes with one more worker on its way, if one slept. */
  lemma AddKeepsBalance(s: State, task: Task, w: Worker)
    requires NoWorkBesideSleepers(s) && Enabled(s, Add(task, w))
    ensures NoWorkBesideSleepers(Step(s, Add(task, w)))
  {
    var s' := s.(tasks := s.tasks + [task]);
    if w in s.workers && s.workers[w].Waiting? {
      MoveCounts(s', w, Heading);
    }
  }

  lemma StepKeepsNoWorkBesideSleepers(s: State, a: Action)
    requires NoWorkBesideSleepers(s)
    ensures NoWorkBesideSleepers(Step(s, a))
  {
    if Enabled(s, a) {
      match a
      case Spawn(w) => MoveKeepsBalance(s, w, Starting);
      case Enter(w) => MoveKeepsBalance(s, w, Heading);
      case Take(w) => TakeKeepsBalance(s, w);
      case SpuriousWake(w) => MoveKeepsBalance(s, w, Heading);
      case Begin(w) =>
        MoveKeepsBalance(s, w, if s.tasks[s.workers[w].task].Empty? then Heading else Running(s.workers[w].task));
      case Finish(w) => MoveKeepsBalance(s, w, Heading);
      case Throw(w) => MoveKeepsBalance(s, w, Thrown);
      case Add(task, w) => AddKeepsBalance(s, task, w);
      case Stop => assert !SomeoneWaits(Step(s, a));
    }
  }

  /** In every run, for any number of workers, with spurious wake-ups, throwing tasks and any choice of the
      worker that a notification reaches. */
  lemma {:induction false} RunKeepsNoWorkBesideSleepers(s: State, actions: seq<Action>)
    requires NoWorkBesideSleepers(s)
    ensures NoWorkBesideSleepers(Run(s, actions))
    decreases |actions|
  {
    if actions != [] {
      StepKeepsNoWorkBesideSleepers(s, actions[0]);
      RunKeepsNoWorkBesideSleepers(Step(s, actions[0]), actions[1..]);
    }
  }

  lemma NeverWorkBesideSleepers(s: State, actions: seq<Action>)
    requires Started(s)
    ensures NoWorkBesideSleepers(Run(s, actions))
  {
    RunKeepsNoWorkBesideSleepers(s, actions);
  }

  // ----- every task is taken once, in order, and run once -----

  predicate Busy(s: State, w: Worker) {
    w in s.workers && (s.workers[w].Holding? || s.workers[w].Running?)
  }

  /** Tasks in hand are taken ones, each in one hand; a task that runs has been called and is not done. */
  ghost predicate InHand(s: State) {
    && (forall w :: Busy(s, w) ==> s.workers[w].task < s.popped)
    && (forall w :: Busy(s, w) ==> (s.workers[w].Running? <==> s.workers[w].task in s.started))
    && (forall w :: Busy(s, w) ==> s.workers[w].task !in s.finished + s.failed)
    && (forall w, x :: Busy(s, w) && Busy(s, x) && w != x ==> s.workers[w].task != s.workers[x].task)
  }

  /** Only taken tasks that hold work are called, each once, and only called ones end, each in one way. */
  ghost predicate CalledOnce(s: State) {
    && s.popped <= |s.tasks|
    && (forall i, j :: 0 <= i < j < |s.started| ==> s.started[i] != s.started[j])
    && (forall k :: k in s.started ==> k < s.popped && s.tasks[k].Work?)
    && s.finished !! s.failed
    && (forall k :: k in s.finished + s.failed ==> k in s.started)
  }

  /** Every task taken is in some hand, done, or was empty. */
  ghost predicate NothingDropped(s: State) {
    s.popped <= |s.tasks|
    && forall k :: 0 <= k < s.popped && s.tasks[k].Work? && k !in s.finished + s.failed ==> InSomeHand(s, k)
  }

  ghost predicate InSomeHand(s: State, k: nat) {
    exists w :: Busy(s, w) && s.workers[w].task == k
  }

  ghost predicate Accounted(s: State) {
    InHand(s) && CalledOnce(s) && NothingDropped(s)
  }

  /** A worker without a task goes somewhere without taking one. */
  lemma IdleMoveKeepsAccounts(s: State, w: Worker, p: Place)
    requires Accounted(s) && !Busy(s, w) && !p.Holding? && !p.Running?
    ensures Accounted(Move(s, w, p))
  {
    var s' := Move(s, w, p);
    forall k | InSomeHand(s, k) ensures InSomeHand(s', k) {
      var x :| Busy(s, x) && s.workers[x].task == k;
      assert Busy(s', x);
    }
  }

  lemma TakeKeepsAccounts(s: State, w: Worker)
    requires Accounted(s) && w in s.workers && s.workers[w].Heading? && s.popped < |s.tasks|
    ensures Accounted(Step(s, Take(w)))
  {
    var s' := Step(s, Take(w));
    assert Busy(s', w);
    forall k | InSomeHand(s, k) ensures InSomeHand(s', k) {
      var x :| Busy(s, x) && s.workers[x].task == k;
      assert Busy(s', x);
    }
  }

  /** A held task is called. */
  lemma CallKeepsAccounts(s: State, w: Worker)
    requires Accounted(s) && Enabled(s, Begin(w)) && s.tasks[s.workers[w].task].Work?
    ensures Accounted(Step(s, Begin(w)))
  {
    var s' := Step(s, Begin(w));
    forall k | InSomeHand(s, k) ensures InSomeHand(s', k) {
      var x :| Busy(s, x) && s.workers[x].task == k;
      assert Busy(s', x);
    }
  }

  /** A held task that is empty is put away. */
  lemma DropKeepsAccounts(s: State, w: Worker)
    requires Accounted(s) && Enabled(s, Begin(w)) && s.tasks[s.workers[w].task].Empty?
    ensures Accounted(Step(s, Begin(w)))
  {
    var s' := Step(s, Begin(w));
    forall k | InSomeHand(s, k) && k != s.workers[w].task ensures InSomeHand(s', k) {
      var x :| Busy(s, x) && s.workers[x].task == k;
      assert Busy(s', x);
    }
  }

  lemma EndKeepsAccounts(s: State, w: Worker, a: Action)
    requires Accounted(s) && w in s.workers && s.workers[w].Running? && (a == Finish(w) || a == Throw(w))
    ensures Accounted(Step(s, a))
  {
    EndKeepsInHand(s, w, a);
    EndDropsNothing(s, w, a);
  }

  lemma EndKeepsInHand(s: State, w: Worker, a: Action)
    requires Accounted(s) && w in s.workers && s.workers[w].Running? && (a == Finish(w) || a == Throw(w))
    ensures InHand(Step(s, a)) && CalledOnce(Step(s, a))
  {
    assert Busy(s, w);
    assert forall x :: Busy(Step(s, a), x) <==> Busy(s, x) && x != w;
  }

  lemma EndDropsNothing(s: State, w: Worker, a: Action)
    requires Accounted(s) && w in s.workers && s.workers[w].Running? && (a == Finish(w) || a == Throw(w))
    ensures NothingDropped(Step(s, a))
  {
    var s' := Step(s, a);
    var k0 := s.workers[w].task;
    forall k | InSomeHand(s, k) && k != k0 ensures InSomeHand(s', k) {
      var x :| Busy(s, x) && s.workers[x].task == k;
      assert Busy(s', x);
    }
  }

  lemma AddKeepsAccounts(s: State, task: Task)
    requires Accounted(s)
    ensures Accounted(s.(tasks := s.tasks + [task]))
  {
  }

  lemma StopKeepsAccounts(s: State)
    requires Accounted(s)
    ensures Accounted(Step(s, Stop))
  {
    var s' := Step(s, Stop);
    forall k | InSomeHand(s, k) ensures InSomeHand(s', k) {
      var x :| Busy(s, x) && s.workers[x].task == k;
      assert Busy(s', x);
    }
  }

  lemma StepKeepsAccounts(s: State, a: Action)
    requires Accounted(s)
    ensures Accounted(Step(s, a))
  {
    if Enabled(s, a) {
      match a
      case Spawn(w) => IdleMoveKeepsAccounts(s, w, Starting);
      case Enter(w) => IdleMoveKeepsAccounts(s, w, Heading);
      case Take(w) =>
        if s.popped == |s.tasks| {
          IdleMoveKeepsAccounts(s, w, if !s.running then Returned else Waiting);
        } else {
          TakeKeepsAccounts(s, w);
        }
      case SpuriousWake(w) => IdleMoveKeepsAccounts(s, w, Heading);
      case Begin(w) =>
        if s.tasks[s.workers[w].task].Empty? {
          DropKeepsAccounts(s, w);
        } else {
          CallKeepsAccounts(s, w);
        }
      case Finish(w) => EndKeepsAccounts(s, w, a);
      case Throw(w) =>
        if s.workers[w].Running? {
          EndKeepsAccounts(s, w, a);
        } else {
          IdleMoveKeepsAccounts(s, w, Thrown);
        }
      case Add(task, w) =>
        AddKeepsAccounts(s, task);
        if w in s.workers && s.workers[w].Waiting? {
          IdleMoveKeepsAccounts(s.(tasks := s.tasks + [task]), w, Heading);
        }
      case Stop => StopKeepsAccounts(s);
    }
  }

  /** A worker takes the front of the queue and nothing else leaves or reorders it. */
  lemma QueueIsFifo(s: State, a: Action)
    requires s.popped <= |s.tasks|
    ensures var s' := Step(s, a);
            s'.popped <= |s'.tasks|
            && Queue(s') == (if s'.popped > s.popped then Queue(s)[1..]
                             else if a.Add? && Enabled(s, a) then Queue(s) + [a.task] else Queue(s))
    ensures Step(s, a).popped > s.popped ==>
              a.Take? && Queue(s) != [] && Step(s, a).workers[a.w] == Holding(s.popped) && s.tasks[s.popped] == Queue(s)[0]
  {
  }

  // ----- stopping -----

  ghost predicate SomeoneThrew(s: State) {
    exists w :: w in s.workers && s.workers[w].Thrown?
  }

  /** After stop nobody sleeps; and a worker that has returned had found the queue empty after stop, so
      that all tasks queued before were taken. */
  ghost predicate Drains(s: State) {
    && s.stopMark <= |s.tasks| && s.popped <= |s.tasks|
    && (!s.running ==> !SomeoneWaits(s))
    && (forall w :: w in s.workers && s.workers[w].Returned? ==> !s.running && s.stopMark <= s.popped)
    && (s.failed != {} ==> SomeoneThrew(s))
  }

  lemma FailureLeavesATrace(s: State, a: Action)
    requires s.failed != {} ==> SomeoneThrew(s)
    ensures Step(s, a).failed != {} ==> SomeoneThrew(Step(s, a))
  {
    var s' := Step(s, a);
    if s.failed != {} {
      var w :| w in s.workers && s.workers[w].Thrown?;
      assert w in s'.workers && s'.workers[w].Thrown?;
    }
    if Enabled(s, a) && a.Throw? {
      assert s'.workers[a.w].Thrown?;
    }
  }

  lemma StepDrains(s: State, a: Action)
    requires Drains(s)
    ensures Drains(Step(s, a))
  {
    FailureLeavesATrace(s, a);
  }

  lemma {:induction false} RunDrains(s: State, actions: seq<Action>)
    requires Drains(s) && Accounted(s)
    ensures Drains(Run(s, actions)) && Accounted(Run(s, actions))
    decreases |actions|
  {
    if actions != [] {
      StepDrains(s, actions[0]);
      StepKeepsAccounts(s, actions[0]);
      RunDrains(Step(s, actions[0]), actions[1..]);
    }
  }

  /** Once stopped, the pool stays stopped, the mark stays, and no worker is waiting at any later time. */
  lemma {:induction false} NobodyWaitsAfterStop(s: State, actions: seq<Action>)
    requires Drains(s) && !s.running
    ensures var s' := Run(s, actions); !s'.running && !SomeoneWaits(s') && s'.stopMark == s.stopMark
    decreases |actions|
  {
    if actions != [] {
      StepDrains(s, actions[0]);
      NobodyWaitsAfterStop(Step(s, actions[0]), actions[1..]);
    }
  }

  /** What the destructor finds when every thread has been joined: if at least one worker has returned, the
      tasks queued before stop were all taken, and each that holds work was called exactly once and has
      returned, or thrown. Without exceptions, all have returned. */
  lemma ShutdownDrains(s0: State, actions: seq<Action>)
    requires Started(s0)
    ensures var s := Run(s0, actions);
            (forall w :: w in s.workers ==> s.workers[w].Returned? || s.workers[w].Thrown?)
            && (exists w :: w in s.workers && s.workers[w].Returned?) ==>
              && !s.running && s.stopMark <= s.popped <= |s.tasks|
              && (forall k :: 0 <= k < s.stopMark && s.tasks[k].Work? ==> k in s.started && k in s.finished + s.failed)
              && (forall i, j :: 0 <= i < j < |s.started| ==> s.started[i] != s.started[j])
              && ((forall w :: w in s.workers ==> s.workers[w].Returned?) ==> s.failed == {})
  {
    RunDrains(s0, actions);
  }

  /** stop itself fixes the mark. */
  lemma StopMarksTheQueue(s: State, actions: seq<Action>)
    requires Drains(s) && s.running
    ensures Run(s, [Stop] + actions).stopMark == |s.tasks|
  {
    StepDrains(s, Stop);
    NobodyWaitsAfterStop(Step(s, Stop), actions);
  }

  // ----- progress -----

  /** What a worker does by itself, if nothing throws and nobody wakes it. */
  predicate Own(a: Action, w: Worker) {
    (a.Enter? || a.Take? || a.Begin? || a.Finish?) && a.w == w
  }

  predicate AllOwn(actions: seq<Action>, w: Worker) {
    forall i :: 0 <= i < |actions| ==> Own(actions[i], w)
  }

  /** It has neither returned nor thrown. */
  predicate Alive(s: State, w: Worker) {
    w in s.workers && !s.workers[w].Returned? && !s.workers[w].Thrown?
  }

  predicate Awake(s: State, w: Worker) {
    Alive(s, w) && !s.workers[w].Waiting?
  }

  /** Tasks in hand exist; this holds in every reachable state. */
  ghost predicate Sound(s: State) {
    s.popped <= |s.tasks| && forall w :: Busy(s, w) ==> s.workers[w].task < |s.tasks|
  }

  /** Where a worker goes from a place, by what: it waits only for an empty queue before stop, returns only from an
      empty queue after it, comes back to the queue from every task, and ends otherwise only by its own throw. */
  predicate MayGo(s: State, a: Action, w: Worker, to: Place)
    requires w in s.workers && s.popped <= |s.tasks|
  {
    match s.workers[w]
    case Starting => (a == Enter(w) && to == Heading) || (a == Throw(w) && to == Thrown)
    case Heading =>
      a == Take(w)
      && to == if s.popped < |s.tasks| then Holding(s.popped) else if s.running then Waiting else Returned
    case Waiting => (a == SpuriousWake(w) || (a.Add? && a.notified == w) || a == Stop) && to == Heading
    case Holding(k) =>
      a == Begin(w) && k < |s.tasks| && to == if s.tasks[k].Work? then Running(k) else Heading
    case Running(_) => (a == Finish(w) && to == Heading) || (a == Throw(w) && to == Thrown)
    case Returned => false
    case Thrown => false
  }

  lemma WorkersLife(s: State, a: Action, w: Worker)
    requires s.popped <= |s.tasks|
    ensures var s' := Step(s, a);
            if w in s.workers then
              w in s'.workers && (s'.workers[w] == s.workers[w] || MayGo(s, a, w, s'.workers[w]))
            else w in s'.workers ==> a == Spawn(w) && s'.workers[w] == Starting
  {
  }

  /** From s to s' only the worker w has moved, and nothing was queued. */
  ghost predicate Moved(s: State, s': State, w: Worker) {
    && w in s'.workers && s'.workers == s.workers[w := s'.workers[w]]
    && s'.running == s.running && s'.tasks == s.tasks && s.popped <= s'.popped <= |s.tasks|
    && s.started <= s'.started && s'.stopMark == s.stopMark
  }

  lemma MovedOn(s: State, s1: State, s2: State, w: Worker)
    requires Moved(s, s1, w) && Moved(s1, s2, w)
    ensures Moved(s, s2, w)
  {
  }

  lemma MovedIsSound(s: State, s': State, w: Worker)
    requires Sound(s) && Moved(s, s', w) && !Busy(s', w)
    ensures Sound(s')
  {
    forall x | Busy(s', x) ensures s'.workers[x].task < |s'.tasks| {
      assert Busy(s, x);
    }
  }

  lemma {:induction false} RunInParts(s: State, a: seq<Action>, b: seq<Action>)
    ensures Run(s, a + b) == Run(Run(s, a), b)
    decreases |a|
  {
    if a == [] {
      assert a + b == b;
    } else {
      assert (a + b)[1..] == a[1..] + b;
      RunInParts(Step(s, a[0]), a[1..], b);
    }
  }

  lemma RunOfOne(s: State, a: Action)
    ensures Run(s, [a]) == Step(s, a)
  {
    assert Run(Step(s, a), []) == Step(s, a);
  }

  /** A worker with a task in hand calls it, unless it is empty, and comes back to the queue. */
  lemma BackFromTask(s: State, w: Worker) returns (actions: seq<Action>)
    requires Sound(s) && Busy(s, w)
    ensures AllOwn(actions, w)
    ensures var s' := Run(s, actions);
            && Moved(s, s', w) && s'.workers[w].Heading? && s'.popped == s.popped
            && (s.workers[w].Holding? && s.tasks[s.workers[w].task].Work? ==> s.workers[w].task in s'.started)
  {
    if s.workers[w].Running? {
      actions := [Finish(w)];
      RunOfOne(s, Finish(w));
    } else if s.tasks[s.workers[w].task].Empty? {
      actions := [Begin(w)];
      RunOfOne(s, Begin(w));
    } else {
      var s1 := Step(s, Begin(w));
      actions := [Begin(w)] + [Finish(w)];
      RunOfOne(s, Begin(w));
      RunOfOne(s1, Finish(w));
      RunInParts(s, [Begin(w)], [Finish(w)]);
    }
  }

  /** Every worker that is awake comes to the queue by its own steps. */
  lemma ToQueue(s: State, w: Worker) returns (actions: seq<Action>)
    requires Sound(s) && Awake(s, w)
    ensures AllOwn(actions, w)
    ensures var s' := Run(s, actions);
            Moved(s, s', w) && s'.workers[w].Heading? && s'.popped == s.popped && Sound(s')
  {
    match s.workers[w] {
      case Starting =>
        actions := [Enter(w)];
        RunOfOne(s, Enter(w));
      case Heading => actions := [];
      case _ => actions := BackFromTask(s, w);
    }
    MovedIsSound(s, Run(s, actions), w);
  }

  /** There it takes the next task, deals with it, and comes back. */
  lemma TakeNext(s: State, w: Worker) returns (actions: seq<Action>)
    requires Sound(s) && w in s.workers && s.workers[w].Heading? && s.popped < |s.tasks|
    ensures AllOwn(actions, w)
    ensures var s' := Run(s, actions);
            && Moved(s, s', w) && s'.workers[w].Heading? && s'.popped == s.popped + 1 && Sound(s')
            && (s.tasks[s.popped].Work? ==> s.popped in s'.started)
  {
    var s1 := Step(s, Take(w));
    RunOfOne(s, Take(w));
    assert Sound(s1) by {
      forall x | Busy(s1, x) && x != w ensures s1.workers[x].task < |s1.tasks| {
        assert Busy(s, x);
      }
    }
    var back := BackFromTask(s1, w);
    actions := [Take(w)] + back;
    RunInParts(s, [Take(w)], back);
    MovedOn(s, s1, Run(s1, back), w);
    MovedIsSound(s, Run(s1, back), w);
  }

  lemma {:induction false} TakeUpTo(s: State, w: Worker, k: nat) returns (actions: seq<Action>)
    requires Sound(s) && w in s.workers && s.workers[w].Heading? && s.popped <= k < |s.tasks|
    ensures AllOwn(actions, w)
    ensures var s' := Run(s, actions);
            && Moved(s, s', w) && s'.workers[w].Heading? && s'.popped == k + 1 && Sound(s')
            && (s.tasks[k].Work? ==> k in s'.started)
    decreases k - s.popped
  {
    var next := TakeNext(s, w);
    if s.popped == k {
      actions := next;
    } else {
      var s1 := Run(s, next);
      var more := TakeUpTo(s1, w, k);
      actions := next + more;
      RunInParts(s, next, more);
      MovedOn(s, s1, Run(s1, more), w);
    }
  }

  lemma AwakeRuns(s: State, w: Worker, k: nat) returns (actions: seq<Action>)
    requires Sound(s) && Awake(s, w) && s.popped <= k < |s.tasks| && s.tasks[k].Work?
    ensures AllOwn(actions, w) && k in Run(s, actions).started
  {
    var there := ToQueue(s, w);
    var take := TakeUpTo(Run(s, there), w, k);
    actions := there + take;
    RunInParts(s, there, take);
  }

  /** While tasks wait, not all workers that are alive sleep. */
  lemma SomeoneIsAwake(s: State, w: Worker) returns (x: Worker)
    requires NoWorkBesideSleepers(s) && s.popped < |s.tasks| && Alive(s, w)
    ensures Awake(s, x)
  {
    if Awake(s, w) {
      x := w;
    } else {
      assert SomeoneWaits(s);
      assert HeadingWorkers(s) != {};
      x :| x in HeadingWorkers(s);
    }
  }

  /** From every reachable state in which a worker is alive, a task that waits is called by the own steps of one
      worker: no other thread has to move, and neither a notification nor a spurious wake-up is needed. */
  lemma QueuedTaskCanRun(s: State, w: Worker, k: nat) returns (x: Worker, actions: seq<Action>)
    requires Accounted(s) && NoWorkBesideSleepers(s) && Alive(s, w)
    requires s.popped <= k < |s.tasks| && s.tasks[k].Work?
    ensures AllOwn(actions, x) && k in Run(s, actions).started
  {
    x := SomeoneIsAwake(s, w);
    actions := AwakeRuns(s, x, k);
  }

  /** After stop, a worker that is alive empties the queue and returns, by its own steps. */
  lemma Retires(s: State, w: Worker) returns (actions: seq<Action>)
    requires Sound(s) && Awake(s, w) && !s.running
    ensures AllOwn(actions, w)
    ensures var s' := Run(s, actions);
            Moved(s, s', w) && s'.workers[w].Returned? && s'.popped == |s'.tasks| && Sound(s')
  {
    var there := ToQueue(s, w);
    var s1 := Run(s, there);
    var take := [];
    if s1.popped < |s1.tasks| {
      take := TakeUpTo(s1, w, |s1.tasks| - 1);
      MovedOn(s, s1, Run(s1, take), w);
    }
    RunInParts(s, there, take);
    var s2 := Run(s1, take);
    RunOfOne(s2, Take(w));
    RunInParts(s, there + take, [Take(w)]);
    actions := there + take + [Take(w)];
    MovedOn(s, s2, Run(s, actions), w);
    MovedIsSound(s, Run(s, actions), w);
  }

  function Unreturned(s: State): set<Worker> {
    set w | w in s.workers && !s.workers[w].Returned?
  }

  /** The actions are the workers' own. */
  predicate AllTheirOwn(actions: seq<Action>) {
    forall i :: 0 <= i < |actions| ==> actions[i].Enter? || actions[i].Take? || actions[i].Begin? || actions[i].Finish?
  }

  ghost predicate AllReturned(s: State) {
    forall w :: w in s.workers ==> s.workers[w].Returned?
  }

  lemma OneLess(s: State, s1: State, w: Worker)
    requires Moved(s, s1, w) && w in Unreturned(s) && s1.workers[w].Returned?
    ensures Unreturned(s1) == Unreturned(s) - {w} && s1.workers.Keys == s.workers.Keys
    ensures SomeoneThrew(s1) ==> SomeoneThrew(s)
    ensures SomeoneWaits(s1) ==> SomeoneWaits(s)
  {
  }

  /** After stop, if no worker has thrown, all workers can return by their own steps. */
  lemma {:induction false} AllCanReturn(s: State) returns (actions: seq<Action>)
    requires Sound(s) && !s.running && !SomeoneThrew(s) && !SomeoneWaits(s)
    ensures AllTheirOwn(actions)
    ensures Run(s, actions).workers.Keys == s.workers.Keys && AllReturned(Run(s, actions))
    decreases |Unreturned(s)|
  {
    if Unreturned(s) == {} {
      actions := [];
      forall w | w in s.workers ensures s.workers[w].Returned? {
        assert w !in Unreturned(s);
      }
    } else {
      var w :| w in Unreturned(s);
      var own := Retires(s, w);
      var s1 := Run(s, own);
      OneLess(s, s1, w);
      var rest := AllCanReturn(s1);
      actions := own + rest;
      RunInParts(s, own, rest);
    }
  }

  lemma StopStops(s: State)
    requires Accounted(s) && Drains(s) && !SomeoneThrew(s)
    ensures var s1 := Step(s, Stop);
            && Accounted(s1) && Drains(s1) && Sound(s1) && !SomeoneThrew(s1) && !SomeoneWaits(s1) && !s1.running
            && s1.workers.Keys == s.workers.Keys && s1.stopMark == if s.running then |s.tasks| else s.stopMark
  {
    StepKeepsAccounts(s, Stop);
    StepDrains(s, Stop);
  }

  /** So from every reachable state in which no worker has thrown, stopping lets all workers return, and with at
      least one worker the queue has been emptied then: the shutdown described above does take place. */
  lemma StopLetsAllReturn(s: State) returns (actions: seq<Action>)
    requires Accounted(s) && Drains(s) && !SomeoneThrew(s)
    ensures AllTheirOwn(actions)
    ensures var s' := Run(Step(s, Stop), actions);
            && s'.workers.Keys == s.workers.Keys && AllReturned(s')
            && (s.workers != map[] ==> s'.popped >= if s.running then |s.tasks| else s.stopMark)
  {
    var s1 := Step(s, Stop);
    StopStops(s);
    actions := AllCanReturn(s1);
    RunDrains(s1, actions);
    NobodyWaitsAfterStop(s1, actions);
    if s.workers != map[] {
      SomeoneReturned(Run(s1, actions), s.workers);
    }
  }

  lemma SomeoneReturned(s: State, workers: map<Worker, Place>)
    requires Drains(s) && AllReturned(s) && s.workers.Keys == workers.Keys && workers != map[]
    ensures s.stopMark <= s.popped
  {
    var w :| w in workers;
    assert w in s.workers.Keys;
  }

  /** A task can be queued at any time. */
  lemma CanAdd(s: State, task: Task) returns (w: Worker)
    ensures Enabled(s, Add(task, w)) && Step(s, Add(task, w)).tasks == s.tasks + [task]
  {
    if SomeoneWaits(s) {
      w :| w in s.workers && s.workers[w].Waiting?;
    } else {
      w := 0;
    }
  }
}
