/** Concrete runs in which the timerfd is armed for the wrong time, and what becomes of a timer it has lost. */
module TimerLoss {
  import opened Options
  import opened Time
  import opened OrderedEntries
  import opened TimerState
  import opened TimerInvariants
  import opened TimerArming

  // ----- the run that loses a timer -----

  /** Add a timer for 10 and one for 20, cancel the first, and let the timerfd expire at 10. */
  const LOSING_RUN: seq<Event> :=
    [Do(Add(10, 0.0, 1)), Do(Add(20, 0.0, 2)), Do(Cancel(TimerId(1, 1))), Fired(true, 10, [], [])]

  const A := Timer(10, 0.0, 1)
  const B := Timer(20, 0.0, 2)

  const HAS_A := INITIAL.(heap := map[1 := A], created := 1, timers := [Entry(10, 1)], active := {TimerId(1, 1)},
                         armed := Some(10))
  const HAS_BOTH := HAS_A.(heap := map[1 := A, 2 := B], created := 2, timers := [Entry(10, 1), Entry(20, 2)],
                         active := {TimerId(1, 1), TimerId(2, 2)})
  const HAS_B := HAS_BOTH.(heap := map[2 := B], timers := [Entry(20, 2)], active := {TimerId(2, 2)})

  lemma LosingSteps(v: Variant)
    ensures Step(INITIAL, LOSING_RUN[0], v) == HAS_A
    ensures Step(HAS_A, LOSING_RUN[1], v) == HAS_BOTH
    ensures Step(HAS_BOTH, LOSING_RUN[2], v) == HAS_B
  {
    assert NewAddress(HAS_A, 2) == 2;
    assert HAS_BOTH.heap - {1} == HAS_B.heap;
  }

  lemma AsWrittenLosesATimer()
    ensures var s := Run(INITIAL, LOSING_RUN, AsWritten);
            s.timers == [Entry(20, 2)] && s.armed == None && !ArmedInTime(s)
  {
    LosingSteps(AsWritten);
  }

  // ----- the firing that arms too early -----

  /** What the callback of A does: it adds two timers for times that are not valid and cancels the earlier. */
  const INVALID_ADDS: seq<Command> := [Add(-5, 0.0, 2), Add(0, 0.0, 3), Cancel(TimerId(2, 2))]

  const STARTED := HAS_A.(timers := [], active := {}, batch := [Entry(10, 1)], calling := true,
                         log := [Start(1, 0.0, 10)], armed := None)
  const FIRST_ADDED := STARTED.(heap := map[1 := A, 2 := Timer(-5, 0.0, 2)], created := 2, timers := [Entry(-5, 2)],
                               active := {TimerId(2, 2)}, armed := Some(-5))
  const BOTH_ADDED := FIRST_ADDED.(heap := map[1 := A, 2 := Timer(-5, 0.0, 2), 3 := Timer(0, 0.0, 3)], created := 3,
                                 timers := [Entry(-5, 2), Entry(0, 3)], active := {TimerId(2, 2), TimerId(3, 3)})
  const SECOND_LEFT := BOTH_ADDED.(heap := map[1 := A, 3 := Timer(0, 0.0, 3)], timers := [Entry(0, 3)],
                                 active := {TimerId(3, 3)})

  /** Something was due and yet, under either variant, the timerfd is not armed for exactly the earliest timer:
      the guard refuses its time, and what is left is the arming for the cancelled one. */
  lemma InvalidAddsArmTooEarly(v: Variant)
    ensures var s' := Step(HAS_A, Fired(true, 10, [INVALID_ADDS], []), v);
            s'.timers == [Entry(0, 3)] && s'.armed == Some(-5) && !ArmedExactly(s') && ArmedInTime(s')
  {
    FiringStarts();
    OneCallback(Extract(ReadTimerfd(HAS_A, true), 10), Entry(10, 1), 10, INVALID_ADDS);
    InvalidScript();
    LastReset(v);
  }

  lemma FiringStarts()
    ensures var s1 := Extract(ReadTimerfd(HAS_A, true), 10);
            s1.batch == [Entry(10, 1)] && StartRun(s1, Entry(10, 1), 10) == STARTED
  {
    assert Extract(ReadTimerfd(HAS_A, true), 10).active == {};
  }

  lemma InvalidScript()
    ensures RunScript(STARTED, INVALID_ADDS) == SECOND_LEFT
  {
    FirstAddition();
    SecondAddition();
    Cancellation();
    ThreeCommands(STARTED, INVALID_ADDS[0], INVALID_ADDS[1], INVALID_ADDS[2]);
  }

  lemma FirstAddition()
    ensures Exec(STARTED, INVALID_ADDS[0]) == FIRST_ADDED
  {
    assert NewAddress(STARTED, 2) == 2;
  }

  lemma SecondAddition()
    ensures Exec(FIRST_ADDED, INVALID_ADDS[1]) == BOTH_ADDED
  {
    assert NewAddress(FIRST_ADDED, 3) == 3;
  }

  lemma Cancellation()
    ensures Exec(BOTH_ADDED, INVALID_ADDS[2]) == SECOND_LEFT
  {
    assert BOTH_ADDED.heap - {2} == SECOND_LEFT.heap;
  }

  lemma ThreeCommands(s: State, a: Command, b: Command, c: Command)
    requires Sorted(s.timers)
    ensures RunScript(s, [a, b, c]) == Exec(Exec(Exec(s, a), b), c)
  {
    assert [a, b, c][1..] == [b, c] && [b, c][1..] == [c] && [c][1..] == [];
    assert RunScript(Exec(s, a), [b, c]) == RunScript(Exec(Exec(s, a), b), [c]);
  }

  lemma LastReset(v: Variant)
    ensures var s' := Reset(SECOND_LEFT.(calling := false), 10, [], v); s'.timers == [Entry(0, 3)] && s'.armed == Some(-5)
  {
    OneSettled(SECOND_LEFT.(calling := false), 10, v);
  }

  /** As written, the time found in an earlier round still stands in a later one that leaves no timer waiting: the
      timerfd is armed for it although nothing waits any more. Such a round needs a destructor that cancels. */
  lemma StaleTimeIsArmed(s: State, now: Timestamp, first: seq<Command>, second: seq<Command>)
    requires Inv(s) && |s.batch| == 2
    requires var s1 := SettleRound(s, now, first);
             && s1.timers != [] && s1.timers[0].time > 0
             && Rearm(s1).batch != [] && SettleRound(Rearm(s1), now, second).timers == []
    ensures var s' := Reset(s, now, [first, second], AsWritten);
            s'.timers == [] && s'.armed == Some(SettleRound(s, now, first).timers[0].time)
  {
    var s1 := SettleRound(s, now, first);
    RoundKeepsInv(s, now, first);
    FindsEarliest(s1);
    RoundKeepsInv(Rearm(s1), now, second);
    FirstOfTwo(s, now, first, second);
    LastRound(Rearm(s1), now, second, s1.timers[0].time);
  }

  lemma FindsEarliest(s: State)
    requires Inv(s) && s.timers != []
    ensures RearmRound(s, INVALID) == Rearm(s) && NextExpire(s, INVALID) == s.timers[0].time
    ensures Inv(Rearm(s))
  {
    RearmKeepsInv(s);
  }

  lemma FirstOfTwo(s: State, now: Timestamp, first: seq<Command>, second: seq<Command>)
    requires Sorted(s.timers) && s.batch != []
    ensures SettleAll(s, now, [first, second], AsWritten, INVALID)
            == SettleAll(AfterRound(s, now, first, AsWritten, INVALID), now, [second], AsWritten,
                         NextExpire(SettleRound(s, now, first), INVALID))
  {
    assert [first, second][1..] == [second];
  }

  lemma LastRound(s: State, now: Timestamp, script: seq<Command>, nextExpire: Timestamp)
    requires Sorted(s.timers) && |s.batch| == 1
    ensures SettleAll(s, now, [script], AsWritten, nextExpire) == AfterRound(s, now, script, AsWritten, nextExpire)
  {
    RoundsShorten(s, now, script, AsWritten, nextExpire);
  }

  // ----- a clock that is not valid -----

  /** A timer that repeats after less than a microsecond waits for this time. */
  function OneRepeating(now: Timestamp): State {
    INITIAL.(heap := map[1 := Timer(now, 0.0000001, 1)], created := 1, timers := [Entry(now, 1)],
             active := {TimerId(1, 1)}, armed := Some(now))
  }

  lemma OneRepeatingIsArmed(now: Timestamp)
    ensures var s := OneRepeating(now); Inv(s) && TopLevel(s) && ArmedExactly(s)
  {
  }

  /** Whatever invalid time the clock shows, there is a queue for which the firing loses its timer, under either
      variant: the timer restarts at an invalid time, for which reset does not arm. */
  lemma InvalidClockLosesATimer(now: Timestamp, v: Variant)
    requires now <= 0
    ensures var s := OneRepeating(now); var s' := Fire(ReadTimerfd(s, true), now, [], [], v);
            && Inv(s) && TopLevel(s) && ArmedExactly(s)
            && s'.timers == [Entry(now, 1)] && s'.armed == None && !ArmedInTime(s')
  {
    OneRepeatingIsArmed(now);
    OneRepeatingIsExtracted(now);
    var s1 := Extract(ReadTimerfd(OneRepeating(now), true), now);
    OneCallback(s1, Entry(now, 1), now, []);
    RestartsUnarmed(StartRun(s1, Entry(now, 1), now).(calling := false), Timer(now, 0.0000001, 1), now, v);
  }

  lemma OneRepeatingIsExtracted(now: Timestamp)
    ensures var s := OneRepeating(now);
            Extract(ReadTimerfd(s, true), now)
            == s.(armed := None, timers := [], active := {}, batch := [Entry(now, 1)], calling := true)
  {
    assert Extract(ReadTimerfd(OneRepeating(now), true), now).active == {};
  }

  lemma RestartsUnarmed(s: State, t: Timer, now: Timestamp, v: Variant)
    requires now <= 0 && t == Timer(now, 0.0000001, 1)
    requires s.heap == map[1 := t] && s.timers == [] && s.canceling == {} && s.batch == [Entry(now, 1)]
    ensures var s' := Reset(s, now, [], v); s'.timers == [Entry(now, 1)] && s'.armed == s.armed
  {
    assert t.Restart(now) == t && s.heap[1 := t] == s.heap;
    OneSettled(s, now, v);
  }

  lemma OneCallback(s: State, e: Entry, now: Timestamp, script: seq<Command>)
    requires Sorted(s.timers)
    ensures RunCallbacks(s, [e], now, [script]) == RunScript(StartRun(s, e, now), script)
    ensures RunCallbacks(s, [e], now, []) == StartRun(s, e, now)
  {
    assert RunScript(StartRun(s, e, now), []) == StartRun(s, e, now);
  }

  lemma OneSettled(s: State, now: Timestamp, v: Variant)
    requires Sorted(s.timers) && |s.batch| == 1
    ensures var s' := Settle(s, now); SettleAll(s, now, [], v, INVALID) == if v.AsWritten? then Rearm(s') else s'
  {
    var s' := Settle(s, now);
    assert SettleRound(s, now, []) == s';
    assert RearmRound(s', INVALID) == Rearm(s');
    assert s'.batch == [] && Rearm(s').batch == [];
  }

  /** So exactly the valid clocks are safe for the repaired firing, in every state and for all callbacks. */
  lemma ClockMustBeValid(now: Timestamp)
    ensures (forall s: State, expired, scripts, freed | Inv(s) && TopLevel(s) ::
               ArmedInTime(Fire(ReadTimerfd(s, expired), now, scripts, freed, RearmAfterLoop)))
            <==> now > 0
  {
    if now > 0 {
      forall s: State, expired, scripts, freed | Inv(s) && TopLevel(s)
        ensures ArmedInTime(Fire(ReadTimerfd(s, expired), now, scripts, freed, RearmAfterLoop)) {
        RepairedFireArms(s, expired, now, scripts, freed);
      }
    } else {
      InvalidClockLosesATimer(now, RearmAfterLoop);
    }
  }

  // ----- a lost timer stays lost -----

  /** The timer waits and the timerfd is disarmed. */
  predicate Lost(s: State, id: TimerId) {
    id in s.active && s.armed == None
  }

  /** A step that neither cancels the timer nor inserts one that becomes the earliest; and no firing, since a
      disarmed timerfd does not become readable. */
  predicate Unnoticed(s: State, e: Event, id: TimerId) {
    match e
    case Do(Add(when, _, _)) => s.timers != [] && s.timers[0].time <= when
    case Do(Cancel(x)) => x != id
    case Do(_) => true
    case Deliver =>
      s.handoff != [] ==>
        (match s.handoff[0]
         case AddTimerInLoop(a) => a in s.heap && s.timers != [] && s.timers[0].time <= s.heap[a].expiration
         case CancelInLoop(x) => x != id)
    case Fired(_, _, _, _) => false
  }

  /** Until then it stays lost, and exactly until then. */
  lemma LostUnlessNoticed(s: State, e: Event, v: Variant, id: TimerId)
    requires Inv(s) && TopLevel(s) && Lost(s, id) && !e.Fired?
    ensures Lost(Step(s, e, v), id) <==> Unnoticed(s, e, id)
    ensures Step(s, e, v).log == s.log
  {
    match e
    case Do(c) => ExecLeavesLost(s, c, id);
    case Deliver =>
      if s.handoff != [] {
        TakeFunctor(s);
        var s1 := s.(handoff := s.handoff[1..]);
        match s.handoff[0]
        case AddTimerInLoop(a) => InsertionLeavesLost(s1, a, id);
        case CancelInLoop(x) => CancellationLeavesLost(s1, x, id);
      }
  }

  lemma InsertionLeavesLost(s: State, a: Address, id: TimerId)
    requires InvBut(s, {a}) && Lost(s, id)
    ensures Lost(AddInLoop(s, a), id) <==> s.timers != [] && s.timers[0].time <= s.heap[a].expiration
    ensures AddInLoop(s, a).log == s.log
  {
  }

  lemma CancellationLeavesLost(s: State, x: TimerId, id: TimerId)
    requires Inv(s) && Lost(s, id)
    ensures Lost(CancelTimer(s, x), id) <==> x != id
    ensures CancelTimer(s, x).log == s.log
  {
  }

  lemma ExecLeavesLost(s: State, c: Command, id: TimerId)
    requires Inv(s) && Lost(s, id)
    ensures Lost(Exec(s, c), id) <==> Unnoticed(s, Do(c), id)
    ensures Exec(s, c).log == s.log
  {
    match c
    case Add(when, interval, pick) =>
      NewIsLoose(s, when, interval, pick);
      InsertionLeavesLost(New(s, when, interval, pick), NewAddress(s, pick), id);
    case Cancel(x) => CancellationLeavesLost(s, x, id);
    case PostAdd(_, _, _) =>
    case PostCancel(_) =>
    case CreateElsewhere(_) =>
  }

  ghost predicate AllUnnoticed(s: State, es: seq<Event>, v: Variant, id: TimerId)
    requires Sorted(s.timers)
    decreases |es|
  {
    es != [] ==> Unnoticed(s, es[0], id) && AllUnnoticed(Step(s, es[0], v), es[1..], v, id)
  }

  /** So however many timers are added, cancelled, handed over and delivered: as long as none of them becomes
      the earliest and the timer itself is not cancelled, it waits, the timerfd is not armed and nothing starts. */
  lemma {:induction false} LostForGood(s: State, es: seq<Event>, v: Variant, id: TimerId)
    requires Inv(s) && TopLevel(s) && Lost(s, id) && AllUnnoticed(s, es, v, id)
    ensures var s' := Run(s, es, v); Lost(s', id) && s'.log == s.log
    decreases |es|
  {
    if es != [] {
      LostUnlessNoticed(s, es[0], v, id);
      StepKeepsInv(s, es[0], v);
      LostForGood(Step(s, es[0], v), es[1..], v, id);
    }
  }
}
