/** What other threads hand over is carried out by the loop thread, in order, as it was asked for. */
module TimerHandoff {
  import opened Time
  import opened OrderedEntries
  import opened TimerState
  import opened TimerInvariants
  import opened TimerHistory
  import opened TimerCancel
  import opened TimerOutcome

  /** From s to s' the first n functors have been taken; the others still wait, before any that are new, and the
      timers they carry are as they were. */
  ghost predicate Carries(s: State, s': State, n: nat) {
    n <= |s.handoff| && s.handoff[n..] <= s'.handoff
    && forall i :: n <= i < |s.handoff| && s.handoff[i].AddTimerInLoop? ==> SameTimer(s, s', s.handoff[i].addr)
  }

  predicate SameTimer(s: State, s': State, a: Address) {
    a in s.heap && a in s'.heap && s'.heap[a] == s.heap[a]
  }

  lemma CarriesOn(s: State, s1: State, s2: State, n: nat, m: nat)
    requires Carries(s, s1, n) && Carries(s1, s2, m) && n + m <= |s.handoff|
    ensures Carries(s, s2, n + m)
  {
    assert forall i :: n <= i < |s.handoff| ==> s1.handoff[i - n] == s.handoff[i];
    assert s.handoff[n + m..] <= s2.handoff by {
      assert forall i :: 0 <= i < |s.handoff| - n - m ==> s1.handoff[m..][i] == s.handoff[n + m + i];
    }
  }

  lemma CancellationCarries(s: State, id: TimerId)
    requires Inv(s)
    ensures Carries(s, CancelTimer(s, id), 0)
  {
    forall i | 0 <= i < |s.handoff| && s.handoff[i].AddTimerInLoop?
      ensures SameTimer(s, CancelTimer(s, id), s.handoff[i].addr) {
      assert HandedOver(s, s.handoff[i].addr);
    }
  }

  lemma AllocationCarries(s: State, when: Timestamp, interval: real, pick: Address)
    requires Inv(s)
    ensures Carries(s, New(s, when, interval, pick), 0)
  {
    forall i | 0 <= i < |s.handoff| && s.handoff[i].AddTimerInLoop?
      ensures SameTimer(s, New(s, when, interval, pick), s.handoff[i].addr) {
      assert HandedOver(s, s.handoff[i].addr);
    }
  }

  lemma InsertionKeepsHeap(s: State, a: Address)
    requires Sorted(s.timers)
    ensures AddInLoop(s, a).heap == s.heap && AddInLoop(s, a).handoff == s.handoff
  {
  }

  lemma ExecCarries(s: State, c: Command)
    requires Inv(s)
    ensures Carries(s, Exec(s, c), 0)
  {
    match c
    case Add(when, interval, pick) =>
      AllocationCarries(s, when, interval, pick);
      InsertionKeepsHeap(New(s, when, interval, pick), NewAddress(s, pick));
    case Cancel(id) => CancellationCarries(s, id);
    case PostAdd(when, interval, pick) => AllocationCarries(s, when, interval, pick);
    case PostCancel(_) => NothingFreed(s, Exec(s, c));
    case CreateElsewhere(_) => NothingFreed(s, Exec(s, c));
  }

  lemma NothingFreed(s: State, s': State)
    requires Inv(s) && s'.heap == s.heap && s.handoff <= s'.handoff
    ensures Carries(s, s', 0)
  {
    forall i | 0 <= i < |s.handoff| && s.handoff[i].AddTimerInLoop? ensures SameTimer(s, s', s.handoff[i].addr) {
      assert HandedOver(s, s.handoff[i].addr);
    }
  }

  lemma {:induction false} ScriptCarries(s: State, script: seq<Command>)
    requires Inv(s)
    ensures Carries(s, RunScript(s, script), 0)
    decreases |script|
  {
    if script == [] {
      NothingFreed(s, s);
    } else {
      var s1 := Exec(s, script[0]);
      ExecCarries(s, script[0]);
      ExecKeepsInv(s, script[0]);
      ScriptCarries(s1, script[1..]);
      CarriesOn(s, s1, RunScript(s1, script[1..]), 0, 0);
    }
  }

  lemma {:induction false} CallbacksCarry(s: State, rest: seq<Entry>, now: Timestamp, scripts: seq<seq<Command>>)
    requires Inv(s)
    requires forall e :: e in rest ==> e in s.batch
    ensures Carries(s, RunCallbacks(s, rest, now, scripts), 0)
    decreases |rest|
  {
    if rest == [] {
      NothingFreed(s, s);
    } else {
      var s1 := StartRun(s, rest[0], now);
      var s2 := RunScript(s1, FirstScript(scripts));
      CallbackKeepsBatch(s, rest[0], now, FirstScript(scripts));
      ArmingIsIrrelevant(s, s1);
      NothingFreed(s, s1);
      ScriptCarries(s1, FirstScript(scripts));
      CarriesOn(s, s1, s2, 0, 0);
      CallbacksCarry(s2, rest[1..], now, OtherScripts(scripts));
      CarriesOn(s, s2, RunCallbacks(s, rest, now, scripts), 0, 0);
    }
  }

  lemma SettleCarries(s: State, now: Timestamp)
    requires Inv(s) && s.batch != []
    ensures Carries(s, Settle(s, now), 0)
  {
    FirstOfBatch(s);
    forall i | 0 <= i < |s.handoff| && s.handoff[i].AddTimerInLoop?
      ensures SameTimer(s, Settle(s, now), s.handoff[i].addr) {
      assert HandedOver(s, s.handoff[i].addr);
    }
  }

  lemma RoundCarries(s: State, now: Timestamp, script: seq<Command>, v: Variant, nextExpire: Timestamp)
    requires Inv(s) && s.batch != []
    ensures Carries(s, AfterRound(s, now, script, v, nextExpire), 0)
  {
    var s1, s2 := Settle(s, now), SettleRound(s, now, script);
    var s3 := AfterRound(s, now, script, v, nextExpire);
    SettleKeepsInv(s, now);
    SettleCarries(s, now);
    ScriptCarries(s1, if FreesFirst(s) then script else []);
    CarriesOn(s, s1, s2, 0, 0);
    RoundKeepsInv(s, now, script);
    NothingFreed(s2, s3);
    CarriesOn(s, s2, s3, 0, 0);
  }

  lemma {:induction false} SettleAllCarries(s: State, now: Timestamp, freed: seq<seq<Command>>, v: Variant,
                                            nextExpire: Timestamp)
    requires Inv(s)
    ensures Carries(s, SettleAll(s, now, freed, v, nextExpire), 0)
    decreases |s.batch|
  {
    if s.batch == [] {
      NothingFreed(s, s);
    } else {
      var s1 := AfterRound(s, now, FirstScript(freed), v, nextExpire);
      var next := NextExpire(SettleRound(s, now, FirstScript(freed)), nextExpire);
      RoundCarries(s, now, FirstScript(freed), v, nextExpire);
      AfterRoundKeepsInv(s, now, FirstScript(freed), v, nextExpire);
      SettleAllCarries(s1, now, OtherScripts(freed), v, next);
      CarriesOn(s, s1, SettleAll(s1, now, OtherScripts(freed), v, next), 0, 0);
    }
  }

  lemma FireCarries(s: State, now: Timestamp, scripts: seq<seq<Command>>, freed: seq<seq<Command>>, v: Variant)
    requires Inv(s) && TopLevel(s)
    ensures Carries(s, Fire(s, now, scripts, freed, v), 0)
  {
    var s1 := Extract(s, now);
    var s2 := RunCallbacks(s1, s1.batch, now, scripts);
    var s3 := AtReset(s, now, scripts);
    var s4 := SettleAll(s3, now, freed, v, INVALID);
    ExtractKeepsInv(s, now);
    NothingFreed(s, s1);
    CallbacksCarry(s1, s1.batch, now, scripts);
    CarriesOn(s, s1, s2, 0, 0);
    CallbacksKeepInv(s1, s1.batch, now, scripts);
    NothingFreed(s2, s3);
    CarriesOn(s, s2, s3, 0, 0);
    AtResetKeepsInv(s, now, scripts);
    SettleAllCarries(s3, now, freed, v, INVALID);
    CarriesOn(s, s3, s4, 0, 0);
    SettleAllKeepsInv(s3, now, freed, v, INVALID);
    NothingFreed(s4, Fire(s, now, scripts, freed, v));
    CarriesOn(s, s4, Fire(s, now, scripts, freed, v), 0, 0);
  }

  lemma DeliveryCarries(s: State)
    requires Inv(s) && s.handoff != []
    ensures Carries(s, DeliverNext(s), 1)
  {
    var s1 := s.(handoff := s.handoff[1..]);
    forall i | 1 <= i < |s.handoff| && s.handoff[i].AddTimerInLoop? ensures SameTimer(s, s1, s.handoff[i].addr) {
      assert HandedOver(s, s.handoff[i].addr);
    }
    match s.handoff[0]
    case AddTimerInLoop(a) => InsertionKeepsHeap(s1, a);
    case CancelInLoop(id) =>
      TakeFunctor(s);
      CancellationCarries(s1, id);
      CarriesOn(s, s1, DeliverNext(s), 1, 0);
  }

  function Deliveries(es: seq<Event>): nat {
    if es == [] then 0 else (if es[0].Deliver? then 1 else 0) + Deliveries(es[1..])
  }

  lemma StepCarries(s: State, e: Event, v: Variant)
    requires Inv(s) && TopLevel(s) && (e.Deliver? ==> s.handoff != [])
    ensures Carries(s, Step(s, e, v), if e.Deliver? then 1 else 0)
  {
    match e
    case Do(c) => ExecCarries(s, c);
    case Deliver => DeliveryCarries(s);
    case Fired(expired, now, scripts, freed) =>
      var s0 := ReadTimerfd(s, expired);
      ArmingIsIrrelevant(s, s0);
      NothingFreed(s, s0);
      FireCarries(s0, now, scripts, freed, v);
      CarriesOn(s, s0, Step(s, e, v), 0, 0);
  }

  /** In every run the functors handed over are taken in order, one by each delivery, and nothing else takes or
      changes them: whatever is added, cancelled and fired meanwhile. */
  lemma {:induction false} RunCarries(s: State, es: seq<Event>, v: Variant)
    requires Inv(s) && TopLevel(s) && Deliveries(es) <= |s.handoff|
    ensures Carries(s, Run(s, es, v), Deliveries(es))
    decreases |es|
  {
    if es == [] {
      NothingFreed(s, s);
    } else {
      var s1 := Step(s, es[0], v);
      StepKeepsInv(s, es[0], v);
      StepCarries(s, es[0], v);
      RunCarries(s1, es[1..], v);
      CarriesOn(s, s1, Run(s1, es[1..], v), if es[0].Deliver? then 1 else 0, Deliveries(es[1..]));
    }
  }

  /** What a run brings to the front of the queue, if it delivers all that was there before. */
  lemma FrontAfter(s: State, f: Functor, es: seq<Event>, v: Variant, n: nat)
    requires Inv(s) && TopLevel(s) && |s.handoff| == n + 1 && s.handoff[n] == f && Deliveries(es) == n
    ensures var s' := Run(s, es, v);
            && Inv(s') && TopLevel(s') && s'.handoff != [] && s'.handoff[0] == f
            && (f.AddTimerInLoop? ==> SameTimer(s, s', f.addr))
  {
    RunCarries(s, es, v);
    RunKeepsInv(s, es, v);
    assert s.handoff[n..] == [f];
  }

  /** A cancellation from another thread runs cancelInLoop when its turn has come, after exactly the deliveries
      of what had been queued before, whatever else happens meanwhile. If the timer has been inserted by then, its
      callback never starts again. */
  lemma PostedCancelIsFinal(s: State, id: TimerId, es: seq<Event>, later: seq<Event>, v: Variant)
    requires Inv(s) && TopLevel(s) && Deliveries(es) == |s.handoff|
    ensures var s1 := Run(Step(s, Do(PostCancel(id)), v), es, v);
            && s1.handoff != []
            && Step(s1, Deliver, v) == CancelTimer(s1.(handoff := s1.handoff[1..]), id)
            && (Inserted(s1, id) ==> StaysGone(Step(s1, Deliver, v), Run(Step(s1, Deliver, v), later, v), id.sequence))
            && (id in s1.active ==> id !in Step(s1, Deliver, v).active)
  {
    var s0 := Step(s, Do(PostCancel(id)), v);
    ExecKeepsInv(s, PostCancel(id));
    FrontAfter(s0, CancelInLoop(id), es, v, |s.handoff|);
    var s1 := Run(s0, es, v);
    StepKeepsInv(s1, Deliver, v);
    if Inserted(s1, id) {
      CancellingStep(s1, Deliver, v, id);
      GoneForEver(Step(s1, Deliver, v), later, v, id.sequence);
    }
  }

  /** A timer added by another thread is inserted when its turn has come, for the time and with the interval and
      the number it was given, whatever happens meanwhile. */
  lemma PostedAddIsInserted(s: State, when: Timestamp, interval: real, pick: Address, es: seq<Event>, v: Variant)
    requires Inv(s) && TopLevel(s) && Deliveries(es) == |s.handoff|
    ensures var id := TimerId(NewAddress(s, pick), s.created + 1);
            var s1 := Run(Step(s, Do(PostAdd(when, interval, pick)), v), es, v);
            && id !in s1.active
            && Waits(Step(s1, Deliver, v), id, Timer(when, interval, id.sequence))
  {
    var s0 := Step(s, Do(PostAdd(when, interval, pick)), v);
    var a := NewAddress(s, pick);
    PostedAddIsQueued(s, when, interval, pick);
    FrontAfter(s0, AddTimerInLoop(a), es, v, |s.handoff|);
    DeliveryInserts(Run(s0, es, v), a);
  }

  lemma PostedAddIsQueued(s: State, when: Timestamp, interval: real, pick: Address)
    requires Inv(s)
    ensures var s0 := Exec(s, PostAdd(when, interval, pick)); var a := NewAddress(s, pick);
            && Inv(s0) && s0.batch == s.batch && s0.calling == s.calling
            && s0.handoff == s.handoff + [AddTimerInLoop(a)]
            && a in s0.heap && s0.heap[a] == Timer(when, interval, s.created + 1)
  {
    ExecKeepsInv(s, PostAdd(when, interval, pick));
  }

  lemma DeliveryInserts(s: State, a: Address)
    requires Inv(s) && s.handoff != [] && s.handoff[0] == AddTimerInLoop(a)
    ensures a in s.heap && TimerId(a, s.heap[a].sequence) !in s.active
    ensures Waits(DeliverNext(s), TimerId(a, s.heap[a].sequence), s.heap[a])
  {
    assert HandedOver(s, a);
    TakeFunctor(s);
    AdditionInserts(s.(handoff := s.handoff[1..]), a);
  }

  lemma AdditionInserts(s: State, a: Address)
    requires InvBut(s, {a})
    ensures a in s.heap && Waits(AddInLoop(s, a), TimerId(a, s.heap[a].sequence), s.heap[a])
  {
    InsertAdopts(s, a);
  }
}
