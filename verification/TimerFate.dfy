/** What becomes of a waiting timer over a whole run. */
module TimerFate {
  import opened Time
  import opened OrderedEntries
  import opened TimerState
  import opened TimerInvariants
  import opened TimerHistory
  import opened TimerSchedule
  import opened TimerCancel
  import opened TimerOutcome

  /** Some firing reads a clock at or past the timer's time before any step has cancelled the timer. A firing that
      does both counts: the timer was extracted before its callbacks ran. */
  ghost predicate FiresBeforeCancelled(s: State, es: seq<Event>, v: Variant, id: TimerId, time: Timestamp)
    requires Sorted(s.timers)
    decreases |es|
  {
    es != []
    && ((es[0].Fired? && time <= es[0].now)
        || (!Cancels(s, es[0], v, id) && FiresBeforeCancelled(Step(s, es[0], v), es[1..], v, id, time)))
  }

  lemma DeliverKeepsWaiting(s: State, id: TimerId, t: Timer)
    requires Inv(s) && Waits(s, id, t)
    requires s.handoff != [] && s.handoff[0].CancelInLoop? ==> s.handoff[0].id != id
    ensures Waits(DeliverNext(s), id, t)
  {
    if s.handoff != [] {
      TakeFunctor(s);
      var s1 := s.(handoff := s.handoff[1..]);
      match s.handoff[0]
      case AddTimerInLoop(a) => AdditionKeepsWaiting(s1, a, id, t);
      case CancelInLoop(other) => CancelSparesOthers(s1, other, id);
    }
  }

  lemma AdditionKeepsWaiting(s: State, a: Address, id: TimerId, t: Timer)
    requires Sorted(s.timers) && Waits(s, id, t)
    ensures Waits(AddInLoop(s, a), id, t)
  {
  }

  /** A step that neither starts nor cancels the timer leaves it waiting. */
  lemma OtherStep(s: State, e: Event, v: Variant, id: TimerId, t: Timer)
    requires Inv(s) && TopLevel(s) && Waits(s, id, t) && !Cancels(s, e, v, id)
    requires !(e.Fired? && t.expiration <= e.now)
    ensures Waits(Step(s, e, v), id, t)
  {
    match e
    case Do(c) => ExecKeepsActive(s, c, id);
    case Deliver => DeliverKeepsWaiting(s, id, t);
    case Fired(expired, now, scripts, freed) => OtherFiring(s, expired, now, scripts, freed, v, id, t);
  }

  lemma OtherFiring(s: State, expired: bool, now: Timestamp, scripts: seq<seq<Command>>, freed: seq<seq<Command>>,
                    v: Variant,
                    id: TimerId, t: Timer)
    requires Inv(s) && TopLevel(s) && Waits(s, id, t) && now < t.expiration
    requires !FiringCancels(ReadTimerfd(s, expired), now, scripts, freed, v, id)
    ensures Waits(Fire(ReadTimerfd(s, expired), now, scripts, freed, v), id, t)
  {
    var s0 := ReadTimerfd(s, expired);
    ArmingIsIrrelevant(s, s0);
    if CancelledBy(scripts, |Due(s0, now)|, id) {
      var k :| 0 <= k < |Due(s0, now)| && k < |scripts| && Cancel(id) in scripts[k];
      var p := WaitingIsInserted(s0, now, scripts, k, id);
      assert CallbacksCancel(s0, now, scripts, id);
    }
    OutcomeOfNotDue(s0, now, scripts, freed, v, id);
  }

  /** A step starts a waiting timer exactly if it is a firing at or past its time. */
  lemma StepStarts(s: State, e: Event, v: Variant, id: TimerId, t: Timer)
    requires Inv(s) && TopLevel(s) && Waits(s, id, t)
    ensures s.log <= Step(s, e, v).log
    ensures StartedFrom(s, Step(s, e, v), id) <==> e.Fired? && t.expiration <= e.now
  {
    match e
    case Do(c) => ExecEvolves(s, c);
    case Deliver => DeliverEvolves(s);
    case Fired(expired, now, scripts, freed) =>
      var s0 := ReadTimerfd(s, expired);
      ArmingIsIrrelevant(s, s0);
      FireStartsOnce(s0, now, scripts, freed, v, id);
  }

  lemma StepLogGrows(s: State, e: Event, v: Variant)
    requires Inv(s) && TopLevel(s)
    ensures s.log <= Step(s, e, v).log
  {
    match e
    case Do(c) => ExecEvolves(s, c);
    case Deliver => DeliverEvolves(s);
    case Fired(expired, now, scripts, freed) =>
      ArmingIsIrrelevant(s, ReadTimerfd(s, expired));
      FireRunsExactlyTheDue(ReadTimerfd(s, expired), now, scripts, freed, v);
  }

  lemma {:induction false} LogGrows(s: State, es: seq<Event>, v: Variant)
    requires Inv(s) && TopLevel(s)
    ensures s.log <= Run(s, es, v).log
    decreases |es|
  {
    if es != [] {
      StepKeepsInv(s, es[0], v);
      StepLogGrows(s, es[0], v);
      LogGrows(Step(s, es[0], v), es[1..], v);
    }
  }

  lemma StartsInParts(s: State, s1: State, s2: State, id: TimerId)
    requires s.log <= s1.log <= s2.log
    ensures StartedFrom(s, s2, id) <==> StartedFrom(s, s1, id) || StartedFrom(s1, s2, id)
  {
    assert forall i :: 0 <= i < |s1.log| ==> s2.log[i] == s1.log[i];
  }

  /** The callback of a waiting timer is started in a run if and only if some firing reads a clock at or past its
      time before the timer has been cancelled, in whichever way. */
  lemma {:induction false} StartsIffFiredBeforeCancelled(s: State, es: seq<Event>, v: Variant, id: TimerId)
    requires Inv(s) && TopLevel(s) && id in s.active
    ensures StartedFrom(s, Run(s, es, v), id) <==> FiresBeforeCancelled(s, es, v, id, s.heap[id.addr].expiration)
    decreases |es|
  {
    if es != [] {
      var t := s.heap[id.addr];
      var s1 := Step(s, es[0], v);
      StepKeepsInv(s, es[0], v);
      StepStarts(s, es[0], v, id, t);
      LogGrows(s1, es[1..], v);
      StartsInParts(s, s1, Run(s1, es[1..], v), id);
      if !(es[0].Fired? && t.expiration <= es[0].now) {
        if Cancels(s, es[0], v, id) {
          CancellingStep(s, es[0], v, id);
          GoneForEver(s1, es[1..], v, id.sequence);
        } else {
          OtherStep(s, es[0], v, id, t);
          StartsIffFiredBeforeCancelled(s1, es[1..], v, id);
        }
      }
    }
  }

  lemma OneShotFiring(s: State, e: Event, v: Variant, id: TimerId)
    requires Inv(s) && TopLevel(s) && id in s.active && s.heap[id.addr].interval <= 0.0
    requires e.Fired? && s.heap[id.addr].expiration <= e.now
    ensures CancelsWithin(s, Step(s, e, v), id)
  {
    var s0 := ReadTimerfd(s, e.expired);
    ArmingIsIrrelevant(s, s0);
    OneShotIsFreed(s0, e.now, e.scripts, e.freed, v, id);
    FireStartsOnce(s0, e.now, e.scripts, e.freed, v, id);
    CreatedByRun(s, e, v, id);
  }

  /** Its sequence number stays given out. */
  lemma CreatedByRun(s: State, e: Event, v: Variant, id: TimerId)
    requires Inv(s) && TopLevel(s) && id in s.active && e.Fired?
    ensures id.sequence <= Step(s, e, v).created
  {
    var s0 := ReadTimerfd(s, e.expired);
    ArmingIsIrrelevant(s, s0);
    var s1 := Extract(s0, e.now);
    ExtractKeepsInv(s0, e.now);
    CreatedGrows(s1, s1.batch, e.now, e.scripts);
    AtResetKeepsInv(s0, e.now, e.scripts);
    SettleAllLogsNothing(AtReset(s0, e.now, e.scripts), e.now, e.freed, v, INVALID);
  }

  lemma SkipsOther(s: State, s1: State, s2: State, id: TimerId)
    requires s.log <= s1.log <= s2.log && !StartedFrom(s, s1, id) && AtMostOnce(s2.log, |s1.log|, id.sequence)
    ensures AtMostOnce(s2.log, |s.log|, id.sequence)
  {
    assert forall i :: 0 <= i < |s1.log| ==> s2.log[i] == s1.log[i];
  }

  /** A one-shot timer has that start only. */
  lemma {:induction false} OneShotStartsOnceFrom(s: State, es: seq<Event>, v: Variant, id: TimerId)
    requires Inv(s) && TopLevel(s) && id in s.active && s.heap[id.addr].interval <= 0.0
    ensures AtMostOnce(Run(s, es, v).log, |s.log|, id.sequence)
    decreases |es|
  {
    if es != [] {
      var t := s.heap[id.addr];
      var s1 := Step(s, es[0], v);
      var s2 := Run(s1, es[1..], v);
      StepKeepsInv(s, es[0], v);
      if (es[0].Fired? && t.expiration <= es[0].now) || Cancels(s, es[0], v, id) {
        if es[0].Fired? && t.expiration <= es[0].now {
          OneShotFiring(s, es[0], v, id);
        } else {
          CancellingStep(s, es[0], v, id);
        }
        GoneForEver(s1, es[1..], v, id.sequence);
        NothingMore(s.log, s1.log, s2.log, id.sequence);
      } else {
        OtherStep(s, es[0], v, id, t);
        StepStarts(s, es[0], v, id, t);
        OneShotStartsOnceFrom(s1, es[1..], v, id);
        LogGrows(s1, es[1..], v);
        SkipsOther(s, s1, s2, id);
      }
    }
  }
}
