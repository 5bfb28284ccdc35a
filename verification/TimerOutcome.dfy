/** What has become of every waiting timer when a firing ends. */
module TimerOutcome {
  import opened Time
  import opened OrderedEntries
  import opened TimerState
  import opened TimerInvariants
  import opened TimerHistory
  import opened TimerCancel

  /** One of the first n callbacks cancels the timer. */
  ghost predicate CancelledBy(scripts: seq<seq<Command>>, n: nat, id: TimerId) {
    exists k :: 0 <= k < n && k < |scripts| && Cancel(id) in scripts[k]
  }

  /** The timer is in the batch and reset will restart it. */
  ghost predicate ToRestart(s: State, id: TimerId, t: Timer) {
    InBatch(s, id.addr) && id.addr in s.heap && s.heap[id.addr] == t && t.sequence == id.sequence
    && t.Repeat() && id !in s.canceling
  }

  // ----- scripts -----

  lemma CancelSparesOthers(s: State, other: TimerId, id: TimerId)
    requires Inv(s) && id in s.active && other != id
    ensures var s' := CancelTimer(s, other); id in s'.active && id.addr in s'.heap && s'.heap[id.addr] == s.heap[id.addr]
  {
  }

  lemma AddSparesOthers(s: State, when: Timestamp, interval: real, pick: Address, id: TimerId)
    requires Sorted(s.timers) && id in s.active && id.addr in s.heap
    ensures var s' := Exec(s, Add(when, interval, pick));
            id in s'.active && id.addr in s'.heap && s'.heap[id.addr] == s.heap[id.addr]
  {
    assert NewAddress(s, pick) != id.addr;
  }

  /** A command leaves a waiting timer alone unless it cancels it. */
  lemma ExecKeepsActive(s: State, c: Command, id: TimerId)
    requires Inv(s) && id in s.active && c != Cancel(id)
    ensures var s' := Exec(s, c); id in s'.active && id.addr in s.heap && id.addr in s'.heap && s'.heap[id.addr] == s.heap[id.addr]
  {
    match c
    case Add(when, interval, pick) => AddSparesOthers(s, when, interval, pick, id);
    case Cancel(other) => CancelSparesOthers(s, other, id);
    case PostAdd(_, _, pick) => assert NewAddress(s, pick) != id.addr;
    case PostCancel(_) =>
    case CreateElsewhere(_) =>
  }

  lemma {:induction false} ScriptKeepsActive(s: State, script: seq<Command>, id: TimerId)
    requires Inv(s) && id in s.active && Cancel(id) !in script
    ensures var s' := RunScript(s, script);
            id in s'.active && id.addr in s.heap && id.addr in s'.heap && s'.heap[id.addr] == s.heap[id.addr]
    decreases |script|
  {
    if script != [] {
      ExecKeepsInv(s, script[0]);
      ExecKeepsActive(s, script[0], id);
      ScriptKeepsActive(Exec(s, script[0]), script[1..], id);
    }
  }

  /** A waiting timer that is cancelled in a script is cancelled while it waits. */
  lemma {:induction false} FirstCancelWorks(s: State, script: seq<Command>, id: TimerId) returns (p: nat)
    requires Inv(s) && id in s.active && Cancel(id) in script
    ensures ScriptCancelsAt(s, script, p, id)
    decreases |script|
  {
    if script[0] == Cancel(id) {
      assert script[..0] == [];
      p := 0;
    } else {
      ExecKeepsInv(s, script[0]);
      ExecKeepsActive(s, script[0], id);
      var q := FirstCancelWorks(Exec(s, script[0]), script[1..], id);
      OneCommandLater(s, script, q, id);
      p := q + 1;
    }
  }

  lemma OneCommandLater(s: State, script: seq<Command>, q: nat, id: TimerId)
    requires Sorted(s.timers) && script != [] && ScriptCancelsAt(Exec(s, script[0]), script[1..], q, id)
    ensures ScriptCancelsAt(s, script, q + 1, id)
  {
    assert script[..q + 1][1..] == script[1..][..q];
    assert RunScript(s, script[..q + 1]) == RunScript(Exec(s, script[0]), script[1..][..q]);
  }

  /** While no callback runs nothing is marked. */
  lemma {:induction false} ScriptMarksNothing(s: State, script: seq<Command>)
    requires Sorted(s.timers) && !s.calling
    ensures RunScript(s, script).canceling == s.canceling && !RunScript(s, script).calling
    decreases |script|
  {
    if script != [] {
      ScriptMarksNothing(Exec(s, script[0]), script[1..]);
    }
  }

  lemma {:induction false} ScriptMarksOnlyItsCancels(s: State, script: seq<Command>, id: TimerId)
    requires Sorted(s.timers) && id !in s.canceling && Cancel(id) !in script
    ensures id !in RunScript(s, script).canceling
    decreases |script|
  {
    if script != [] {
      ScriptMarksOnlyItsCancels(Exec(s, script[0]), script[1..], id);
    }
  }

  lemma {:induction false} CallbacksSpare(s: State, rest: seq<Entry>, now: Timestamp, scripts: seq<seq<Command>>,
                                          id: TimerId, t: Timer)
    requires Inv(s) && ToRestart(s, id, t) && !CancelledBy(scripts, |rest|, id)
    requires forall e :: e in rest ==> e in s.batch
    ensures ToRestart(RunCallbacks(s, rest, now, scripts), id, t)
    decreases |rest|
  {
    if rest != [] {
      var s1 := StartRun(s, rest[0], now);
      var s2 := RunScript(s1, FirstScript(scripts));
      CallbackKeepsBatch(s, rest[0], now, FirstScript(scripts));
      ScriptMarksOnlyItsCancels(s1, FirstScript(scripts), id);
      CallbacksSpare(s2, rest[1..], now, OtherScripts(scripts), id, t);
    }
  }

  /** The timer waits and is the one given. */
  predicate Waits(s: State, id: TimerId, t: Timer) {
    id in s.active && id.addr in s.heap && s.heap[id.addr] == t
  }

  lemma SettleKeepsWaiting(s: State, now: Timestamp, id: TimerId, t: Timer)
    requires Inv(s) && s.batch != [] && Waits(s, id, t)
    ensures Waits(Settle(s, now), id, t)
  {
    FirstOfBatch(s);
  }

  /** A round of reset leaves a waiting timer alone unless it cancels it. */
  lemma RoundKeepsWaiting(s: State, now: Timestamp, script: seq<Command>, v: Variant, nextExpire: Timestamp,
                          id: TimerId, t: Timer)
    requires Inv(s) && s.batch != [] && Waits(Settle(s, now), id, t) && !RoundCancels(s, now, script, id)
    ensures Waits(AfterRound(s, now, script, v, nextExpire), id, t)
  {
    var s1 := Settle(s, now);
    SettleKeepsInv(s, now);
    if FreesFirst(s) {
      if Cancel(id) in script {
        var p := FirstCancelWorks(s1, script, id);
      }
      ScriptKeepsActive(s1, script, id);
    }
    RoundKeepsInv(s, now, script);
    RearmRoundKeepsInv(SettleRound(s, now, script), nextExpire);
  }

  /** Reset leaves a waiting timer alone unless the destruction of a callback cancels it. */
  lemma {:induction false} SettleAllKeepsWaiting(s: State, now: Timestamp, freed: seq<seq<Command>>, v: Variant,
                                                 nextExpire: Timestamp, id: TimerId, t: Timer)
    requires Inv(s) && Waits(s, id, t) && !ResetCancels(s, now, freed, v, nextExpire, id)
    ensures Waits(SettleAll(s, now, freed, v, nextExpire), id, t)
    decreases |s.batch|
  {
    if s.batch != [] {
      SettleKeepsWaiting(s, now, id, t);
      RoundKeepsWaiting(s, now, FirstScript(freed), v, nextExpire, id, t);
      AfterRoundKeepsInv(s, now, FirstScript(freed), v, nextExpire);
      SettleAllKeepsWaiting(AfterRound(s, now, FirstScript(freed), v, nextExpire), now, OtherScripts(freed), v,
                            NextExpire(SettleRound(s, now, FirstScript(freed)), nextExpire), id, t);
    }
  }

  lemma OwnRound(s: State, now: Timestamp, id: TimerId, t: Timer)
    requires Inv(s) && s.batch != [] && ToRestart(s, id, t) && s.batch[0].addr == id.addr
    ensures Waits(Settle(s, now), id, t.Restart(now))
  {
  }

  /** Until its turn comes it stays to be restarted, whatever the destructors do. */
  lemma OtherRound(s: State, now: Timestamp, script: seq<Command>, v: Variant, nextExpire: Timestamp, id: TimerId,
                   t: Timer)
    requires Inv(s) && !s.calling && s.batch != [] && ToRestart(s, id, t) && s.batch[0].addr != id.addr
    ensures ToRestart(AfterRound(s, now, script, v, nextExpire), id, t)
  {
    var s1 := Settle(s, now);
    SettleKeepsInv(s, now);
    assert ToRestart(s1, id, t) by {
      var e :| e in s.batch && e.addr == id.addr;
      assert e in s1.batch;
    }
    RoundEvolves(s, now, script, v, nextExpire);
    ScriptMarksNothing(s1, script);
  }

  /** Reset puts it back with its next expiration, where it stays unless it is then cancelled. */
  lemma {:induction false} SettleAllRestarts(s: State, now: Timestamp, freed: seq<seq<Command>>, v: Variant,
                                             nextExpire: Timestamp, id: TimerId, t: Timer)
    requires Inv(s) && !s.calling && ToRestart(s, id, t) && !ResetCancels(s, now, freed, v, nextExpire, id)
    ensures Waits(SettleAll(s, now, freed, v, nextExpire), id, t.Restart(now))
    decreases |s.batch|
  {
    var s2 := AfterRound(s, now, FirstScript(freed), v, nextExpire);
    var next := NextExpire(SettleRound(s, now, FirstScript(freed)), nextExpire);
    AfterRoundKeepsInv(s, now, FirstScript(freed), v, nextExpire);
    if s.batch[0].addr == id.addr {
      OwnRound(s, now, id, t);
      RoundKeepsWaiting(s, now, FirstScript(freed), v, nextExpire, id, t.Restart(now));
      SettleAllKeepsWaiting(s2, now, OtherScripts(freed), v, next, id, t.Restart(now));
    } else {
      OtherRound(s, now, FirstScript(freed), v, nextExpire, id, t);
      SettleAllRestarts(s2, now, OtherScripts(freed), v, next, id, t);
    }
  }

  /** The state of a due timer's batch once it has been collected. */
  lemma DueIsInBatch(s: State, now: Timestamp, id: TimerId)
    requires Inv(s) && TopLevel(s) && id in s.active && s.heap[id.addr].expiration <= now
    ensures var s1 := Extract(s, now);
            Inv(s1) && InBatch(s1, id.addr) && s1.heap == s.heap && s1.canceling == {}
            && s.heap[id.addr].sequence == id.sequence
  {
    ExtractKeepsInv(s, now);
  }

  lemma SparedDueRestarts(s: State, now: Timestamp, scripts: seq<seq<Command>>, freed: seq<seq<Command>>, v: Variant,
                          id: TimerId)
    requires Inv(s) && TopLevel(s) && id in s.active && s.heap[id.addr].expiration <= now
    requires s.heap[id.addr].Repeat() && !CancelledBy(scripts, |Due(s, now)|, id)
    requires !ResetCancels(AtReset(s, now, scripts), now, freed, v, INVALID, id)
    ensures Waits(Fire(s, now, scripts, freed, v), id, s.heap[id.addr].Restart(now))
  {
    DueIsInBatch(s, now, id);
    var s1 := Extract(s, now);
    CallbacksSpare(s1, s1.batch, now, scripts, id, s.heap[id.addr]);
    AtResetKeepsInv(s, now, scripts);
    SettleAllRestarts(AtReset(s, now, scripts), now, freed, v, INVALID, id, s.heap[id.addr]);
    SettleAllKeepsInv(AtReset(s, now, scripts), now, freed, v, INVALID);
  }

  lemma OneShotIsFreed(s: State, now: Timestamp, scripts: seq<seq<Command>>, freed: seq<seq<Command>>, v: Variant,
                       id: TimerId)
    requires Inv(s) && TopLevel(s) && id in s.active && s.heap[id.addr].expiration <= now
    requires !s.heap[id.addr].Repeat()
    ensures Gone(Fire(s, now, scripts, freed, v), id.sequence)
  {
    DueIsInBatch(s, now, id);
    var s1 := Extract(s, now);
    CallbacksKeepDoom(s1, s1.batch, now, scripts, id);
    CreatedGrows(s1, s1.batch, now, scripts);
    AtResetKeepsInv(s, now, scripts);
    SettleAllEndsDoom(AtReset(s, now, scripts), now, freed, v, INVALID, id);
  }

  /** A firing cancels a timer that was waiting: in a callback, or, when reset destroys one, while the timer waits. */
  ghost predicate CancelledInFiring(s: State, now: Timestamp, scripts: seq<seq<Command>>, freed: seq<seq<Command>>,
                                    v: Variant, id: TimerId)
    requires Sorted(s.timers)
  {
    CancelledBy(scripts, |Due(s, now)|, id) || ResetCancels(AtReset(s, now, scripts), now, freed, v, INVALID, id)
  }

  lemma CancelledIsGone(s: State, now: Timestamp, scripts: seq<seq<Command>>, freed: seq<seq<Command>>, v: Variant,
                        id: TimerId)
    requires Inv(s) && TopLevel(s) && id in s.active && CancelledInFiring(s, now, scripts, freed, v, id)
    ensures Gone(Fire(s, now, scripts, freed, v), id.sequence)
  {
    if CancelledBy(scripts, |Due(s, now)|, id) {
      var k :| 0 <= k < |Due(s, now)| && k < |scripts| && Cancel(id) in scripts[k];
      var p := WaitingIsInserted(s, now, scripts, k, id);
      CancelAtIsFatal(s, now, scripts, freed, v, k, p, id);
    } else {
      CancelInsideReset(s, now, scripts, freed, v, id);
    }
  }

  /** A due timer is waiting again when the firing ends, one interval after the firing's time, exactly if it
      repeats and the firing has not cancelled it; otherwise it is freed. What cancels it is any callback of the
      batch, or the destruction of one after its own restart; a cancellation by one destroyed before is lost. */
  lemma OutcomeOfDue(s: State, now: Timestamp, scripts: seq<seq<Command>>, freed: seq<seq<Command>>, v: Variant,
                     id: TimerId)
    requires Inv(s) && TopLevel(s) && id in s.active && s.heap[id.addr].expiration <= now
    ensures var s' := Fire(s, now, scripts, freed, v); var t := s.heap[id.addr];
            if t.interval > 0.0 && !CancelledInFiring(s, now, scripts, freed, v, id)
            then id in s'.active && Entry(AddTime(now, t.interval), id.addr) in s'.timers
            else Gone(s', id.sequence)
  {
    FireKeepsInv(s, now, scripts, freed, v);
    if !s.heap[id.addr].Repeat() {
      OneShotIsFreed(s, now, scripts, freed, v, id);
    } else if CancelledInFiring(s, now, scripts, freed, v, id) {
      CancelledIsGone(s, now, scripts, freed, v, id);
    } else {
      SparedDueRestarts(s, now, scripts, freed, v, id);
    }
  }

  // ----- timers that are not due -----

  lemma {:induction false} CallbacksKeepActive(s: State, rest: seq<Entry>, now: Timestamp,
                                               scripts: seq<seq<Command>>, id: TimerId)
    requires Inv(s) && id in s.active && !CancelledBy(scripts, |rest|, id)
    requires forall e :: e in rest ==> e in s.batch
    ensures var s' := RunCallbacks(s, rest, now, scripts);
            id in s'.active && id.addr in s.heap && id.addr in s'.heap && s'.heap[id.addr] == s.heap[id.addr]
    decreases |rest|
  {
    if rest != [] {
      var s1 := StartRun(s, rest[0], now);
      CallbackKeepsBatch(s, rest[0], now, FirstScript(scripts));
      ArmingIsIrrelevant(s, s1);
      ScriptKeepsActive(s1, FirstScript(scripts), id);
      CallbacksKeepActive(RunScript(s1, FirstScript(scripts)), rest[1..], now, OtherScripts(scripts), id);
    }
  }

  /** A waiting timer that is not due waits unchanged when the firing ends, exactly if the firing has not
      cancelled it; otherwise it is freed. */
  lemma OutcomeOfNotDue(s: State, now: Timestamp, scripts: seq<seq<Command>>, freed: seq<seq<Command>>, v: Variant,
                        id: TimerId)
    requires Inv(s) && TopLevel(s) && id in s.active && now < s.heap[id.addr].expiration
    ensures var s' := Fire(s, now, scripts, freed, v);
            if CancelledInFiring(s, now, scripts, freed, v, id) then Gone(s', id.sequence)
            else Waits(s', id, s.heap[id.addr])
  {
    if CancelledInFiring(s, now, scripts, freed, v, id) {
      CancelledIsGone(s, now, scripts, freed, v, id);
    } else {
      SparedNotDueWaits(s, now, scripts, freed, v, id);
    }
  }

  lemma SparedNotDueWaits(s: State, now: Timestamp, scripts: seq<seq<Command>>, freed: seq<seq<Command>>, v: Variant,
                          id: TimerId)
    requires Inv(s) && TopLevel(s) && id in s.active && now < s.heap[id.addr].expiration
    requires !CancelledBy(scripts, |Due(s, now)|, id)
    requires !ResetCancels(AtReset(s, now, scripts), now, freed, v, INVALID, id)
    ensures Waits(Fire(s, now, scripts, freed, v), id, s.heap[id.addr])
  {
    NotDueStaysActive(s, now, id);
    var s1 := Extract(s, now);
    CallbacksKeepActive(s1, s1.batch, now, scripts, id);
    CallbacksKeepInv(s1, s1.batch, now, scripts);
    ResetKeepsWaiting(RunCallbacks(s1, s1.batch, now, scripts), now, freed, v, id, s.heap[id.addr]);
  }

  lemma NotDueStaysActive(s: State, now: Timestamp, id: TimerId)
    requires Inv(s) && TopLevel(s) && id in s.active && now < s.heap[id.addr].expiration
    ensures var s1 := Extract(s, now); Inv(s1) && id in s1.active && s1.heap == s.heap
  {
    ExtractKeepsInv(s, now);
  }

  /** A timer that a callback adds is waiting at once, with the next sequence number and the time asked for. */
  lemma AddedTimerWaits(s: State, when: Timestamp, interval: real, pick: Address)
    requires Inv(s)
    ensures var s' := Exec(s, Add(when, interval, pick)); var a := NewAddress(s, pick);
            && TimerId(a, s.created + 1) in s'.active && Entry(when, a) in s'.timers
            && a in s'.heap && s'.heap[a] == Timer(when, interval, s.created + 1)
  {
    NewIsLoose(s, when, interval, pick);
  }

  /** Numbers that other queues have taken are not given out again. */
  lemma NumbersTakenElsewhere(s: State, count: nat, when: Timestamp, interval: real, pick: Address)
    requires Inv(s)
    ensures var s' := Exec(Exec(s, CreateElsewhere(count)), Add(when, interval, pick));
            TimerId(NewAddress(s, pick), s.created + count + 1) in s'.active
  {
    ExecKeepsInv(s, CreateElsewhere(count));
    AddedTimerWaits(Exec(s, CreateElsewhere(count)), when, interval, pick);
  }

  /** So a timer added by a callback and not cancelled by what follows in the firing is waiting when it ends.
      `s` is the queue in the middle of the batch, just before the call. */
  lemma AddedInBatchSurvives(s: State, when: Timestamp, interval: real, pick: Address, script: seq<Command>,
                             rest: seq<Entry>, now: Timestamp, scripts: seq<seq<Command>>, freed: seq<seq<Command>>, v: Variant)
    requires Inv(s) && forall e :: e in rest ==> e in s.batch
    requires Cancel(TimerId(NewAddress(s, pick), s.created + 1)) !in script
    requires !CancelledBy(scripts, |rest|, TimerId(NewAddress(s, pick), s.created + 1))
    requires var s2 := RunCallbacks(RunScript(s, [Add(when, interval, pick)] + script), rest, now, scripts);
             !ResetCancels(s2.(calling := false), now, freed, v, INVALID, TimerId(NewAddress(s, pick), s.created + 1))
    ensures var id := TimerId(NewAddress(s, pick), s.created + 1);
            var s1 := RunScript(s, [Add(when, interval, pick)] + script);
            var s2 := RunCallbacks(s1, rest, now, scripts);
            Waits(Reset(s2.(calling := false), now, freed, v), id, Timer(when, interval, id.sequence))
  {
    var id := TimerId(NewAddress(s, pick), s.created + 1);
    var c := Add(when, interval, pick);
    assert ([c] + script)[1..] == script;
    ExecKeepsInv(s, c);
    AddedTimerWaits(s, when, interval, pick);
    var s0 := Exec(s, c);
    ScriptKeepsInv(s0, script);
    ScriptKeepsActive(s0, script, id);
    var s1 := RunScript(s0, script);
    CallbacksKeepInv(s1, rest, now, scripts);
    CallbacksKeepActive(s1, rest, now, scripts, id);
    ResetKeepsWaiting(RunCallbacks(s1, rest, now, scripts), now, freed, v, id, Timer(when, interval, id.sequence));
  }

  lemma ResetKeepsWaiting(s: State, now: Timestamp, freed: seq<seq<Command>>, v: Variant, id: TimerId, t: Timer)
    requires Inv(s) && Waits(s, id, t) && !ResetCancels(s.(calling := false), now, freed, v, INVALID, id)
    ensures Waits(Reset(s.(calling := false), now, freed, v), id, t)
  {
    var s1 := s.(calling := false);
    ArmingIsIrrelevant(s, s1);
    SettleAllKeepsWaiting(s1, now, freed, v, INVALID, id, t);
    SettleAllKeepsInv(s1, now, freed, v, INVALID);
  }
}
