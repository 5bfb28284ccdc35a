/** What the timerfd is armed for. As written, reset arms it inside its loop over the batch, so a firing
    that finds nothing due arms nothing; the repaired variant arms it once after the loop. */
module TimerArming {
  import opened Options
  import opened Time
  import opened OrderedEntries
  import opened TimerState
  import opened TimerInvariants
  import opened TimerHistory

  /** Armed for exactly the earliest timer. */
  predicate ArmedExactly(s: State) {
    s.timers != [] ==> s.armed == Some(s.timers[0].time)
  }

  /** Armed no later than for the earliest timer: that timer will not be missed. */
  predicate ArmedInTime(s: State) {
    s.timers != [] ==> s.armed.Some? && s.armed.value <= s.timers[0].time
  }

  /** The clock that a firing reads shows a valid time. Nothing is said of the timers' own times. */
  predicate ValidClock(e: Event) {
    e.Fired? ==> e.now > 0
  }

  predicate NothingDue(s: State, now: Timestamp) {
    s.timers != [] && now < s.timers[0].time
  }

  /** The guard of the re-arming is false: it lets the timerfd be. */
  predicate InvalidEarliest(s: State) {
    s.timers != [] && s.timers[0].time <= 0
  }

  // ----- adding and cancelling -----

  /** Inserting a timer arms for it exactly if it becomes the earliest one. */
  lemma InsertionArms(s: State, a: Address)
    requires Sorted(s.timers) && a in s.heap && Entry(s.heap[a].expiration, a) !in s.timers
    ensures var s' := AddInLoop(s, a);
            && s'.timers != []
            && (if EarliestChanges(s, s.heap[a].expiration)
                then s'.timers[0].time == s.heap[a].expiration && s'.armed == Some(s'.timers[0].time)
                else s'.timers[0].time == s.timers[0].time && s'.armed == s.armed)
  {
  }

  lemma AddArms(s: State, a: Address)
    requires InvBut(s, {a})
    ensures ArmedExactly(s) ==> ArmedExactly(AddInLoop(s, a))
    ensures ArmedInTime(s) ==> ArmedInTime(AddInLoop(s, a))
    ensures var s' := AddInLoop(s, a);
            && s'.timers != []
            && (if EarliestChanges(s, s.heap[a].expiration)
                then s'.timers[0].time == s.heap[a].expiration && s'.armed == Some(s'.timers[0].time)
                else s'.timers[0].time == s.timers[0].time && s'.armed == s.armed)
  {
    LooseIsNotWaiting(s, a);
    InsertionArms(s, a);
  }

  lemma LooseIsNotWaiting(s: State, a: Address)
    requires InvBut(s, {a})
    ensures Sorted(s.timers) && a in s.heap && Entry(s.heap[a].expiration, a) !in s.timers
  {
  }

  /** The cancellation leaves the earliest time what it is. */
  predicate SparesEarliest(s: State, id: TimerId) {
    id in s.active && s.timers != [] && s.timers[0].addr == id.addr ==>
      |s.timers| == 1 || s.timers[1].time == s.timers[0].time
  }

  lemma CancelArms(s: State, id: TimerId)
    requires Inv(s)
    ensures ArmedExactly(s) ==> (ArmedExactly(CancelTimer(s, id)) <==> SparesEarliest(s, id))
    ensures ArmedInTime(s) ==> ArmedInTime(CancelTimer(s, id))
    ensures InvalidEarliest(CancelTimer(s, id)) ==> InvalidEarliest(s)
  {
  }

  /** A command keeps the timerfd armed in time. */
  lemma ExecArmsInTime(s: State, c: Command)
    requires Inv(s)
    ensures ArmedInTime(s) ==> ArmedInTime(Exec(s, c))
    ensures !InvalidEarliest(s) ==> !InvalidEarliest(Exec(s, c)) || ArmedInTime(Exec(s, c))
  {
    match c
    case Add(when, interval, pick) =>
      NewIsLoose(s, when, interval, pick);
      AddArms(New(s, when, interval, pick), NewAddress(s, pick));
    case Cancel(id) => CancelArms(s, id);
    case PostAdd(_, _, _) =>
    case PostCancel(_) =>
    case CreateElsewhere(_) =>
  }

  // ----- the callbacks of a firing -----

  /** What reset relies on where its guard is false: an earliest time that is not valid is armed for in time. */
  predicate Guarded(s: State) {
    InvalidEarliest(s) ==> ArmedInTime(s)
  }

  lemma {:induction false} ScriptKeepsGuarded(s: State, script: seq<Command>)
    requires Inv(s) && Guarded(s)
    ensures Guarded(RunScript(s, script))
    decreases |script|
  {
    if script != [] {
      ExecKeepsInv(s, script[0]);
      ExecArmsInTime(s, script[0]);
      ScriptKeepsGuarded(Exec(s, script[0]), script[1..]);
    }
  }

  lemma {:induction false} CallbacksKeepGuarded(s: State, rest: seq<Entry>, now: Timestamp, scripts: seq<seq<Command>>)
    requires Inv(s) && Guarded(s)
    requires forall e :: e in rest ==> e in s.batch
    ensures Guarded(RunCallbacks(s, rest, now, scripts))
    decreases |rest|
  {
    if rest != [] {
      var s1 := StartRun(s, rest[0], now);
      CallbackKeepsBatch(s, rest[0], now, FirstScript(scripts));
      ArmingIsIrrelevant(s, s1);
      ScriptKeepsGuarded(s1, FirstScript(scripts));
      CallbacksKeepGuarded(RunScript(s1, FirstScript(scripts)), rest[1..], now, OtherScripts(scripts));
    }
  }

  /** The callbacks insert no timer at an invalid time. */
  ghost predicate AddsValid(script: seq<Command>) {
    forall c :: c in script && c.Add? ==> c.when > 0
  }

  ghost predicate AllAddValid(scripts: seq<seq<Command>>) {
    forall script :: script in scripts ==> AddsValid(script)
  }

  lemma {:induction false} ScriptKeepsValid(s: State, script: seq<Command>)
    requires Inv(s) && !InvalidEarliest(s) && AddsValid(script)
    ensures !InvalidEarliest(RunScript(s, script))
    decreases |script|
  {
    if script != [] {
      ExecKeepsInv(s, script[0]);
      ExecKeepsValid(s, script[0]);
      ScriptKeepsValid(Exec(s, script[0]), script[1..]);
    }
  }

  lemma ExecKeepsValid(s: State, c: Command)
    requires Inv(s) && !InvalidEarliest(s) && (c.Add? ==> c.when > 0)
    ensures !InvalidEarliest(Exec(s, c))
  {
    match c
    case Add(when, interval, pick) =>
      NewIsLoose(s, when, interval, pick);
      AddArms(New(s, when, interval, pick), NewAddress(s, pick));
    case Cancel(id) => CancelArms(s, id);
    case PostAdd(_, _, _) =>
    case PostCancel(_) =>
    case CreateElsewhere(_) =>
  }

  lemma {:induction false} CallbacksKeepValid(s: State, rest: seq<Entry>, now: Timestamp, scripts: seq<seq<Command>>)
    requires Inv(s) && !InvalidEarliest(s) && AllAddValid(scripts)
    requires forall e :: e in rest ==> e in s.batch
    ensures !InvalidEarliest(RunCallbacks(s, rest, now, scripts))
    decreases |rest|
  {
    if rest != [] {
      var s1 := StartRun(s, rest[0], now);
      CallbackKeepsBatch(s, rest[0], now, FirstScript(scripts));
      ArmingIsIrrelevant(s, s1);
      ScriptKeepsValid(s1, FirstScript(scripts));
      CallbacksKeepValid(RunScript(s1, FirstScript(scripts)), rest[1..], now, OtherScripts(scripts));
    }
  }

  // ----- reset -----

  lemma BeforeReset(s: State, now: Timestamp, scripts: seq<seq<Command>>)
    requires Inv(s) && TopLevel(s) && now > 0
    ensures var s3 := AtReset(s, now, scripts);
            Inv(s3) && s3.batch == Due(s, now) && Guarded(s3) && (AllAddValid(scripts) ==> !InvalidEarliest(s3))
  {
    var s1 := Extract(s, now);
    ExtractKeepsInv(s, now);
    assert !InvalidEarliest(s1);
    CallbacksKeepGuarded(s1, s1.batch, now, scripts);
    if AllAddValid(scripts) {
      CallbacksKeepValid(s1, s1.batch, now, scripts);
    }
    AtResetKeepsInv(s, now, scripts);
  }

  /** The state in which the loop of reset comes to its guard for the last time. */
  function AtLastGuard(s: State, now: Timestamp, freed: seq<seq<Command>>, v: Variant,
                       nextExpire: Timestamp): (r: State)
    requires Sorted(s.timers)
    ensures Sorted(r.timers)
    decreases |s.batch|
  {
    if s.batch == [] then s
    else
      RoundsShorten(s, now, FirstScript(freed), v, nextExpire);
      if |s.batch| == 1 then SettleRound(s, now, FirstScript(freed))
      else AtLastGuard(AfterRound(s, now, FirstScript(freed), v, nextExpire), now, OtherScripts(freed), v,
                       NextExpire(SettleRound(s, now, FirstScript(freed)), nextExpire))
  }

  /** A restarted timer comes after `now`, hence at a valid time: an invalid earliest time stays what it is and
      the timerfd with it, and a valid one stays valid. */
  predicate KeepsEarliest(s: State, s': State) {
    if InvalidEarliest(s) then InvalidEarliest(s') && s'.timers[0].time == s.timers[0].time && s'.armed == s.armed
    else !InvalidEarliest(s')
  }

  lemma SettleKeepsEarliest(s: State, now: Timestamp)
    requires Inv(s) && now > 0 && s.batch != []
    ensures KeepsEarliest(s, Settle(s, now)) && Settle(s, now).armed == s.armed
    ensures s.timers != [] ==> Settle(s, now).timers != []
  {
  }

  lemma RearmRoundKeepsEarliest(s: State, nextExpire: Timestamp)
    requires Inv(s)
    ensures var s' := RearmRound(s, nextExpire);
            && s' == s.(armed := s'.armed) && KeepsEarliest(s, s')
            && (!InvalidEarliest(s) ==> ArmedExactly(s')) && (s.timers != [] ==> s' == Rearm(s))
  {
  }

  lemma RoundKeepsGuarded(s: State, now: Timestamp, script: seq<Command>)
    requires Inv(s) && now > 0 && s.batch != [] && Guarded(s)
    ensures Guarded(SettleRound(s, now, script))
  {
    SettleKeepsInv(s, now);
    SettleKeepsEarliest(s, now);
    ScriptKeepsGuarded(Settle(s, now), script);
  }

  lemma RoundKeepsValid(s: State, now: Timestamp, script: seq<Command>)
    requires Inv(s) && now > 0 && s.batch != [] && !InvalidEarliest(s) && AddsValid(script)
    ensures !InvalidEarliest(SettleRound(s, now, script))
  {
    SettleKeepsInv(s, now);
    SettleKeepsEarliest(s, now);
    ScriptKeepsValid(Settle(s, now), script);
  }

  /** What the loop makes of that state: as written it arms once more. */
  lemma {:induction false} LastGuard(s: State, now: Timestamp, freed: seq<seq<Command>>, v: Variant,
                                     nextExpire: Timestamp)
    requires Inv(s) && s.batch != []
    ensures var g := AtLastGuard(s, now, freed, v, nextExpire); var r := SettleAll(s, now, freed, v, nextExpire);
            && Inv(g) && r == g.(armed := r.armed)
            && (if v.AsWritten? then g.timers != [] ==> r == Rearm(g) else r == g)
    decreases |s.batch|
  {
    var s1, s2 := SettleRound(s, now, FirstScript(freed)), AfterRound(s, now, FirstScript(freed), v, nextExpire);
    RoundKeepsInv(s, now, FirstScript(freed));
    AfterRoundKeepsInv(s, now, FirstScript(freed), v, nextExpire);
    if |s.batch| == 1 {
      RearmRoundKeepsEarliest(s1, nextExpire);
    } else {
      LastGuard(s2, now, OtherScripts(freed), v, NextExpire(s1, nextExpire));
    }
  }

  lemma AfterRoundKeepsGuarded(s: State, now: Timestamp, script: seq<Command>, v: Variant, nextExpire: Timestamp)
    requires Inv(s) && now > 0 && s.batch != [] && Guarded(s)
    ensures Guarded(AfterRound(s, now, script, v, nextExpire))
  {
    RoundKeepsInv(s, now, script);
    RoundKeepsGuarded(s, now, script);
    RearmRoundKeepsEarliest(SettleRound(s, now, script), nextExpire);
  }

  lemma {:induction false} LastGuardIsGuarded(s: State, now: Timestamp, freed: seq<seq<Command>>, v: Variant,
                                              nextExpire: Timestamp)
    requires Inv(s) && now > 0 && Guarded(s)
    ensures Guarded(AtLastGuard(s, now, freed, v, nextExpire))
    decreases |s.batch|
  {
    if |s.batch| == 1 {
      RoundKeepsGuarded(s, now, FirstScript(freed));
    } else if s.batch != [] {
      AfterRoundKeepsInv(s, now, FirstScript(freed), v, nextExpire);
      AfterRoundKeepsGuarded(s, now, FirstScript(freed), v, nextExpire);
      LastGuardIsGuarded(AfterRound(s, now, FirstScript(freed), v, nextExpire), now, OtherScripts(freed), v,
                         NextExpire(SettleRound(s, now, FirstScript(freed)), nextExpire));
    }
  }

  lemma AfterRoundKeepsValid(s: State, now: Timestamp, script: seq<Command>, v: Variant, nextExpire: Timestamp)
    requires Inv(s) && now > 0 && s.batch != [] && !InvalidEarliest(s) && AddsValid(script)
    ensures !InvalidEarliest(AfterRound(s, now, script, v, nextExpire))
  {
    RoundKeepsInv(s, now, script);
    RoundKeepsValid(s, now, script);
    RearmRoundKeepsEarliest(SettleRound(s, now, script), nextExpire);
  }

  lemma AllAddValidInParts(freed: seq<seq<Command>>)
    requires AllAddValid(freed)
    ensures AddsValid(FirstScript(freed)) && AllAddValid(OtherScripts(freed))
  {
  }

  lemma {:induction false} LastGuardIsTrue(s: State, now: Timestamp, freed: seq<seq<Command>>, v: Variant,
                                           nextExpire: Timestamp)
    requires Inv(s) && now > 0 && !InvalidEarliest(s) && AllAddValid(freed)
    ensures !InvalidEarliest(AtLastGuard(s, now, freed, v, nextExpire))
    decreases |s.batch|
  {
    AllAddValidInParts(freed);
    if |s.batch| == 1 {
      RoundKeepsValid(s, now, FirstScript(freed));
    } else if s.batch != [] {
      AfterRoundKeepsInv(s, now, FirstScript(freed), v, nextExpire);
      AfterRoundKeepsValid(s, now, FirstScript(freed), v, nextExpire);
      LastGuardIsTrue(AfterRound(s, now, FirstScript(freed), v, nextExpire), now, OtherScripts(freed), v,
                      NextExpire(SettleRound(s, now, FirstScript(freed)), nextExpire));
    }
  }

  /** Where its guard is true reset arms for exactly the earliest timer, if it gets to the guard at all; where
      it is false the timerfd stays as it is. */
  lemma ResetArms(s: State, now: Timestamp, freed: seq<seq<Command>>, v: Variant)
    requires Inv(s) && (v.AsWritten? ==> s.batch != [])
    ensures var g := AtLastGuard(s, now, freed, v, INVALID);
            ArmedExactly(Reset(s, now, freed, v)) <==> !InvalidEarliest(g) || ArmedExactly(g)
    ensures now > 0 && Guarded(s) ==> ArmedInTime(Reset(s, now, freed, v))
  {
    var g := AtLastGuard(s, now, freed, v, INVALID);
    if now > 0 && Guarded(s) {
      LastGuardIsGuarded(s, now, freed, v, INVALID);
    }
    if s.batch != [] {
      LastGuard(s, now, freed, v, INVALID);
    }
    RearmArms(g);
    assert g.timers != [] ==> Reset(s, now, freed, v) == Rearm(g);
  }

  lemma RearmArms(g: State)
    requires Inv(g)
    ensures ArmedExactly(Rearm(g)) <==> !InvalidEarliest(g) || ArmedExactly(g)
    ensures Guarded(g) ==> ArmedInTime(Rearm(g))
    ensures Rearm(g).timers == g.timers
  {
  }

  // ----- one firing -----

  /** As written, a firing that finds nothing due only reads the timerfd; repaired, it arms it as well. */
  lemma NothingDueDoesNothing(s: State, now: Timestamp, scripts: seq<seq<Command>>, freed: seq<seq<Command>>,
                              v: Variant)
    requires Inv(s) && TopLevel(s) && now > 0 && Due(s, now) == []
    ensures Fire(s, now, scripts, freed, v)
            == s.(canceling := {}, armed := if v.AsWritten? || s.timers == [] then s.armed else Some(s.timers[0].time))
  {
    assert Extract(s, now).active == s.active;
  }

  /** The condition, for a firing in which something is due: the guard of the re-arming is true when reset comes
      to it for the last time, or the timerfd is already armed for the earliest timer. */
  predicate ResetWillArm(s: State, now: Timestamp, scripts: seq<seq<Command>>, freed: seq<seq<Command>>, v: Variant)
    requires Sorted(s.timers)
  {
    var g := AtLastGuard(AtReset(s, now, scripts), now, freed, v, INVALID);
    !InvalidEarliest(g) || ArmedExactly(g)
  }

  /** It is met if no callback, nor its destruction, inserts a timer at an invalid time. */
  lemma ValidAddsSuffice(s: State, now: Timestamp, scripts: seq<seq<Command>>, freed: seq<seq<Command>>, v: Variant)
    requires Inv(s) && TopLevel(s) && now > 0 && AllAddValid(scripts) && AllAddValid(freed)
    ensures ResetWillArm(s, now, scripts, freed, v)
  {
    BeforeReset(s, now, scripts);
    LastGuardIsTrue(AtReset(s, now, scripts), now, freed, v, INVALID);
  }

  /** As written, from any state: a firing with something due leaves the timerfd armed in time, and armed for
      exactly the earliest timer if and only if the guard lets it. One that comes too early for all timers leaves
      it as the read of the timerfd did: disarmed, unless the readiness was stale. */
  lemma FireArmsIffSomethingDue(s: State, expired: bool, now: Timestamp, scripts: seq<seq<Command>>,
                                freed: seq<seq<Command>>)
    requires Inv(s) && TopLevel(s) && now > 0
    ensures var s0 := ReadTimerfd(s, expired); var s' := Fire(s0, now, scripts, freed, AsWritten);
            if NothingDue(s, now) then
              s' == s0.(canceling := {}) && (expired ==> !ArmedInTime(s') && s'.armed == None)
            else
              ArmedInTime(s') && (ArmedExactly(s') <==> ResetWillArm(s0, now, scripts, freed, AsWritten))
  {
    var s0 := ReadTimerfd(s, expired);
    ArmingIsIrrelevant(s, s0);
    BeforeReset(s0, now, scripts);
    if Due(s, now) == [] {
      NothingDueDoesNothing(s0, now, scripts, freed, AsWritten);
    } else {
      ResetArms(AtReset(s0, now, scripts), now, freed, AsWritten);
    }
  }

  /** With the re-arming moved after the loop every firing leaves the timerfd armed in time, and exactly under
      the same condition. */
  lemma RepairedFireArms(s: State, expired: bool, now: Timestamp, scripts: seq<seq<Command>>, freed: seq<seq<Command>>)
    requires Inv(s) && TopLevel(s) && now > 0
    ensures var s0 := ReadTimerfd(s, expired); var s' := Fire(s0, now, scripts, freed, RearmAfterLoop);
            ArmedInTime(s') && (ArmedExactly(s') <==> ResetWillArm(s0, now, scripts, freed, RearmAfterLoop))
  {
    var s0 := ReadTimerfd(s, expired);
    ArmingIsIrrelevant(s, s0);
    BeforeReset(s0, now, scripts);
    ResetArms(AtReset(s0, now, scripts), now, freed, RearmAfterLoop);
  }

  // ----- the repair changes nothing else -----

  /** No operation looks at the timerfd. */
  lemma InsertionIgnoresArming(s: State, x: Option<Timestamp>, a: Address)
    requires Sorted(s.timers)
    ensures InsertTimer(s.(armed := x), a) == InsertTimer(s, a).(armed := x)
  {
  }

  lemma AdditionIgnoresArming(s: State, x: Option<Timestamp>, a: Address)
    requires Sorted(s.timers)
    ensures var r := AddInLoop(s.(armed := x), a); r == AddInLoop(s, a).(armed := r.armed)
  {
    InsertionIgnoresArming(s, x, a);
  }

  lemma CancellationIgnoresArming(s: State, x: Option<Timestamp>, id: TimerId)
    requires Sorted(s.timers)
    ensures CancelTimer(s.(armed := x), id) == CancelTimer(s, id).(armed := x)
  {
  }

  lemma ExecIgnoresArming(s: State, x: Option<Timestamp>, c: Command)
    requires Sorted(s.timers)
    ensures var r := Exec(s.(armed := x), c); r == Exec(s, c).(armed := r.armed)
  {
    match c
    case Add(when, interval, pick) =>
      AdditionIgnoresArming(New(s, when, interval, pick), x, NewAddress(s, pick));
    case Cancel(id) => CancellationIgnoresArming(s, x, id);
    case PostAdd(_, _, _) =>
    case PostCancel(_) =>
    case CreateElsewhere(_) =>
  }

  lemma {:induction false} ScriptIgnoresArming(s: State, x: Option<Timestamp>, script: seq<Command>)
    requires Sorted(s.timers)
    ensures var r := RunScript(s.(armed := x), script); r == RunScript(s, script).(armed := r.armed)
    decreases |script|
  {
    if script != [] {
      var s' := Exec(s, script[0]);
      ExecIgnoresArming(s, x, script[0]);
      ScriptIgnoresArming(s', Exec(s.(armed := x), script[0]).armed, script[1..]);
    }
  }

  lemma SettleIgnoresArming(s: State, x: Option<Timestamp>, now: Timestamp)
    requires Sorted(s.timers) && s.batch != []
    ensures Settle(s.(armed := x), now) == Settle(s, now).(armed := x)
  {
  }

  lemma RoundIgnoresArming(s: State, x: Option<Timestamp>, now: Timestamp, script: seq<Command>)
    requires Sorted(s.timers) && s.batch != []
    ensures var r := SettleRound(s.(armed := x), now, script); r == SettleRound(s, now, script).(armed := r.armed)
  {
    SettleIgnoresArming(s, x, now);
    ScriptIgnoresArming(Settle(s, now), x, script);
  }

  /** So the two variants of the loop differ in the timerfd only. */
  lemma {:induction false} VariantsSettleAlike(s: State, x: Option<Timestamp>, now: Timestamp, freed: seq<seq<Command>>,
                                               m: Timestamp, n: Timestamp)
    requires Inv(s)
    ensures var w := SettleAll(s, now, freed, AsWritten, m); var r := SettleAll(s.(armed := x), now, freed, RearmAfterLoop, n);
            r == w.(armed := r.armed)
    decreases |s.batch|
  {
    if s.batch != [] {
      var s1, r1 := SettleRound(s, now, FirstScript(freed)), SettleRound(s.(armed := x), now, FirstScript(freed));
      var s2 := RearmRound(s1, m);
      RoundKeepsInv(s, now, FirstScript(freed));
      RoundIgnoresArming(s, x, now, FirstScript(freed));
      RearmRoundKeepsInv(s1, m);
      assert s2.(armed := r1.armed) == r1;
      VariantsSettleAlike(s2, r1.armed, now, OtherScripts(freed), NextExpire(s1, m), NextExpire(r1, n));
    }
  }

  /** Destroying callbacks makes no calls. */
  ghost predicate Silent(freed: seq<seq<Command>>) {
    forall script :: script in freed ==> script == []
  }

  /** Then reset arms the timerfd for nothing but the earliest timer, at a valid time. */
  lemma {:induction false} SilentSettling(s: State, now: Timestamp, freed: seq<seq<Command>>, v: Variant,
                                          nextExpire: Timestamp)
    requires Inv(s) && now > 0 && Silent(freed) && (s.timers == [] ==> nextExpire <= 0)
    ensures var r := SettleAll(s, now, freed, v, nextExpire);
            && (r.timers == [] ==> s.timers == []) && (InvalidEarliest(r) ==> InvalidEarliest(s))
            && (v.RearmAfterLoop? || r.timers == [] || InvalidEarliest(r) ==> r.armed == s.armed)
    decreases |s.batch|
  {
    if s.batch != [] {
      var s1, s2 := SettleRound(s, now, FirstScript(freed)), AfterRound(s, now, FirstScript(freed), v, nextExpire);
      assert freed != [] ==> freed[0] in freed;
      assert forall script :: script in OtherScripts(freed) ==> script in freed;
      assert s1 == Settle(s, now);
      SettleKeepsInv(s, now);
      SettleKeepsEarliest(s, now);
      RearmRoundKeepsEarliest(s1, nextExpire);
      AfterRoundKeepsInv(s, now, FirstScript(freed), v, nextExpire);
      SilentSettling(s2, now, OtherScripts(freed), v, NextExpire(s1, nextExpire));
    }
  }

  /** If something is due, the repaired firing is the firing as written, except that the timerfd may be armed for
      other times where no timer waits or the guard refuses the earliest one; without calls from destructors, not
      even that. If nothing is due, the repaired firing arms the timerfd for the earliest timer and does nothing
      else. */
  lemma RepairIsConservative(s: State, now: Timestamp, scripts: seq<seq<Command>>, freed: seq<seq<Command>>)
    requires Inv(s) && TopLevel(s) && now > 0
    ensures var w := Fire(s, now, scripts, freed, AsWritten); var r := Fire(s, now, scripts, freed, RearmAfterLoop);
            if NothingDue(s, now) then r == w.(armed := Some(s.timers[0].time))
            else r == w.(armed := r.armed)
                 && ((w.timers != [] && w.timers[0].time > 0) || Silent(freed) ==> r == w)
  {
    if Due(s, now) == [] {
      NothingDueDoesNothing(s, now, scripts, freed, AsWritten);
      NothingDueDoesNothing(s, now, scripts, freed, RearmAfterLoop);
    } else {
      BeforeReset(s, now, scripts);
      VariantsResetAlike(AtReset(s, now, scripts), now, freed);
    }
  }

  lemma VariantsResetAlike(s: State, now: Timestamp, freed: seq<seq<Command>>)
    requires Inv(s) && now > 0 && s.batch != []
    ensures var w := Reset(s, now, freed, AsWritten); var r := Reset(s, now, freed, RearmAfterLoop);
            r == w.(armed := r.armed) && ((w.timers != [] && w.timers[0].time > 0) || Silent(freed) ==> r == w)
  {
    var w, r := SettleAll(s, now, freed, AsWritten, INVALID), SettleAll(s, now, freed, RearmAfterLoop, INVALID);
    assert s.(armed := s.armed) == s;
    VariantsSettleAlike(s, s.armed, now, freed, INVALID, INVALID);
    LastGuard(s, now, freed, AsWritten, INVALID);
    SettleAllKeepsInv(s, now, freed, AsWritten, INVALID);
    if Silent(freed) {
      SilentSettling(s, now, freed, AsWritten, INVALID);
      SilentSettling(s, now, freed, RearmAfterLoop, INVALID);
    }
    RearmRestores(w, r.armed, AtLastGuard(s, now, freed, AsWritten, INVALID));
  }

  lemma RearmRestores(w: State, x: Option<Timestamp>, g: State)
    requires Inv(w) && Inv(g) && w == g.(armed := w.armed) && (g.timers != [] ==> w == Rearm(g))
    ensures var r := Rearm(w.(armed := x));
            && r == w.(armed := r.armed)
            && (w.timers != [] && w.timers[0].time > 0 ==> r == w)
            && (w.timers == [] || InvalidEarliest(w) ==> r.armed == x)
  {
  }

  // ----- every step -----

  /** The steps after which the timerfd is still armed exactly, by the state before them. */
  predicate KeepsArming(s: State, e: Event)
    requires Sorted(s.timers)
  {
    match e
    case Do(Cancel(id)) => SparesEarliest(s, id)
    case Do(_) => true
    case Deliver => s.handoff != [] && s.handoff[0].CancelInLoop? ==> SparesEarliest(s, s.handoff[0].id)
    case Fired(expired, now, scripts, freed) =>
      if NothingDue(s, now) then !expired else ResetWillArm(ReadTimerfd(s, expired), now, scripts, freed, AsWritten)
  }

  lemma ExecArms(s: State, c: Command)
    requires Inv(s) && ArmedExactly(s)
    ensures ArmedExactly(Exec(s, c)) <==> KeepsArming(s, Do(c))
  {
    match c
    case Add(when, interval, pick) =>
      NewIsLoose(s, when, interval, pick);
      AddArms(New(s, when, interval, pick), NewAddress(s, pick));
    case Cancel(id) => CancelArms(s, id);
    case PostAdd(_, _, _) =>
    case PostCancel(_) =>
    case CreateElsewhere(_) =>
  }

  /** As written, one step from a state armed exactly leads to a state armed exactly if and only if it is none
      of these: a cancellation of the sole earliest timer, a firing that finds nothing due at an expired
      timerfd, and one whose callbacks leave an earliest time that the guard refuses. */
  lemma StepArms(s: State, e: Event)
    requires Inv(s) && TopLevel(s) && ValidClock(e) && ArmedExactly(s)
    ensures ArmedExactly(Step(s, e, AsWritten)) <==> KeepsArming(s, e)
  {
    match e
    case Do(c) => ExecArms(s, c);
    case Deliver =>
      if s.handoff != [] {
        TakeFunctor(s);
        match s.handoff[0]
        case AddTimerInLoop(a) => AddArms(s.(handoff := s.handoff[1..]), a);
        case CancelInLoop(id) => CancelArms(s.(handoff := s.handoff[1..]), id);
      }
    case Fired(expired, now, scripts, freed) => FireArmsIffSomethingDue(s, expired, now, scripts, freed);
  }

  /** Every step of the run keeps the arming exact, judged in the state it starts from. */
  ghost predicate AllKeepArming(s: State, es: seq<Event>)
    requires Sorted(s.timers)
    decreases |es|
  {
    es != [] ==> KeepsArming(s, es[0]) && AllKeepArming(Step(s, es[0], AsWritten), es[1..])
  }

  /** As written, in every run made of such steps, the timerfd is armed for exactly the earliest timer between
      steps. */
  lemma {:induction false} RunArmsExactly(s: State, es: seq<Event>)
    requires Inv(s) && TopLevel(s) && ArmedExactly(s)
    requires AllKeepArming(s, es) && forall e :: e in es ==> ValidClock(e)
    ensures ArmedExactly(Run(s, es, AsWritten))
    decreases |es|
  {
    if es != [] {
      StepArms(s, es[0]);
      StepKeepsInv(s, es[0], AsWritten);
      RunArmsExactly(Step(s, es[0], AsWritten), es[1..]);
    }
  }

  lemma DeliverArmsInTime(s: State)
    requires Inv(s) && ArmedInTime(s)
    ensures ArmedInTime(DeliverNext(s))
  {
    if s.handoff != [] {
      TakeFunctor(s);
      match s.handoff[0]
      case AddTimerInLoop(a) => AddArms(s.(handoff := s.handoff[1..]), a);
      case CancelInLoop(id) => CancelArms(s.(handoff := s.handoff[1..]), id);
    }
  }

  /** One step from a state armed in time, under either variant: only as written, and only a firing that finds
      nothing due at an expired timerfd, fails to keep it. */
  lemma StepArmsInTime(s: State, e: Event, v: Variant)
    requires Inv(s) && TopLevel(s) && ValidClock(e) && ArmedInTime(s)
    ensures ArmedInTime(Step(s, e, v)) <==> !(v.AsWritten? && e.Fired? && e.expired && NothingDue(s, e.now))
  {
    match e
    case Do(c) => ExecArmsInTime(s, c);
    case Deliver => DeliverArmsInTime(s);
    case Fired(expired, now, scripts, freed) =>
      if v.AsWritten? {
        FireArmsIffSomethingDue(s, expired, now, scripts, freed);
      } else {
        RepairedFireArms(s, expired, now, scripts, freed);
      }
  }

  /** With the re-arming moved after the loop, no timer is ever missed: in every run, with arbitrary
      cancellations, times of timers and valid clocks, the timerfd is armed no later than for the earliest
      timer. */
  lemma {:induction false} RepairedRunArmsInTime(s: State, es: seq<Event>)
    requires Inv(s) && TopLevel(s) && ArmedInTime(s)
    requires forall e :: e in es ==> ValidClock(e)
    ensures ArmedInTime(Run(s, es, RearmAfterLoop))
    decreases |es|
  {
    if es != [] {
      StepArmsInTime(s, es[0], RearmAfterLoop);
      StepKeepsInv(s, es[0], RearmAfterLoop);
      RepairedRunArmsInTime(Step(s, es[0], RearmAfterLoop), es[1..]);
    }
  }
}
