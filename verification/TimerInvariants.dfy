/** What every operation of the timer queue keeps, in the middle of a batch as well as outside one. */
module TimerInvariants {
  import opened Time
  import opened OrderedEntries
  import opened TimerState

  // ----- the invariants -----

  /** The two indexes describe the same timers: (w, a) is in `timers` exactly when (a, a's sequence)
      is in `active` and w is a's expiration. */
  ghost predicate Mirrored(s: State) {
    && Sorted(s.timers)
    && (forall e :: e in s.timers ==>
          e.addr in s.heap && s.heap[e.addr].expiration == e.time
          && TimerId(e.addr, s.heap[e.addr].sequence) in s.active)
    && (forall id :: id in s.active ==>
          id.addr in s.heap && s.heap[id.addr].sequence == id.sequence
          && Entry(s.heap[id.addr].expiration, id.addr) in s.timers)
  }

  ghost predicate IsActive(s: State, a: Address) {
    a in s.heap && TimerId(a, s.heap[a].sequence) in s.active
  }

  ghost predicate InBatch(s: State, a: Address) {
    exists e :: e in s.batch && e.addr == a
  }

  ghost predicate HandedOver(s: State, a: Address) {
    AddTimerInLoop(a) in s.handoff
  }

  ghost predicate DistinctAddresses(batch: seq<Entry>) {
    forall i, j :: 0 <= i < j < |batch| ==> batch[i].addr != batch[j].addr
  }

  /** Every allocated timer has exactly one owner: the two sets, the running batch, or a functor that
      will insert it; and each owner's timers are allocated. `loose` holds the timer that is passing from
      one owner to the next in the middle of an operation. */
  ghost predicate OwnedBut(s: State, loose: set<Address>) {
    && (forall a :: a in s.heap && a !in loose ==> IsActive(s, a) || InBatch(s, a) || HandedOver(s, a))
    && (forall a :: a in loose ==> a in s.heap && !IsActive(s, a) && !InBatch(s, a) && !HandedOver(s, a))
    && (forall e :: e in s.batch ==>
          e.addr in s.heap && s.heap[e.addr].expiration == e.time
          && !IsActive(s, e.addr) && !HandedOver(s, e.addr))
    && DistinctAddresses(s.batch)
    && (forall a :: HandedOver(s, a) ==> a in s.heap && !IsActive(s, a))
    && (forall i, j :: 0 <= i < j < |s.handoff| && s.handoff[i].AddTimerInLoop? ==> s.handoff[i] != s.handoff[j])
  }

  /** Sequence numbers are handed out once. */
  ghost predicate Numbered(s: State) {
    && (forall a :: a in s.heap ==> 1 <= s.heap[a].sequence <= s.created)
    && (forall a, b :: a in s.heap && b in s.heap && a != b ==> s.heap[a].sequence != s.heap[b].sequence)
  }

  ghost predicate InvBut(s: State, loose: set<Address>) {
    s.ok && Mirrored(s) && OwnedBut(s, loose) && Numbered(s)
  }

  ghost predicate Inv(s: State) {
    InvBut(s, {})
  }

  /** Outside a batch. */
  ghost predicate TopLevel(s: State) {
    s.batch == [] && !s.calling
  }

  // ----- one operation at a time -----

  /** A new timer belongs to nobody yet. */
  lemma NewIsLoose(s: State, when: Timestamp, interval: real, pick: Address)
    requires Inv(s)
    ensures InvBut(New(s, when, interval, pick), {NewAddress(s, pick)})
  {
    var s' := New(s, when, interval, pick);
    var a := NewAddress(s, pick);
    assert AddTimerInLoop(a) !in s.handoff by { assert !HandedOver(s, a); }
    forall b | HandedOver(s', b) ensures b in s'.heap && !IsActive(s', b) {
    }
  }

  /** A loose timer can be inserted: both insertions succeed. */
  lemma InsertAdopts(s: State, a: Address)
    requires InvBut(s, {a})
    ensures Inv(InsertTimer(s, a))
  {
    var s' := InsertTimer(s, a);
    forall b | b in s'.heap ensures IsActive(s', b) || InBatch(s', b) || HandedOver(s', b) {
    }
    forall b | HandedOver(s', b) ensures b in s'.heap && !IsActive(s', b) {
      assert HandedOver(s, b);
    }
    forall e | e in s'.batch ensures !IsActive(s', e.addr) && !HandedOver(s', e.addr) {
      assert InBatch(s, e.addr);
    }
  }

  /** A loose timer can be freed. */
  lemma FreeDisposes(s: State, a: Address)
    requires InvBut(s, {a})
    ensures Inv(s.(heap := s.heap - {a}))
  {
  }

  lemma AddKeepsInv(s: State, a: Address)
    requires InvBut(s, {a})
    ensures Inv(AddInLoop(s, a))
  {
    InsertAdopts(s, a);
    ArmingIsIrrelevant(InsertTimer(s, a), AddInLoop(s, a));
  }

  /** What the timerfd is armed for, what has been logged and the flags play no part in the invariant. */
  lemma ArmingIsIrrelevant(s: State, s': State)
    requires Inv(s)
    requires s' == s.(armed := s'.armed, calling := s'.calling, canceling := s'.canceling, log := s'.log)
    ensures Inv(s')
  {
  }

  lemma CancelKeepsInv(s: State, id: TimerId)
    requires Inv(s)
    ensures Inv(CancelTimer(s, id))
    ensures CancelTimer(s, id).batch == s.batch && CancelTimer(s, id).calling == s.calling
  {
    if id in s.active {
      TakeFromSets(s, id);
      FreeDisposes(s.(timers := Erase(s.timers, Entry(s.heap[id.addr].expiration, id.addr)), active := s.active - {id}),
                   id.addr);
    } else {
      ArmingIsIrrelevant(s, CancelTimer(s, id));
    }
  }

  /** Its timer becomes loose when an id is taken out of both sets. */
  lemma TakeFromSets(s: State, id: TimerId)
    requires Inv(s) && id in s.active
    ensures InvBut(s.(timers := Erase(s.timers, Entry(s.heap[id.addr].expiration, id.addr)), active := s.active - {id}),
                   {id.addr})
  {
    var s1 := s.(timers := Erase(s.timers, Entry(s.heap[id.addr].expiration, id.addr)), active := s.active - {id});
    assert IsActive(s, id.addr);
    assert forall b :: HandedOver(s1, b) <==> HandedOver(s, b);
    assert forall b :: InBatch(s1, b) <==> InBatch(s, b);
    assert forall b :: IsActive(s1, b) <==> IsActive(s, b) && b != id.addr;
  }

  /** Handing a loose timer to the queue of functors. */
  lemma PostKeepsInv(s: State, f: Functor)
    requires if f.AddTimerInLoop? then InvBut(s, {f.addr}) else Inv(s)
    ensures Inv(s.(handoff := s.handoff + [f]))
  {
  }

  /** Taking the oldest functor leaves the timer it carries, if any, without an owner. */
  lemma TakeFunctor(s: State)
    requires Inv(s) && s.handoff != []
    ensures InvBut(s.(handoff := s.handoff[1..]),
                   if s.handoff[0].AddTimerInLoop? then {s.handoff[0].addr} else {})
  {
    var f := s.handoff[0];
    var s' := s.(handoff := s.handoff[1..]);
    assert forall a :: IsActive(s', a) <==> IsActive(s, a);
    forall a ensures HandedOver(s, a) <==> HandedOver(s', a) || f == AddTimerInLoop(a) {
    }
  }

  lemma ExecKeepsInv(s: State, c: Command)
    requires Inv(s)
    ensures Inv(Exec(s, c))
    ensures Exec(s, c).batch == s.batch && Exec(s, c).calling == s.calling
  {
    match c
    case Add(when, interval, pick) =>
      NewIsLoose(s, when, interval, pick);
      AddKeepsInv(New(s, when, interval, pick), NewAddress(s, pick));
    case Cancel(id) =>
      CancelKeepsInv(s, id);
    case PostAdd(when, interval, pick) =>
      NewIsLoose(s, when, interval, pick);
      PostKeepsInv(New(s, when, interval, pick), AddTimerInLoop(NewAddress(s, pick)));
    case PostCancel(id) =>
      PostKeepsInv(s, CancelInLoop(id));
    case CreateElsewhere(_) =>
  }

  lemma DeliverKeepsInv(s: State)
    requires Inv(s)
    ensures Inv(DeliverNext(s))
    ensures DeliverNext(s).batch == s.batch && DeliverNext(s).calling == s.calling
  {
    if s.handoff != [] {
      TakeFunctor(s);
      var s': State := s.(handoff := s.handoff[1..]);
      match s.handoff[0]
      case AddTimerInLoop(a) => AddKeepsInv(s', a);
      case CancelInLoop(id) => CancelKeepsInv(s', id);
    }
  }

  /** Every due timer is in `active` when the batch is collected. */
  lemma ExtractKeepsInv(s: State, now: Timestamp)
    requires Inv(s) && s.batch == []
    ensures Inv(Extract(s, now))
  {
    ExtractKeepsOwners(s, now);
  }

  lemma ExtractKeepsOwners(s: State, now: Timestamp)
    requires Inv(s) && s.batch == []
    requires forall e :: e in Extract(s, now).batch ==> e in s.timers && IsActive(s, e.addr)
    ensures OwnedBut(Extract(s, now), {})
  {
    var s' := Extract(s, now);
    forall a | a in s'.heap ensures IsActive(s', a) || InBatch(s', a) || HandedOver(s', a) {
    }
    forall e | e in s'.batch ensures e.addr in s'.heap && s'.heap[e.addr].expiration == e.time
                                     && !IsActive(s', e.addr) && !HandedOver(s', e.addr) {
      assert HandedOver(s', e.addr) ==> HandedOver(s, e.addr);
    }
    forall a | HandedOver(s', a) ensures a in s'.heap && !IsActive(s', a) {
      assert HandedOver(s, a);
    }
  }

  lemma {:induction false} ScriptKeepsInv(s: State, script: seq<Command>)
    requires Inv(s)
    ensures Inv(RunScript(s, script))
    ensures RunScript(s, script).batch == s.batch && RunScript(s, script).calling == s.calling
    decreases |script|
  {
    if script != [] {
      ExecKeepsInv(s, script[0]);
      ScriptKeepsInv(Exec(s, script[0]), script[1..]);
    }
  }

  lemma {:induction false} CallbacksKeepInv(s: State, rest: seq<Entry>, now: Timestamp, scripts: seq<seq<Command>>)
    requires Inv(s)
    requires forall e :: e in rest ==> e in s.batch
    ensures Inv(RunCallbacks(s, rest, now, scripts))
    ensures RunCallbacks(s, rest, now, scripts).batch == s.batch
    ensures RunCallbacks(s, rest, now, scripts).calling == s.calling
    decreases |rest|
  {
    if rest != [] {
      var s1 := StartRun(s, rest[0], now);
      ArmingIsIrrelevant(s, s1);
      ScriptKeepsInv(s1, FirstScript(scripts));
      CallbacksKeepInv(RunScript(s1, FirstScript(scripts)), rest[1..], now, OtherScripts(scripts));
    }
  }

  lemma DistinctTail(batch: seq<Entry>)
    requires DistinctAddresses(batch) && batch != []
    ensures DistinctAddresses(batch[1..])
    ensures forall e :: e in batch[1..] ==> e.addr != batch[0].addr && e in batch
  {
  }

  /** The first timer of the batch is allocated, stands in no index, and is not in the batch again. */
  lemma FirstOfBatch(s: State)
    requires Inv(s) && s.batch != []
    ensures var a := s.batch[0].addr;
            && a in s.heap && !IsActive(s, a) && !HandedOver(s, a)
            && (forall e :: e in s.timers ==> e.addr != a)
            && (forall id :: id in s.active ==> id.addr != a)
            && (forall e :: e in s.batch[1..] ==> e.addr != a && e in s.batch)
  {
  }

  /** It becomes loose when its turn in reset comes. */
  lemma TakeFromBatch(s: State)
    requires Inv(s) && s.batch != []
    ensures s.batch[0].addr in s.heap && InvBut(s.(batch := s.batch[1..]), {s.batch[0].addr})
  {
    FirstOfBatch(s);
    var s' := s.(batch := s.batch[1..]);
    forall b | HandedOver(s', b) ensures b in s'.heap && !IsActive(s', b) {
    }
  }

  /** The expiration of a loose timer may change. */
  lemma RetimeLoose(s: State, a: Address, t: Timestamp)
    requires InvBut(s, {a}) && a in s.heap
    ensures InvBut(s.(heap := s.heap[a := s.heap[a].(expiration := t)]), {a})
  {
    RetimeLooseKeepsOwners(s, a, t);
  }

  lemma RetimeLooseKeepsOwners(s: State, a: Address, t: Timestamp)
    requires OwnedBut(s, {a}) && a in s.heap
    ensures OwnedBut(s.(heap := s.heap[a := s.heap[a].(expiration := t)]), {a})
  {
  }

  lemma SettleKeepsInv(s: State, now: Timestamp)
    requires Inv(s) && s.batch != []
    ensures Inv(Settle(s, now))
    ensures Settle(s, now).calling == s.calling
  {
    var a := s.batch[0].addr;
    TakeFromBatch(s);
    if s.heap[a].Repeat() && TimerId(a, s.heap[a].sequence) !in s.canceling {
      RetimeLoose(s.(batch := s.batch[1..]), a, s.heap[a].Restart(now).expiration);
      InsertAdopts(s.(batch := s.batch[1..], heap := s.heap[a := s.heap[a].Restart(now)]), a);
    } else {
      FreeDisposes(s.(batch := s.batch[1..]), a);
    }
  }

  /** Re-arming finds its timer allocated. */
  lemma RearmKeepsInv(s: State)
    requires Inv(s)
    ensures Inv(Rearm(s))
    ensures Rearm(s) == s.(armed := Rearm(s).armed)
  {
  }

  lemma RearmRoundKeepsInv(s: State, nextExpire: Timestamp)
    requires Inv(s)
    ensures Inv(RearmRound(s, nextExpire))
    ensures RearmRound(s, nextExpire) == s.(armed := RearmRound(s, nextExpire).armed)
  {
    RearmKeepsInv(s);
    ArmingIsIrrelevant(s, s.(armed := RearmRound(s, nextExpire).armed));
  }

  /** Destroying the callback of a freed timer may call the queue. */
  lemma RoundKeepsInv(s: State, now: Timestamp, script: seq<Command>)
    requires Inv(s) && s.batch != []
    ensures var s' := SettleRound(s, now, script); Inv(s') && s'.batch == s.batch[1..] && s'.calling == s.calling
  {
    SettleKeepsInv(s, now);
    ScriptKeepsInv(Settle(s, now), script);
  }

  lemma AfterRoundKeepsInv(s: State, now: Timestamp, script: seq<Command>, v: Variant, nextExpire: Timestamp)
    requires Inv(s) && s.batch != []
    ensures var s' := AfterRound(s, now, script, v, nextExpire); Inv(s') && s'.batch == s.batch[1..] && s'.calling == s.calling
  {
    RoundKeepsInv(s, now, script);
    RearmRoundKeepsInv(SettleRound(s, now, script), nextExpire);
  }

  lemma {:induction false} SettleAllKeepsInv(s: State, now: Timestamp, freed: seq<seq<Command>>, v: Variant,
                                             nextExpire: Timestamp)
    requires Inv(s)
    ensures var s' := SettleAll(s, now, freed, v, nextExpire); Inv(s') && s'.batch == [] && s'.calling == s.calling
    decreases |s.batch|
  {
    if s.batch != [] {
      AfterRoundKeepsInv(s, now, FirstScript(freed), v, nextExpire);
      SettleAllKeepsInv(AfterRound(s, now, FirstScript(freed), v, nextExpire), now, OtherScripts(freed), v,
                        NextExpire(SettleRound(s, now, FirstScript(freed)), nextExpire));
    }
  }

  lemma AtResetKeepsInv(s: State, now: Timestamp, scripts: seq<seq<Command>>)
    requires Inv(s) && TopLevel(s)
    ensures var s3 := AtReset(s, now, scripts); Inv(s3) && s3.batch == Due(s, now) && !s3.calling
  {
    ExtractKeepsInv(s, now);
    var s1 := Extract(s, now);
    CallbacksKeepInv(s1, s1.batch, now, scripts);
    var s2 := RunCallbacks(s1, s1.batch, now, scripts);
    ArmingIsIrrelevant(s2, s2.(calling := false));
  }

  lemma ResetKeepsInv(s: State, now: Timestamp, freed: seq<seq<Command>>, v: Variant)
    requires Inv(s) && !s.calling
    ensures Inv(Reset(s, now, freed, v)) && TopLevel(Reset(s, now, freed, v))
  {
    SettleAllKeepsInv(s, now, freed, v, INVALID);
    RearmKeepsInv(SettleAll(s, now, freed, v, INVALID));
  }

  lemma FireKeepsInv(s: State, now: Timestamp, scripts: seq<seq<Command>>, freed: seq<seq<Command>>, v: Variant)
    requires Inv(s) && TopLevel(s)
    ensures Inv(Fire(s, now, scripts, freed, v)) && TopLevel(Fire(s, now, scripts, freed, v))
  {
    AtResetKeepsInv(s, now, scripts);
    ResetKeepsInv(AtReset(s, now, scripts), now, freed, v);
  }

  // ----- every run -----

  lemma StepKeepsInv(s: State, e: Event, v: Variant)
    requires Inv(s) && TopLevel(s)
    ensures Inv(Step(s, e, v)) && TopLevel(Step(s, e, v))
  {
    match e
    case Do(c) => ExecKeepsInv(s, c);
    case Deliver => DeliverKeepsInv(s);
    case Fired(expired, now, scripts, freed) =>
      ArmingIsIrrelevant(s, ReadTimerfd(s, expired));
      FireKeepsInv(ReadTimerfd(s, expired), now, scripts, freed, v);
  }

  /** In every run, with any callbacks, clocks and allocator: the two indexes agree, every timer has one
      owner, and no assertion fails and no freed timer is touched (`ok`, part of Inv). */
  lemma {:induction false} RunKeepsInv(s: State, es: seq<Event>, v: Variant)
    requires Inv(s) && TopLevel(s)
    ensures Inv(Run(s, es, v)) && TopLevel(Run(s, es, v))
    decreases |es|
  {
    if es != [] {
      StepKeepsInv(s, es[0], v);
      RunKeepsInv(Step(s, es[0], v), es[1..], v);
    }
  }

  lemma InitialInv()
    ensures Inv(INITIAL) && TopLevel(INITIAL)
  {
  }

  /** Between the steps of a run from the beginning, the two sets describe the same timers. */
  lemma SetsAgree(es: seq<Event>, v: Variant, w: Timestamp, a: Address)
    ensures var s := Run(INITIAL, es, v);
            Entry(w, a) in s.timers <==> IsActive(s, a) && s.heap[a].expiration == w
  {
    InitialInv();
    RunKeepsInv(INITIAL, es, v);
  }

  /** Nothing has gone wrong, and the allocated timers are exactly those that wait in the sets and those that
      a queued functor will insert, each in one of the two places: none is lost, none is owned twice. */
  lemma LiveTimersHaveOneOwner(es: seq<Event>, v: Variant, a: Address)
    ensures var s := Run(INITIAL, es, v);
            && s.ok
            && (a in s.heap <==> IsActive(s, a) || HandedOver(s, a))
            && !(IsActive(s, a) && HandedOver(s, a))
  {
    InitialInv();
    RunKeepsInv(INITIAL, es, v);
  }
}
