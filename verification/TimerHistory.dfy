/** What whole runs of the timer queue do: which callbacks a firing starts, how the starts of one timer
    are spaced, and that a cancelled timer never starts again. */
module TimerHistory {
  import opened Time
  import opened OrderedEntries
  import opened TimerState
  import opened TimerInvariants

  // ----- what client commands leave alone -----

  /** From s to s' nothing was started, no timer was changed in place, timers that are new have new
      sequence numbers, and the batch still has its timers. */
  ghost predicate Evolves(s: State, s': State) {
    && s'.log == s.log && s.created <= s'.created && s'.batch == s.batch
    && s.canceling <= s'.canceling
    && (forall a :: a in s'.heap ==> (a in s.heap && s'.heap[a] == s.heap[a]) || s.created < s'.heap[a].sequence)
    && (forall a :: IsActive(s', a) ==> s.created < s'.heap[a].sequence || IsActive(s, a) || HandedOver(s, a))
    && (forall a :: HandedOver(s', a) ==> a in s'.heap && (HandedOver(s, a) || s.created < s'.heap[a].sequence))
    && (forall e :: e in s.batch && e.addr in s.heap ==> e.addr in s'.heap && s'.heap[e.addr] == s.heap[e.addr])
  }

  lemma AddEvolves(s: State, when: Timestamp, interval: real, pick: Address)
    requires Inv(s)
    ensures Evolves(s, Exec(s, Add(when, interval, pick)))
  {
    var s1 := New(s, when, interval, pick);
    var a := NewAddress(s, pick);
    assert forall b :: HandedOver(s, b) ==> b != a && HandedOver(s1, b);
    assert forall b :: HandedOver(s1, b) ==> HandedOver(s, b);
    assert forall b :: IsActive(s1, b) ==> IsActive(s, b);
    InsertionEvolves(s, s1, a);
  }

  /** A timer that is new is inserted. */
  lemma InsertionEvolves(s: State, s1: State, a: Address)
    requires Sorted(s1.timers) && Evolves(s, s1) && a in s1.heap && s.created < s1.heap[a].sequence
    ensures Evolves(s, AddInLoop(s1, a))
  {
    var s' := AddInLoop(s1, a);
    assert forall b :: HandedOver(s', b) ==> HandedOver(s1, b);
    assert forall b :: IsActive(s', b) ==> b == a || IsActive(s1, b);
  }

  lemma CancelEvolves(s: State, id: TimerId)
    requires Inv(s)
    ensures Evolves(s, CancelTimer(s, id))
  {
    var s' := CancelTimer(s, id);
    forall b | HandedOver(s', b) ensures HandedOver(s, b) {
    }
  }

  lemma ExecEvolves(s: State, c: Command)
    requires Inv(s)
    ensures Evolves(s, Exec(s, c))
  {
    match c
    case Add(when, interval, pick) => AddEvolves(s, when, interval, pick);
    case Cancel(id) => CancelEvolves(s, id);
    case PostAdd(when, interval, pick) =>
    case PostCancel(id) =>
    case CreateElsewhere(_) =>
  }

  lemma DeliverEvolves(s: State)
    requires Inv(s)
    ensures Evolves(s, DeliverNext(s))
  {
    if s.handoff != [] {
      var s1 := s.(handoff := s.handoff[1..]);
      forall b | HandedOver(s1, b) ensures HandedOver(s, b) {
      }
      match s.handoff[0]
      case AddTimerInLoop(a) =>
        AdoptionEvolves(s, a);
      case CancelInLoop(id) =>
        TakeFunctor(s);
        CancelEvolves(s1, id);
    }
  }

  lemma AdoptionEvolves(s: State, a: Address)
    requires Inv(s) && s.handoff != [] && s.handoff[0] == AddTimerInLoop(a)
    ensures Evolves(s, AddInLoop(s.(handoff := s.handoff[1..]), a))
  {
    var s' := AddInLoop(s.(handoff := s.handoff[1..]), a);
    forall b | IsActive(s', b) ensures b == a || IsActive(s, b) {
      assert TimerId(b, s'.heap[b].sequence) in s.active + {TimerId(a, s.heap[a].sequence)};
    }
    forall b | HandedOver(s', b) ensures HandedOver(s, b) {
    }
  }

  lemma {:induction false} ScriptEvolves(s: State, script: seq<Command>)
    requires Inv(s)
    ensures Evolves(s, RunScript(s, script))
    decreases |script|
  {
    if script != [] {
      ExecKeepsInv(s, script[0]);
      ExecEvolves(s, script[0]);
      ScriptEvolves(Exec(s, script[0]), script[1..]);
    }
  }

  // ----- a firing runs exactly the due timers -----

  /** The due timers are all those at or before now, in the order of their expirations; everything left
      behind is later than now. */
  lemma DueIsExact(s: State, now: Timestamp)
    requires Sorted(s.timers)
    ensures forall e :: e in Due(s, now) <==> e in s.timers && e.time <= now
    ensures forall e :: e in Extract(s, now).timers <==> e in s.timers && now < e.time
    ensures Sorted(Due(s, now))
  {
  }

  /** The log entries of a batch whose timers are as in `heap`. */
  function Starts(heap: map<Address, Timer>, batch: seq<Entry>, now: Timestamp): seq<Start>
    requires forall e :: e in batch ==> e.addr in heap
  {
    seq(|batch|, i requires 0 <= i < |batch| =>
      Start(heap[batch[i].addr].sequence, heap[batch[i].addr].interval, now))
  }

  lemma {:induction false} CallbacksLogTheirBatch(s: State, rest: seq<Entry>, now: Timestamp,
                                                  scripts: seq<seq<Command>>)
    requires Inv(s)
    requires forall e :: e in rest ==> e in s.batch
    requires forall e :: e in rest ==> e.addr in s.heap
    ensures RunCallbacks(s, rest, now, scripts).log == s.log + Starts(s.heap, rest, now)
    decreases |rest|
  {
    if rest != [] {
      var s2 := RunScript(StartRun(s, rest[0], now), FirstScript(scripts));
      CallbackKeepsBatch(s, rest[0], now, FirstScript(scripts));
      CallbacksLogTheirBatch(s2, rest[1..], now, OtherScripts(scripts));
      StartsHeadFirst(s.log, s.heap, s2.heap, rest, now);
    }
  }

  lemma StartsHeadFirst(log: seq<Start>, heap: map<Address, Timer>, heap': map<Address, Timer>, rest: seq<Entry>,
                        now: Timestamp)
    requires rest != []
    requires forall e :: e in rest ==> e.addr in heap && e.addr in heap' && heap'[e.addr] == heap[e.addr]
    ensures log + [Start(heap[rest[0].addr].sequence, heap[rest[0].addr].interval, now)] + Starts(heap', rest[1..], now)
            == log + Starts(heap, rest, now)
  {
  }

  lemma CallbackKeepsBatch(s: State, e: Entry, now: Timestamp, script: seq<Command>)
    requires Inv(s) && e in s.batch
    ensures e.addr in s.heap
    ensures var s2 := RunScript(StartRun(s, e, now), script);
            && Inv(s2) && s2.batch == s.batch && s2.calling == s.calling
            && s2.log == s.log + [Start(s.heap[e.addr].sequence, s.heap[e.addr].interval, now)]
            && (forall x :: x in s.batch ==> x.addr in s.heap && x.addr in s2.heap && s2.heap[x.addr] == s.heap[x.addr])
  {
    var s1 := StartRun(s, e, now);
    ArmingIsIrrelevant(s, s1);
    ScriptKeepsInv(s1, script);
    ScriptEvolves(s1, script);
  }

  lemma CallbackEvolves(s: State, e: Entry, now: Timestamp, script: seq<Command>)
    requires Inv(s) && e in s.batch
    ensures Evolves(StartRun(s, e, now), RunScript(StartRun(s, e, now), script))
  {
    var s1 := StartRun(s, e, now);
    ArmingIsIrrelevant(s, s1);
    ScriptEvolves(s1, script);
  }

  /** A round of reset after its decision about the timer. */
  lemma RoundEvolves(s: State, now: Timestamp, script: seq<Command>, v: Variant, nextExpire: Timestamp)
    requires Inv(s) && s.batch != []
    ensures Evolves(Settle(s, now), AfterRound(s, now, script, v, nextExpire))
  {
    var s1 := Settle(s, now);
    SettleKeepsInv(s, now);
    ScriptEvolves(s1, if FreesFirst(s) then script else []);
    RoundKeepsInv(s, now, script);
    var s2 := SettleRound(s, now, script);
    RearmRoundKeepsInv(s2, nextExpire);
    ArmingEvolves(s1, s2, AfterRound(s, now, script, v, nextExpire));
  }

  lemma ArmingEvolves(s: State, s1: State, s2: State)
    requires Evolves(s, s1) && s2 == s1.(armed := s2.armed)
    ensures Evolves(s, s2)
  {
    assert forall a :: IsActive(s2, a) <==> IsActive(s1, a);
    assert forall a :: HandedOver(s2, a) <==> HandedOver(s1, a);
  }

  lemma {:induction false} SettleAllLogsNothing(s: State, now: Timestamp, freed: seq<seq<Command>>, v: Variant,
                                                nextExpire: Timestamp)
    requires Inv(s)
    ensures var s' := SettleAll(s, now, freed, v, nextExpire); s'.log == s.log && s.created <= s'.created
    decreases |s.batch|
  {
    if s.batch != [] {
      var s' := AfterRound(s, now, FirstScript(freed), v, nextExpire);
      AfterRoundKeepsInv(s, now, FirstScript(freed), v, nextExpire);
      RoundEvolves(s, now, FirstScript(freed), v, nextExpire);
      SettleLogsNothing(s, now);
      SettleAllLogsNothing(s', now, OtherScripts(freed), v, NextExpire(SettleRound(s, now, FirstScript(freed)), nextExpire));
    }
  }

  lemma SettleLogsNothing(s: State, now: Timestamp)
    requires Sorted(s.timers) && s.batch != []
    ensures Settle(s, now).log == s.log && Settle(s, now).created == s.created
  {
  }

  /** A firing starts the callbacks of the timers due at its entry, each once, in the order of their
      expirations, whatever the callbacks do: a timer they add waits for a later firing even if it is
      already due, so the batch is bounded by what was queued when it began. */
  lemma FireRunsExactlyTheDue(s: State, now: Timestamp, scripts: seq<seq<Command>>, freed: seq<seq<Command>>,
                              v: Variant)
    requires Inv(s) && TopLevel(s)
    ensures forall e :: e in Due(s, now) ==> e.addr in s.heap
    ensures Fire(s, now, scripts, freed, v).log == s.log + Starts(s.heap, Due(s, now), now)
  {
    ExtractKeepsInv(s, now);
    var s1 := Extract(s, now);
    CallbacksLogTheirBatch(s1, s1.batch, now, scripts);
    AtResetKeepsInv(s, now, scripts);
    SettleAllLogsNothing(AtReset(s, now, scripts), now, freed, v, INVALID);
  }
}
