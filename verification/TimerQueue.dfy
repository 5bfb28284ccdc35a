/** The timer queue as the source has it: an object whose methods update its sets in place. Each method
    is proved to do what the function of the same purpose does on the queue as a value, to keep the
    invariant, to touch no timer that is not allocated, and to pass its own assertions. */
module TimerQueues {
  import opened Options
  import opened Time
  import opened OrderedEntries
  import opened TimerState
  import opened TimerInvariants
  import opened TimerHistory

  class TimerQueue {
    /** The heap, as far as timers live on it. */
    var memory: map<Address, Timer>
    var numCreated: nat

    var timers: seq<Entry>
    var activeTimers: set<TimerId>
    var cancelingTimers: set<TimerId>
    var callingExpiredTimers: bool

    /** The functors that other threads have queued in the event loop for this object. */
    var handoff: seq<Functor>

    /** The batch that handleRead holds in a local variable. */
    ghost var batch: seq<Entry>
    /** What the kernel will make the timerfd readable for. */
    ghost var armed: Option<Timestamp>
    ghost var log: seq<Start>

    ghost function Value(): State
      reads this
    {
      State(memory, numCreated, timers, activeTimers, cancelingTimers, callingExpiredTimers, batch, handoff,
            armed, log, true)
    }

    ghost predicate Valid()
      reads this
    {
      Inv(Value())
    }

    constructor ()
      ensures Value() == INITIAL && Valid() && TopLevel(Value())
    {
      memory, numCreated := map[], 0;
      timers, activeTimers, cancelingTimers, callingExpiredTimers := [], {}, {}, false;
      handoff, batch, armed, log := [], [], None, [];
    }

    /** The sets' own timers are freed; what a queued functor still carries is left allocated. */
    method Destroy()
      requires Valid() && TopLevel(Value())
      modifies this`memory
      ensures forall a :: a in memory <==> HandedOver(Value(), a)
      ensures forall a :: a in memory ==> a in old(memory) && memory[a] == old(memory[a])
    {
      ghost var s := Value();
      WaitingTimersAreAllocated(s);
      OnlyHandedOverRemain(s);
      DeleteAll();
      assert forall a :: HandedOver(Value(), a) <==> HandedOver(s, a);
    }

    method DeleteAll()
      requires DistinctAddresses(timers)
      requires forall e :: e in timers ==> e.addr in memory
      modifies this`memory
      ensures memory == old(memory) - AddressesOf(timers)
    {
      var i := 0;
      while i < |timers|
        invariant 0 <= i <= |timers|
        invariant memory == old(memory) - AddressesOf(timers[..i])
      {
        var timer := timers[i];
        assert timer.addr in memory by {
          assert timer in timers;
          forall e | e in timers[..i] ensures e.addr != timer.addr {
            var j :| 0 <= j < i && timers[j] == e;
          }
        }
        memory := memory - {timer.addr};
        assert timers[..i + 1] == timers[..i] + [timer];
        assert AddressesOf(timers[..i + 1]) == AddressesOf(timers[..i]) + {timer.addr};
        i := i + 1;
      }
      assert timers[..i] == timers;
    }

    method NewTimer(when: Timestamp, interval: real, pick: Address) returns (timer: Address)
      requires Valid()
      modifies this`memory, this`numCreated
      ensures Value() == New(old(Value()), when, interval, pick) && timer == NewAddress(old(Value()), pick)
      ensures InvBut(Value(), {timer}) && memory[timer].sequence == numCreated
    {
      timer := FreshAddress(memory.Keys, pick);
      NewIsLoose(Value(), when, interval, pick);
      numCreated := numCreated + 1;
      memory := memory[timer := Timer(when, interval, numCreated)];
    }

    /** Timers of other queues take sequence numbers, too. */
    method CountElsewhere(count: nat)
      requires Valid()
      modifies this`numCreated
      ensures Value() == Exec(old(Value()), CreateElsewhere(count)) && Valid()
    {
      ExecKeepsInv(Value(), CreateElsewhere(count));
      numCreated := numCreated + count;
    }

    /** addTimer: in the loop thread runInLoop inserts at once, elsewhere it queues the insertion. */
    method AddTimer(when: Timestamp, interval: real, pick: Address, inLoopThread: bool) returns (id: TimerId)
      requires Valid()
      modifies this
      ensures Value() == Exec(old(Value()), if inLoopThread then Add(when, interval, pick) else PostAdd(when, interval, pick))
      ensures Valid() && id == TimerId(NewAddress(old(Value()), pick), old(numCreated) + 1)
      ensures inLoopThread ==> id in activeTimers
    {
      var timer := NewTimer(when, interval, pick);
      id := TimerId(timer, memory[timer].sequence);
      if inLoopThread {
        AddTimerInLoop(timer);
      } else {
        PostKeepsInv(Value(), Functor.AddTimerInLoop(timer));
        handoff := handoff + [Functor.AddTimerInLoop(timer)];
      }
    }

    method Cancel(id: TimerId, inLoopThread: bool)
      requires Valid()
      modifies this
      ensures Value() == Exec(old(Value()), if inLoopThread then Command.Cancel(id) else PostCancel(id))
      ensures Valid()
    {
      if inLoopThread {
        CancelInLoop(id);
      } else {
        PostKeepsInv(Value(), Functor.CancelInLoop(id));
        handoff := handoff + [Functor.CancelInLoop(id)];
      }
    }

    /** The event loop runs the oldest functor queued for this object. */
    method RunQueued()
      requires Valid()
      modifies this
      ensures Value() == DeliverNext(old(Value())) && Valid()
    {
      if handoff == [] {
        return;
      }
      TakeFunctor(Value());
      var functor := handoff[0];
      handoff := handoff[1..];
      match functor
      case AddTimerInLoop(timer) => AddTimerInLoop(timer);
      case CancelInLoop(id) => CancelInLoop(id);
    }

    method AddTimerInLoop(timer: Address)
      requires InvBut(Value(), {timer})
      modifies this`timers, this`activeTimers, this`armed
      ensures Value() == AddInLoop(old(Value()), timer) && Valid()
      ensures TimerId(timer, memory[timer].sequence) in activeTimers
    {
      AddKeepsInv(Value(), timer);
      var earliestChanged := Insert(timer);
      if earliestChanged {
        armed := Some(timers[0].time);
      }
    }

    method CancelInLoop(id: TimerId)
      requires Valid()
      modifies this`timers, this`memory, this`activeTimers, this`cancelingTimers
      ensures Value() == CancelTimer(old(Value()), id) && Valid()
    {
      CancelKeepsInv(Value(), id);
      if id in activeTimers {
        assert id.addr in memory;
        var entry := Entry(memory[id.addr].expiration, id.addr);
        var n := |timers|;
        timers := Erase(timers, entry);
        assert n - |timers| == 1;
        memory := memory - {id.addr};
        activeTimers := activeTimers - {id};
      } else if callingExpiredTimers {
        cancelingTimers := cancelingTimers + {id};
      }
    }

    /** Any step of a run: what is proved of runs from the initial state holds of this object. */
    method Perform(e: Event)
      requires Valid() && TopLevel(Value())
      modifies this
      ensures Value() == Step(old(Value()), e, AsWritten)
      ensures Valid() && TopLevel(Value())
    {
      StepKeepsInv(Value(), e, AsWritten);
      match e
      case Do(c) => Execute(c);
      case Deliver => RunQueued();
      case Fired(expired, now, scripts, freed) => HandleRead(expired, now, scripts, freed);
    }

    /** The timerfd was reported readable. `expired` says whether reading it still finds an expiry, `now` is
        what the clock says, `scripts` what the callbacks do, `freed` what destroying them does. */
    method HandleRead(expired: bool, now: Timestamp, scripts: seq<seq<Command>>, freed: seq<seq<Command>>)
      requires Valid() && TopLevel(Value())
      modifies this
      ensures Value() == Fire(ReadTimerfd(old(Value()), expired), now, scripts, freed, AsWritten)
      ensures Valid() && TopLevel(Value())
    {
      ReadFd(expired);
      RunBatch(now, scripts, freed);
    }

    method ReadFd(expired: bool)
      requires Valid()
      modifies this`armed
      ensures Value() == ReadTimerfd(old(Value()), expired) && Valid()
    {
      ArmingIsIrrelevant(Value(), ReadTimerfd(Value(), expired));
      if expired {
        armed := None;
      }
    }

    /** What handleRead does once it has read the timerfd. */
    method RunBatch(now: Timestamp, scripts: seq<seq<Command>>, freed: seq<seq<Command>>)
      requires Valid() && TopLevel(Value())
      modifies this
      ensures Value() == Fire(old(Value()), now, scripts, freed, AsWritten)
      ensures Valid() && TopLevel(Value())
    {
      var expired := BeginBatch(now);
      RunExpired(expired, now, scripts);
      EndBatch();
      Reset(expired, now, freed);
    }

    method BeginBatch(now: Timestamp) returns (expired: seq<Entry>)
      requires Valid() && batch == []
      modifies this
      ensures Value() == Extract(old(Value()), now) && Valid() && expired == batch
    {
      ExtractKeepsInv(Value(), now);
      ExtractSucceeds(Value(), now);
      expired := GetExpired(now);
      callingExpiredTimers := true;
      cancelingTimers := {};
    }

    method EndBatch()
      requires Valid()
      modifies this`callingExpiredTimers
      ensures Value() == old(Value()).(calling := false) && Valid()
    {
      ArmingIsIrrelevant(Value(), Value().(calling := false));
      callingExpiredTimers := false;
    }

    method RunExpired(expired: seq<Entry>, now: Timestamp, scripts: seq<seq<Command>>)
      requires Valid() && batch == expired
      modifies this
      ensures Value() == RunCallbacks(old(Value()), expired, now, scripts)
      ensures Valid() && batch == expired
    {
      ghost var goal := RunCallbacks(Value(), expired, now, scripts);
      var i, left := 0, scripts;
      while i < |expired|
        invariant 0 <= i <= |expired|
        invariant Valid() && batch == expired
        invariant RunCallbacks(Value(), expired[i..], now, left) == goal
      {
        assert expired[i..][0] == expired[i] && expired[i..][1..] == expired[i + 1..];
        assert expired[i] in batch;
        RunTimer(expired[i], now, FirstScript(left));
        left := OtherScripts(left);
        i := i + 1;
      }
      assert expired[i..] == [];
    }

    /** Start one callback; what it does to this queue is its script. */
    method RunTimer(timer: Entry, now: Timestamp, script: seq<Command>)
      requires Valid() && timer in batch
      modifies this
      ensures Value() == RunScript(StartRun(old(Value()), timer, now), script)
      ensures Valid() && batch == old(batch) && callingExpiredTimers == old(callingExpiredTimers)
    {
      assert timer.addr in memory;
      ArmingIsIrrelevant(Value(), StartRun(Value(), timer, now));
      log := log + [Start(memory[timer.addr].sequence, memory[timer.addr].interval, now)];
      ExecuteAll(script);
    }

    method ExecuteAll(script: seq<Command>)
      requires Valid()
      modifies this
      ensures Value() == RunScript(old(Value()), script)
      ensures Valid() && batch == old(batch) && callingExpiredTimers == old(callingExpiredTimers)
    {
      ScriptKeepsInv(Value(), script);
      ghost var goal := RunScript(Value(), script);
      var i := 0;
      while i < |script|
        invariant 0 <= i <= |script| && Valid()
        invariant RunScript(Value(), script[i..]) == goal
      {
        assert script[i..][0] == script[i] && script[i..][1..] == script[i + 1..];
        Execute(script[i]);
        i := i + 1;
      }
      assert script[i..] == [];
    }

    /** One call by a client, from this or another thread. */
    method Execute(c: Command)
      requires Valid()
      modifies this
      ensures Value() == Exec(old(Value()), c) && Valid()
    {
      match c
      case Add(when, interval, pick) => var _ := AddTimer(when, interval, pick, true);
      case Cancel(id) => Cancel(id, true);
      case PostAdd(when, interval, pick) => var _ := AddTimer(when, interval, pick, false);
      case PostCancel(id) => Cancel(id, false);
      case CreateElsewhere(count) => CountElsewhere(count);
    }

    method GetExpired(now: Timestamp) returns (expired: seq<Entry>)
      requires Valid() && batch == []
      modifies this`timers, this`activeTimers, this`batch
      ensures expired == Due(old(Value()), now)
      ensures timers == old(timers)[LowerBound(old(timers), now)..] && batch == expired
      ensures activeTimers == old(activeTimers) - IdsOf(memory, expired)
    {
      LowerBoundSplits(timers, now);
      WaitingTimersAreAllocated(Value());
      var end := LowerBound(timers, now);
      expired := timers[..end];
      timers := timers[end..];
      batch := expired;
      EraseActive(expired);
    }

    /** The loop of getExpired: each expired timer is found in the set of active timers. */
    method EraseActive(expired: seq<Entry>)
      requires DistinctAddresses(expired)
      requires forall e :: e in expired ==> e.addr in memory && TimerId(e.addr, memory[e.addr].sequence) in activeTimers
      modifies this`activeTimers
      ensures activeTimers == old(activeTimers) - IdsOf(memory, expired)
    {
      var i := 0;
      while i < |expired|
        invariant 0 <= i <= |expired|
        invariant activeTimers == old(activeTimers) - IdsOf(memory, expired[..i])
      {
        var entry := expired[i];
        assert entry in expired;
        var timer := TimerId(entry.addr, memory[entry.addr].sequence);
        assert timer in activeTimers by {
          forall e | e in expired[..i] ensures e.addr != entry.addr {
            var j :| 0 <= j < i && expired[j] == e;
          }
        }
        activeTimers := activeTimers - {timer};
        assert expired[..i + 1] == expired[..i] + [entry];
        assert IdsOf(memory, expired[..i + 1]) == IdsOf(memory, expired[..i]) + {timer};
        i := i + 1;
      }
      assert expired[..i] == expired;
    }

    /** As written: the timerfd is re-armed in every round of the loop, hence not for an empty batch. */
    method Reset(expired: seq<Entry>, now: Timestamp, freed: seq<seq<Command>>)
      requires Valid() && batch == expired && !callingExpiredTimers
      modifies this
      ensures Value() == TimerState.Reset(old(Value()), now, freed, AsWritten)
      ensures Valid() && TopLevel(Value())
    {
      ghost var goal := SettleAll(Value(), now, freed, AsWritten, INVALID);
      var nextExpire, left := INVALID, freed;
      var i := 0;
      while i < |expired|
        invariant 0 <= i <= |expired|
        invariant Valid() && batch == expired[i..] && !callingExpiredTimers
        invariant SettleAll(Value(), now, left, AsWritten, nextExpire) == goal
      {
        assert batch[0] == expired[i];
        nextExpire := ResetRound(expired[i].addr, now, FirstScript(left), nextExpire);
        assert expired[i..][1..] == expired[i + 1..];
        left := OtherScripts(left);
        i := i + 1;
      }
    }

    /** One round of the loop: the timer is re-inserted or deleted, and the timerfd set. */
    method ResetRound(timer: Address, now: Timestamp, script: seq<Command>,
                      lastExpire: Timestamp) returns (nextExpire: Timestamp)
      requires Valid() && batch != [] && timer == batch[0].addr
      modifies this
      ensures Value() == AfterRound(old(Value()), now, script, AsWritten, lastExpire) && Valid()
      ensures nextExpire == NextExpire(SettleRound(old(Value()), now, script), lastExpire)
      ensures batch == old(batch)[1..] && callingExpiredTimers == old(callingExpiredTimers)
    {
      RoundKeepsInv(Value(), now, script);
      nextExpire := lastExpire;
      SettleTimer(timer, now, script);
      RearmRoundKeepsInv(Value(), lastExpire);
      WaitingTimersAreAllocated(Value());
      if timers != [] {
        assert timers[0] in timers;
        nextExpire := memory[timers[0].addr].expiration;
      }
      if IsValid(nextExpire) {
        armed := Some(nextExpire);
      }
    }

    /** The first half of a round of reset. Deleting a timer destroys its callback, which may call this queue. */
    method SettleTimer(timer: Address, now: Timestamp, script: seq<Command>)
      requires Valid() && batch != [] && timer == batch[0].addr
      modifies this
      ensures Value() == SettleRound(old(Value()), now, script) && Valid()
    {
      ghost var s := Value();
      SettleKeepsInv(s, now);
      TakeFromBatch(s);
      batch := batch[1..];
      var id := TimerId(timer, memory[timer].sequence);
      if memory[timer].Repeat() && id !in cancelingTimers {
        Restart(timer, now);
      } else {
        memory := memory - {timer};
        assert Value() == Settle(s, now);
        ExecuteAll(script);
      }
    }

    method Restart(timer: Address, now: Timestamp)
      requires InvBut(Value(), {timer})
      modifies this`memory, this`timers, this`activeTimers
      ensures Value() == InsertTimer(old(Value()).(heap := old(memory)[timer := old(memory)[timer].Restart(now)]), timer)
      ensures Valid()
    {
      RetimeLoose(Value(), timer, memory[timer].Restart(now).expiration);
      memory := memory[timer := memory[timer].Restart(now)];
      var _ := Insert(timer);
    }

    method Insert(timer: Address) returns (earliestChanged: bool)
      requires InvBut(Value(), {timer})
      modifies this`timers, this`activeTimers
      ensures Value() == InsertTimer(old(Value()), timer) && Valid()
      ensures earliestChanged == EarliestChanges(old(Value()), memory[timer].expiration)
      ensures timers != [] && TimerId(timer, memory[timer].sequence) in activeTimers
    {
      InsertAdopts(Value(), timer);
      earliestChanged := false;
      var when := memory[timer].expiration;
      if timers == [] || when < timers[0].time {
        earliestChanged := true;
      }
      var n := |timers|;
      timers := OrderedEntries.Insert(timers, Entry(when, timer));
      assert |timers| == n + 1;
      activeTimers := activeTimers + {TimerId(timer, memory[timer].sequence)};
    }
  }

  function AddressesOf(timers: seq<Entry>): set<Address> {
    set e | e in timers :: e.addr
  }

  lemma OnlyHandedOverRemain(s: State)
    requires Inv(s) && TopLevel(s)
    ensures forall a :: HandedOver(s, a) <==> a in s.heap && a !in AddressesOf(s.timers)
  {
  }

  /** The assertion in getExpired holds for the whole batch. */
  lemma ExtractSucceeds(s: State, now: Timestamp)
    requires Inv(s) && s.batch == []
    ensures Extract(s, now) == s.(timers := s.timers[LowerBound(s.timers, now)..],
                                  active := s.active - IdsOf(s.heap, Due(s, now)), batch := Due(s, now),
                                  canceling := {}, calling := true)
  {
  }

  /** The timers of the ordered set are allocated and active, each with one entry. */
  lemma WaitingTimersAreAllocated(s: State)
    requires Inv(s)
    ensures DistinctAddresses(s.timers)
    ensures forall e :: e in s.timers ==> e.addr in s.heap && TimerId(e.addr, s.heap[e.addr].sequence) in s.active
  {
  }
}
