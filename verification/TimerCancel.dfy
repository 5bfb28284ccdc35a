/** Cancelling is final, and a stale id cancels nothing. */
module TimerCancel {
  import opened Time
  import opened OrderedEntries
  import opened TimerState
  import opened TimerInvariants
  import opened TimerHistory
  import opened TimerSchedule

  /** No allocated timer has this sequence number. */
  ghost predicate Gone(s: State, sequence: int) {
    forall a :: a in s.heap ==> s.heap[a].sequence != sequence
  }

  /** The id denotes a timer that has been inserted: it waits in the two sets or runs in the batch. */
  ghost predicate Present(s: State, id: TimerId) {
    id in s.active
    || (InBatch(s, id.addr) && id.addr in s.heap && s.heap[id.addr].sequence == id.sequence)
  }

  /** The timer is gone, or it is in the batch and reset will free it: it is marked or does not repeat. */
  ghost predicate Doomed(s: State, id: TimerId) {
    Gone(s, id.sequence)
    || (InBatch(s, id.addr) && id.addr in s.heap && s.heap[id.addr].sequence == id.sequence
        && (id in s.canceling || !s.heap[id.addr].Repeat()))
  }

  /** From position k on, the log has at most one start of this timer. */
  ghost predicate AtMostOnce(log: seq<Start>, k: nat, sequence: int) {
    forall i, j :: k <= i < j < |log| ==> log[i].sequence != sequence || log[j].sequence != sequence
  }

  /** Cancelling removes the timer with exactly this address and sequence number, if it waits, and no
      other: an id whose timer was freed leaves every timer alone, even one that has since been allocated
      at the same address. */
  lemma CancelRemovesOnlyItsTimer(s: State, id: TimerId)
    requires Inv(s)
    ensures var s' := CancelTimer(s, id);
            && (forall a :: a in s'.heap <==> a in s.heap && !(id in s.active && a == id.addr))
            && (forall a :: a in s'.heap ==> s'.heap[a] == s.heap[a])
            && (forall e :: e in s'.timers <==> e in s.timers && !(id in s.active && e.addr == id.addr))
            && (id in s.active ==> s.heap[id.addr].sequence == id.sequence && Gone(s', id.sequence))
    ensures Gone(s, id.sequence) ==> CancelTimer(s, id) == s.(canceling := CancelTimer(s, id).canceling)
  {
  }

  /** A freed address that is allocated again gets a timer the old id does not denote. */
  lemma ReusedAddressIsSafe(s: State, id: TimerId, when: Timestamp, interval: real)
    requires Inv(s) && TopLevel(s) && id in s.active
    ensures var freed := CancelTimer(s, id);
            var reused := Exec(freed, Add(when, interval, id.addr));
            id.addr in reused.heap && CancelTimer(reused, id) == reused
  {
    CancelKeepsInv(s, id);
  }

  /** While no callback runs - outside a firing, and in reset - a cancellation is effective exactly for a timer
      that waits in the two sets. In reset this leaves out the rest of the batch, whose timers are not marked. */
  lemma CancelWorksIffWaiting(s: State, id: TimerId)
    requires Inv(s) && !s.calling
    requires id.addr in s.heap && s.heap[id.addr].sequence == id.sequence
    ensures Gone(CancelTimer(s, id), id.sequence) <==> id in s.active
    ensures id !in s.active ==> CancelTimer(s, id) == s
  {
  }

  /** So the cancellation is lost if it reaches the loop before the timer that another thread has just
      created does: the timer is inserted afterwards as if nothing had happened. */
  lemma CancelBeforeInsertionIsLost(s: State, id: TimerId, v: Variant)
    requires Inv(s) && TopLevel(s)
    requires s.handoff != [] && s.handoff[0] == AddTimerInLoop(id.addr)
    requires id.addr in s.heap && s.heap[id.addr].sequence == id.sequence
    ensures Step(s, Do(Cancel(id)), v) == s
    ensures id in Run(s, [Do(Cancel(id)), Deliver], v).active
  {
    assert !IsActive(s, id.addr);
    var run := [Do(Cancel(id)), Deliver];
    assert run[1..] == [Deliver];
    assert Run(s, run, v) == Run(s, [Deliver], v);
    TakeFunctor(s);
  }

  // ----- gone for ever -----

  lemma EvolvingKeepsGone(s: State, s': State, q: int)
    requires Evolves(s, s') && Gone(s, q) && q <= s.created
    ensures Gone(s', q)
  {
  }

  lemma SettleKeepsGone(s: State, now: Timestamp, q: int)
    requires Inv(s) && s.batch != [] && Gone(s, q)
    ensures Gone(Settle(s, now), q)
  {
  }

  lemma {:induction false} SettleAllKeepsGone(s: State, now: Timestamp, freed: seq<seq<Command>>, v: Variant,
                                              nextExpire: Timestamp, q: int)
    requires Inv(s) && Gone(s, q) && q <= s.created
    ensures Gone(SettleAll(s, now, freed, v, nextExpire), q)
    decreases |s.batch|
  {
    if s.batch != [] {
      var s1, s2 := Settle(s, now), AfterRound(s, now, FirstScript(freed), v, nextExpire);
      SettleKeepsGone(s, now, q);
      SettleLogsNothing(s, now);
      RoundEvolves(s, now, FirstScript(freed), v, nextExpire);
      EvolvingKeepsGone(s1, s2, q);
      AfterRoundKeepsInv(s, now, FirstScript(freed), v, nextExpire);
      SettleAllKeepsGone(s2, now, OtherScripts(freed), v, NextExpire(SettleRound(s, now, FirstScript(freed)), nextExpire), q);
    }
  }

  lemma {:induction false} CallbacksKeepGone(s: State, rest: seq<Entry>, now: Timestamp, scripts: seq<seq<Command>>,
                                             q: int)
    requires Inv(s) && Gone(s, q) && q <= s.created
    requires forall e :: e in rest ==> e in s.batch
    ensures Gone(RunCallbacks(s, rest, now, scripts), q)
    decreases |rest|
  {
    if rest != [] {
      var s1 := StartRun(s, rest[0], now);
      var s2 := RunScript(s1, FirstScript(scripts));
      CallbackKeepsBatch(s, rest[0], now, FirstScript(scripts));
      CallbackEvolves(s, rest[0], now, FirstScript(scripts));
      CallbacksKeepGone(s2, rest[1..], now, OtherScripts(scripts), q);
    }
  }

  lemma {:induction false} CreatedGrows(s: State, rest: seq<Entry>, now: Timestamp, scripts: seq<seq<Command>>)
    requires Inv(s)
    requires forall e :: e in rest ==> e in s.batch
    ensures s.created <= RunCallbacks(s, rest, now, scripts).created
    decreases |rest|
  {
    if rest != [] {
      CallbackKeepsBatch(s, rest[0], now, FirstScript(scripts));
      CallbackEvolves(s, rest[0], now, FirstScript(scripts));
      CreatedGrows(RunScript(StartRun(s, rest[0], now), FirstScript(scripts)), rest[1..], now, OtherScripts(scripts));
    }
  }

  lemma FireKeepsGone(s: State, now: Timestamp, scripts: seq<seq<Command>>, freed: seq<seq<Command>>, v: Variant,
                      q: int)
    requires Inv(s) && TopLevel(s) && Gone(s, q) && q <= s.created
    ensures var s' := Fire(s, now, scripts, freed, v); Gone(s', q) && q <= s'.created
  {
    var s1 := Extract(s, now);
    ExtractKeepsInv(s, now);
    CallbacksKeepGone(s1, s1.batch, now, scripts, q);
    CreatedGrows(s1, s1.batch, now, scripts);
    AtResetKeepsInv(s, now, scripts);
    SettleAllKeepsGone(AtReset(s, now, scripts), now, freed, v, INVALID, q);
    SettleAllLogsNothing(AtReset(s, now, scripts), now, freed, v, INVALID);
  }

  lemma FireStartsNoneGone(s: State, now: Timestamp, scripts: seq<seq<Command>>, freed: seq<seq<Command>>,
                           v: Variant, q: int)
    requires Inv(s) && TopLevel(s) && Gone(s, q)
    ensures var s' := Fire(s, now, scripts, freed, v);
            s.log <= s'.log && forall i :: |s.log| <= i < |s'.log| ==> s'.log[i].sequence != q
  {
    FireRunsExactlyTheDue(s, now, scripts, freed, v);
  }

  /** From s to s' the sequence number q has stayed without a timer, and nothing with it was started. */
  ghost predicate StaysGone(s: State, s': State, q: int) {
    Gone(s', q) && q <= s'.created
    && s.log <= s'.log && forall i :: |s.log| <= i < |s'.log| ==> s'.log[i].sequence != q
  }

  lemma StepStaysGone(s: State, e: Event, v: Variant, q: int)
    requires Inv(s) && TopLevel(s) && Gone(s, q) && q <= s.created
    ensures StaysGone(s, Step(s, e, v), q)
  {
    match e
    case Do(c) =>
      ExecEvolves(s, c);
      EvolvingKeepsGone(s, Exec(s, c), q);
    case Deliver =>
      DeliverEvolves(s);
      EvolvingKeepsGone(s, DeliverNext(s), q);
    case Fired(expired, now, scripts, freed) =>
      var s0 := ReadTimerfd(s, expired);
      ArmingIsIrrelevant(s, s0);
      FireKeepsGone(s0, now, scripts, freed, v, q);
      FireStartsNoneGone(s0, now, scripts, freed, v, q);
  }

  lemma StaysGoneTransitively(s1: State, s2: State, s3: State, q: int)
    requires StaysGone(s1, s2, q) && StaysGone(s2, s3, q)
    ensures StaysGone(s1, s3, q)
  {
    assert forall i :: 0 <= i < |s2.log| ==> s3.log[i] == s2.log[i];
  }

  /** A sequence number that has been given out and has no timer never starts again, in any continuation. */
  lemma {:induction false} GoneForEver(s: State, es: seq<Event>, v: Variant, q: int)
    requires Inv(s) && TopLevel(s) && Gone(s, q) && q <= s.created
    ensures StaysGone(s, Run(s, es, v), q)
    decreases |es|
  {
    if es != [] {
      var s1 := Step(s, es[0], v);
      StepKeepsInv(s, es[0], v);
      StepStaysGone(s, es[0], v, q);
      GoneForEver(s1, es[1..], v, q);
      StaysGoneTransitively(s, s1, Run(s1, es[1..], v), q);
    }
  }

  // ----- cancelling inside a batch -----

  /** The timer has been inserted: it waits, runs in the batch, or has been freed since. This leaves out a
      timer whose insertion is still queued, and an id that was never handed out. */
  ghost predicate Inserted(s: State, id: TimerId) {
    Present(s, id) || (Gone(s, id.sequence) && id.sequence <= s.created)
  }

  lemma CancelDooms(s: State, id: TimerId)
    requires Inv(s) && s.calling && Inserted(s, id)
    ensures Doomed(CancelTimer(s, id), id)
  {
  }

  lemma ExecKeepsInserted(s: State, c: Command, id: TimerId)
    requires Inv(s) && s.calling && Inserted(s, id)
    ensures Inserted(Exec(s, c), id)
  {
    ExecKeepsInv(s, c);
    ExecEvolves(s, c);
  }

  lemma {:induction false} ScriptKeepsInserted(s: State, script: seq<Command>, id: TimerId)
    requires Inv(s) && s.calling && Inserted(s, id)
    ensures Inserted(RunScript(s, script), id)
    decreases |script|
  {
    if script != [] {
      ExecKeepsInv(s, script[0]);
      ExecKeepsInserted(s, script[0], id);
      ScriptKeepsInserted(Exec(s, script[0]), script[1..], id);
    }
  }

  lemma {:induction false} ScriptSplits(s: State, script: seq<Command>, p: nat)
    requires Sorted(s.timers) && p < |script|
    ensures RunScript(s, script) == RunScript(Exec(RunScript(s, script[..p]), script[p]), script[p + 1..])
    decreases |script|
  {
    if p > 0 {
      assert script[..p][1..] == script[1..][..p - 1];
      assert script[1..][p..] == script[p + 1..];
      ScriptSplits(Exec(s, script[0]), script[1..], p - 1);
    }
  }

  lemma EvolvingKeepsDoom(s: State, s': State, id: TimerId)
    requires Evolves(s, s') && Doomed(s, id) && id.sequence <= s.created
    ensures Doomed(s', id)
  {
  }

  lemma {:induction false} CallbacksKeepDoom(s: State, rest: seq<Entry>, now: Timestamp, scripts: seq<seq<Command>>,
                                             id: TimerId)
    requires Inv(s) && Doomed(s, id) && id.sequence <= s.created
    requires forall e :: e in rest ==> e in s.batch
    ensures Doomed(RunCallbacks(s, rest, now, scripts), id)
    decreases |rest|
  {
    if rest != [] {
      var s1 := StartRun(s, rest[0], now);
      CallbackKeepsBatch(s, rest[0], now, FirstScript(scripts));
      CallbackEvolves(s, rest[0], now, FirstScript(scripts));
      EvolvingKeepsDoom(s1, RunScript(s1, FirstScript(scripts)), id);
      CallbacksKeepDoom(RunScript(s1, FirstScript(scripts)), rest[1..], now, OtherScripts(scripts), id);
    }
  }

  /** The queue just before command p of callback k, counted from 0, in a batch of which `rest` is still to
      come. */
  function Moment(s: State, rest: seq<Entry>, now: Timestamp, scripts: seq<seq<Command>>, k: nat, p: nat): State
    requires Sorted(s.timers) && k < |rest| && k < |scripts| && p < |scripts[k]|
  {
    RunScript(StartRun(RunCallbacks(s, rest[..k], now, scripts), rest[k], now), scripts[k][..p])
  }

  ghost predicate SameBatch(s: State, s': State) {
    s'.batch == s.batch && s'.calling == s.calling
    && forall e :: e in s.batch ==> e.addr in s.heap && e.addr in s'.heap && s'.heap[e.addr] == s.heap[e.addr]
  }

  lemma {:induction false} CallbacksKeepBatch(s: State, rest: seq<Entry>, now: Timestamp, scripts: seq<seq<Command>>)
    requires Inv(s)
    requires forall e :: e in rest ==> e in s.batch
    ensures var s' := RunCallbacks(s, rest, now, scripts); Inv(s') && SameBatch(s, s')
    decreases |rest|
  {
    if rest != [] {
      CallbackKeepsBatch(s, rest[0], now, FirstScript(scripts));
      CallbacksKeepBatch(RunScript(StartRun(s, rest[0], now), FirstScript(scripts)), rest[1..], now, OtherScripts(scripts));
    }
  }

  lemma {:induction false} CallbacksSplit(s: State, rest: seq<Entry>, now: Timestamp, scripts: seq<seq<Command>>,
                                          k: nat)
    requires Sorted(s.timers) && k < |rest| && k < |scripts|
    ensures RunCallbacks(s, rest, now, scripts)
            == RunCallbacks(RunScript(StartRun(RunCallbacks(s, rest[..k], now, scripts), rest[k], now), scripts[k]),
                            rest[k + 1..], now, scripts[k + 1..])
    decreases k
  {
    if k > 0 {
      var s2 := RunScript(StartRun(s, rest[0], now), scripts[0]);
      assert rest[..k][1..] == rest[1..][..k - 1];
      assert rest[1..][k..] == rest[k + 1..];
      assert scripts[1..][k..] == scripts[k + 1..];
      CallbacksSplit(s2, rest[1..], now, scripts[1..], k - 1);
    }
  }

  /** Up to there the batch and its timers are as when it was collected. */
  lemma MomentKeepsBatch(s: State, rest: seq<Entry>, now: Timestamp, scripts: seq<seq<Command>>, k: nat, p: nat)
    requires Inv(s) && k < |rest| && k < |scripts| && p < |scripts[k]|
    requires forall e :: e in rest ==> e in s.batch
    ensures var m := Moment(s, rest, now, scripts, k, p);
            Inv(m) && SameBatch(s, m)
  {
    CallbacksKeepBatch(s, rest[..k], now, scripts);
    CallbackKeepsBatch(RunCallbacks(s, rest[..k], now, scripts), rest[k], now, scripts[k][..p]);
  }

  lemma CallbackKeepsInserted(s: State, e: Entry, now: Timestamp, script: seq<Command>, id: TimerId)
    requires Inv(s) && s.calling && e in s.batch && Inserted(s, id)
    ensures Inserted(RunScript(StartRun(s, e, now), script), id)
  {
    ArmingIsIrrelevant(s, StartRun(s, e, now));
    ScriptKeepsInserted(StartRun(s, e, now), script, id);
  }

  lemma {:induction false} CallbacksKeepInserted(s: State, rest: seq<Entry>, now: Timestamp,
                                                 scripts: seq<seq<Command>>, id: TimerId)
    requires Inv(s) && s.calling && Inserted(s, id)
    requires forall e :: e in rest ==> e in s.batch
    ensures Inserted(RunCallbacks(s, rest, now, scripts), id)
    decreases |rest|
  {
    if rest != [] {
      CallbackKeepsBatch(s, rest[0], now, FirstScript(scripts));
      CallbackKeepsInserted(s, rest[0], now, FirstScript(scripts), id);
      CallbacksKeepInserted(RunScript(StartRun(s, rest[0], now), FirstScript(scripts)), rest[1..], now, OtherScripts(scripts), id);
    }
  }

  /** Command p of callback k cancels the timer, which has been inserted by then. */
  ghost predicate CancelsAt(s: State, rest: seq<Entry>, now: Timestamp, scripts: seq<seq<Command>>, k: nat, p: nat,
                            id: TimerId)
    requires Sorted(s.timers)
  {
    k < |rest| && k < |scripts| && p < |scripts[k]| && scripts[k][p] == Cancel(id)
    && Inserted(Moment(s, rest, now, scripts, k, p), id)
  }

  /** The callback that cancels leaves the timer gone or marked. */
  lemma ScriptDooms(s: State, script: seq<Command>, p: nat, id: TimerId)
    requires Inv(s) && s.calling && p < |script| && script[p] == Cancel(id)
    requires Inserted(RunScript(s, script[..p]), id)
    ensures Doomed(RunScript(s, script), id) && id.sequence <= RunScript(s, script).created
  {
    var m := RunScript(s, script[..p]);
    ScriptKeepsInv(s, script[..p]);
    ScriptSplits(s, script, p);
    CancelDooms(m, id);
    CancelKeepsInv(m, id);
    ScriptEvolves(CancelTimer(m, id), script[p + 1..]);
    EvolvingKeepsDoom(CancelTimer(m, id), RunScript(s, script), id);
  }

  /** Whichever callback of the batch cancels the timer, the timer ends up gone or marked. */
  lemma CallbackDooms(s: State, rest: seq<Entry>, now: Timestamp, scripts: seq<seq<Command>>, k: nat, p: nat,
                      id: TimerId)
    requires Inv(s) && s.calling && CancelsAt(s, rest, now, scripts, k, p, id)
    requires forall e :: e in rest ==> e in s.batch
    ensures var s' := RunCallbacks(s, rest, now, scripts); Doomed(s', id) && id.sequence <= s'.created
  {
    var s1 := RunCallbacks(s, rest[..k], now, scripts);
    CallbacksKeepBatch(s, rest[..k], now, scripts);
    var s2 := StartRun(s1, rest[k], now);
    ArmingIsIrrelevant(s1, s2);
    ScriptDooms(s2, scripts[k], p, id);
    CallbackKeepsBatch(s1, rest[k], now, scripts[k]);
    var s3 := RunScript(s2, scripts[k]);
    CallbacksKeepDoom(s3, rest[k + 1..], now, scripts[k + 1..], id);
    CreatedGrows(s3, rest[k + 1..], now, scripts[k + 1..]);
    CallbacksSplit(s, rest, now, scripts, k);
  }

  /** Reset frees a marked timer, repeating or not. */
  lemma {:induction false} SettleAllEndsDoom(s: State, now: Timestamp, freed: seq<seq<Command>>, v: Variant,
                                             nextExpire: Timestamp, id: TimerId)
    requires Inv(s) && Doomed(s, id) && id.sequence <= s.created
    ensures Gone(SettleAll(s, now, freed, v, nextExpire), id.sequence)
    decreases |s.batch|
  {
    if Gone(s, id.sequence) {
      SettleAllKeepsGone(s, now, freed, v, nextExpire, id.sequence);
    } else {
      var s1, s2 := Settle(s, now), AfterRound(s, now, FirstScript(freed), v, nextExpire);
      SettleKeepsDoom(s, now, id);
      SettleLogsNothing(s, now);
      RoundEvolves(s, now, FirstScript(freed), v, nextExpire);
      EvolvingKeepsDoom(s1, s2, id);
      AfterRoundKeepsInv(s, now, FirstScript(freed), v, nextExpire);
      SettleAllEndsDoom(s2, now, OtherScripts(freed), v, NextExpire(SettleRound(s, now, FirstScript(freed)), nextExpire), id);
    }
  }

  lemma SettleKeepsDoom(s: State, now: Timestamp, id: TimerId)
    requires Inv(s) && s.batch != [] && Doomed(s, id)
    ensures Doomed(Settle(s, now), id)
  {
    SettleKeepsInv(s, now);
  }

  lemma CancelAtIsFatal(s: State, now: Timestamp, scripts: seq<seq<Command>>, freed: seq<seq<Command>>, v: Variant,
                        k: nat, p: nat, id: TimerId)
    requires Inv(s) && TopLevel(s) && CancelsAt(Extract(s, now), Due(s, now), now, scripts, k, p, id)
    ensures var s' := Fire(s, now, scripts, freed, v);
            Gone(s', id.sequence) && id.sequence <= s'.created
  {
    var s1 := Extract(s, now);
    ExtractKeepsInv(s, now);
    CallbackDooms(s1, s1.batch, now, scripts, k, p, id);
    AtResetKeepsInv(s, now, scripts);
    var s3 := AtReset(s, now, scripts);
    SettleAllEndsDoom(s3, now, freed, v, INVALID, id);
    SettleAllLogsNothing(s3, now, freed, v, INVALID);
  }

  /** In particular for a timer that was waiting when the batch was collected. */
  lemma WaitingIsInserted(s: State, now: Timestamp, scripts: seq<seq<Command>>, k: nat, id: TimerId) returns (p: nat)
    requires Inv(s) && TopLevel(s) && id in s.active
    requires k < |Due(s, now)| && k < |scripts| && Cancel(id) in scripts[k]
    ensures CancelsAt(Extract(s, now), Due(s, now), now, scripts, k, p, id)
  {
    p :| 0 <= p < |scripts[k]| && scripts[k][p] == Cancel(id);
    ExtractKeepsInv(s, now);
    var s1 := Extract(s, now);
    var s2 := RunCallbacks(s1, s1.batch[..k], now, scripts);
    CallbacksKeepInserted(s1, s1.batch[..k], now, scripts, id);
    CallbacksKeepBatch(s1, s1.batch[..k], now, scripts);
    CallbackKeepsInserted(s2, s1.batch[k], now, scripts[k][..p], id);
  }

  /** No timer has two starts in a batch, and this one has a start exactly if it was waiting and is due. */
  lemma OnceInBatch(s: State, now: Timestamp, id: TimerId)
    requires Inv(s)
    requires forall e :: e in Due(s, now) ==> e.addr in s.heap
    requires forall e :: e in Due(s, now) && s.heap[e.addr].sequence == id.sequence ==> e.addr == id.addr
    ensures var starts := Starts(s.heap, Due(s, now), now);
            && AtMostOnce(starts, 0, id.sequence)
            && ((exists i :: 0 <= i < |starts| && starts[i].sequence == id.sequence)
                <==> id in s.active && s.heap[id.addr].expiration <= now)
  {
    DueIsExact(s, now);
    var due := Due(s, now);
    var starts := Starts(s.heap, due, now);
    forall i | 0 <= i < |due| && starts[i].sequence == id.sequence
      ensures id in s.active && due[i] == Entry(s.heap[id.addr].expiration, id.addr) {
      assert due[i] in due;
    }
    if id in s.active && s.heap[id.addr].expiration <= now {
      assert Entry(s.heap[id.addr].expiration, id.addr) in due;
      var i :| 0 <= i < |due| && due[i] == Entry(s.heap[id.addr].expiration, id.addr);
      assert starts[i].sequence == id.sequence;
    }
  }

  /** An inserted timer is the only one with its sequence number, in the batch too. */
  lemma InsertedIsUnique(s: State, now: Timestamp, scripts: seq<seq<Command>>, k: nat, p: nat, id: TimerId)
    requires Inv(s) && TopLevel(s) && CancelsAt(Extract(s, now), Due(s, now), now, scripts, k, p, id)
    ensures forall e :: e in Due(s, now) ==> e.addr in s.heap
    ensures forall e :: e in Due(s, now) && s.heap[e.addr].sequence == id.sequence ==> e.addr == id.addr
  {
    ExtractKeepsInv(s, now);
    MomentKeepsBatch(Extract(s, now), Due(s, now), now, scripts, k, p);
  }

  /** A timer that any callback of the batch cancels - its own, an earlier or a later one - is gone when the
      firing ends, even if it repeats, and even if it was inserted by a callback of the same batch. In that
      firing it starts at most once, and exactly if it was waiting when the batch was collected and is due. */
  lemma CancelInsideBatch(s: State, now: Timestamp, scripts: seq<seq<Command>>, freed: seq<seq<Command>>, v: Variant,
                          k: nat, p: nat, id: TimerId)
    requires Inv(s) && TopLevel(s) && CancelsAt(Extract(s, now), Due(s, now), now, scripts, k, p, id)
    ensures CancelsWithin(s, Fire(s, now, scripts, freed, v), id)
    ensures StartedFrom(s, Fire(s, now, scripts, freed, v), id) <==> id in s.active && s.heap[id.addr].expiration <= now
  {
    CancelAtIsFatal(s, now, scripts, freed, v, k, p, id);
    InsertedIsUnique(s, now, scripts, k, p, id);
    FireStartsOnce(s, now, scripts, freed, v, id);
  }

  /** From s to s' the timer has gone, and was started at most once. */
  ghost predicate CancelsWithin(s: State, s': State, id: TimerId) {
    Gone(s', id.sequence) && id.sequence <= s'.created && s.log <= s'.log && AtMostOnce(s'.log, |s.log|, id.sequence)
  }

  /** From s to s' the timer was started. */
  ghost predicate StartedFrom(s: State, s': State, id: TimerId) {
    exists i :: |s.log| <= i < |s'.log| && s'.log[i].sequence == id.sequence
  }

  lemma FireStartsOnce(s: State, now: Timestamp, scripts: seq<seq<Command>>, freed: seq<seq<Command>>, v: Variant,
                       id: TimerId)
    requires Inv(s) && TopLevel(s)
    requires forall e :: e in Due(s, now) && e.addr in s.heap && s.heap[e.addr].sequence == id.sequence ==> e.addr == id.addr
    ensures var s' := Fire(s, now, scripts, freed, v);
            && s.log <= s'.log && AtMostOnce(s'.log, |s.log|, id.sequence)
            && (StartedFrom(s, s', id) <==> id in s.active && s.heap[id.addr].expiration <= now)
  {
    FireRunsExactlyTheDue(s, now, scripts, freed, v);
    OnceInBatch(s, now, id);
    AppendedStarts(s.log, Starts(s.heap, Due(s, now), now), id.sequence);
  }

  lemma AppendedStarts(log: seq<Start>, starts: seq<Start>, q: int)
    ensures AtMostOnce(starts, 0, q) ==> AtMostOnce(log + starts, |log|, q)
    ensures (exists i :: |log| <= i < |log + starts| && (log + starts)[i].sequence == q)
            <==> (exists i :: 0 <= i < |starts| && starts[i].sequence == q)
  {
    assert forall i :: 0 <= i < |starts| ==> (log + starts)[|log| + i] == starts[i];
  }

  // ----- cancelling while reset destroys callbacks -----

  /** Command p of the script cancels the timer while it waits. */
  ghost predicate ScriptCancelsAt(s: State, script: seq<Command>, p: nat, id: TimerId)
    requires Sorted(s.timers)
  {
    p < |script| && script[p] == Cancel(id) && id in RunScript(s, script[..p]).active
  }

  ghost predicate ScriptCancels(s: State, script: seq<Command>, id: TimerId)
    requires Sorted(s.timers)
  {
    exists p: nat :: ScriptCancelsAt(s, script, p, id)
  }

  /** Some round of reset destroys a callback whose destructors cancel the timer while it waits. */
  ghost predicate ResetCancels(s: State, now: Timestamp, freed: seq<seq<Command>>, v: Variant, nextExpire: Timestamp,
                               id: TimerId)
    requires Sorted(s.timers)
    decreases |s.batch|
  {
    s.batch != []
    && (RoundCancels(s, now, FirstScript(freed), id)
        || (RoundsShorten(s, now, FirstScript(freed), v, nextExpire);
            ResetCancels(AfterRound(s, now, FirstScript(freed), v, nextExpire), now, OtherScripts(freed), v,
                         NextExpire(SettleRound(s, now, FirstScript(freed)), nextExpire), id)))
  }

  ghost predicate RoundCancels(s: State, now: Timestamp, script: seq<Command>, id: TimerId)
    requires Sorted(s.timers) && s.batch != []
  {
    FreesFirst(s) && ScriptCancels(Settle(s, now), script, id)
  }

  lemma ScriptCancelIsFatal(s: State, script: seq<Command>, id: TimerId)
    requires Inv(s) && ScriptCancels(s, script, id)
    ensures var s' := RunScript(s, script); Gone(s', id.sequence) && id.sequence <= s'.created
  {
    var p: nat :| ScriptCancelsAt(s, script, p, id);
    var m := RunScript(s, script[..p]);
    ScriptKeepsInv(s, script[..p]);
    ScriptSplits(s, script, p);
    CancelKeepsInv(m, id);
    ScriptEvolves(CancelTimer(m, id), script[p + 1..]);
    EvolvingKeepsGone(CancelTimer(m, id), RunScript(s, script), id.sequence);
  }

  lemma RoundCancelIsFatal(s: State, now: Timestamp, script: seq<Command>, v: Variant, nextExpire: Timestamp,
                           id: TimerId)
    requires Inv(s) && s.batch != [] && RoundCancels(s, now, script, id)
    ensures var s' := AfterRound(s, now, script, v, nextExpire); Gone(s', id.sequence) && id.sequence <= s'.created
  {
    SettleKeepsInv(s, now);
    ScriptCancelIsFatal(Settle(s, now), script, id);
    RoundKeepsInv(s, now, script);
    RearmRoundKeepsInv(SettleRound(s, now, script), nextExpire);
  }

  lemma {:induction false} ResetCancelIsFatal(s: State, now: Timestamp, freed: seq<seq<Command>>, v: Variant,
                                              nextExpire: Timestamp, id: TimerId)
    requires Inv(s) && ResetCancels(s, now, freed, v, nextExpire, id)
    ensures var s' := SettleAll(s, now, freed, v, nextExpire); Gone(s', id.sequence) && id.sequence <= s'.created
    decreases |s.batch|
  {
    var s2 := AfterRound(s, now, FirstScript(freed), v, nextExpire);
    var next := NextExpire(SettleRound(s, now, FirstScript(freed)), nextExpire);
    AfterRoundKeepsInv(s, now, FirstScript(freed), v, nextExpire);
    if RoundCancels(s, now, FirstScript(freed), id) {
      RoundCancelIsFatal(s, now, FirstScript(freed), v, nextExpire, id);
      SettleAllKeepsGone(s2, now, OtherScripts(freed), v, next, id.sequence);
      SettleAllLogsNothing(s2, now, OtherScripts(freed), v, next);
    } else {
      ResetCancelIsFatal(s2, now, OtherScripts(freed), v, next, id);
    }
  }

  /** Timers that are not newer than s are where they were in s. */
  ghost predicate Older(s: State, s': State) {
    s.created <= s'.created
    && forall a :: a in s'.heap && s'.heap[a].sequence <= s.created ==> a in s.heap && s.heap[a].sequence == s'.heap[a].sequence
  }

  lemma EvolvingStaysOlder(s: State, s1: State, s2: State)
    requires Older(s, s1) && Evolves(s1, s2)
    ensures Older(s, s2)
  {
  }

  lemma SettlingStaysOlder(s: State, s1: State, now: Timestamp)
    requires Older(s, s1) && Inv(s1) && s1.batch != []
    ensures Older(s, Settle(s1, now))
  {
  }

  lemma {:induction false} CallbacksStayOlder(s: State, s1: State, rest: seq<Entry>, now: Timestamp,
                                              scripts: seq<seq<Command>>)
    requires Older(s, s1) && Inv(s1) && forall e :: e in rest ==> e in s1.batch
    ensures Older(s, RunCallbacks(s1, rest, now, scripts))
    decreases |rest|
  {
    if rest != [] {
      var s2 := StartRun(s1, rest[0], now);
      CallbackKeepsBatch(s1, rest[0], now, FirstScript(scripts));
      CallbackEvolves(s1, rest[0], now, FirstScript(scripts));
      EvolvingStaysOlder(s, s2, RunScript(s2, FirstScript(scripts)));
      CallbacksStayOlder(s, RunScript(s2, FirstScript(scripts)), rest[1..], now, OtherScripts(scripts));
    }
  }

  /** A timer that a destructor cancels while it waits, and that is not newer than s, was there in s. */
  lemma RoundCancelsOld(s: State, s1: State, now: Timestamp, script: seq<Command>, id: TimerId)
    requires Older(s, s1) && Inv(s1) && s1.batch != [] && RoundCancels(s1, now, script, id) && id.sequence <= s.created
    ensures id.addr in s.heap && s.heap[id.addr].sequence == id.sequence
  {
    var s2 := Settle(s1, now);
    SettlingStaysOlder(s, s1, now);
    SettleKeepsInv(s1, now);
    var p: nat :| ScriptCancelsAt(s2, script, p, id);
    ScriptKeepsInv(s2, script[..p]);
    ScriptEvolves(s2, script[..p]);
    EvolvingStaysOlder(s, s2, RunScript(s2, script[..p]));
  }

  lemma {:induction false} ResetCancelsOld(s: State, s1: State, now: Timestamp, freed: seq<seq<Command>>, v: Variant,
                                           nextExpire: Timestamp, id: TimerId)
    requires Older(s, s1) && Inv(s1) && ResetCancels(s1, now, freed, v, nextExpire, id) && id.sequence <= s.created
    ensures id.addr in s.heap && s.heap[id.addr].sequence == id.sequence
    decreases |s1.batch|
  {
    if RoundCancels(s1, now, FirstScript(freed), id) {
      RoundCancelsOld(s, s1, now, FirstScript(freed), id);
    } else {
      var s2 := AfterRound(s1, now, FirstScript(freed), v, nextExpire);
      AfterRoundKeepsInv(s1, now, FirstScript(freed), v, nextExpire);
      SettlingStaysOlder(s, s1, now);
      RoundEvolves(s1, now, FirstScript(freed), v, nextExpire);
      EvolvingStaysOlder(s, Settle(s1, now), s2);
      ResetCancelsOld(s, s2, now, OtherScripts(freed), v, NextExpire(SettleRound(s1, now, FirstScript(freed)), nextExpire), id);
    }
  }

  /** A timer that the destruction of a freed callback cancels while it waits - one that was not due, one that the
      same reset has restarted, or one that the batch has inserted - is gone when the firing ends, and starts in
      it under the same condition. */
  lemma CancelInsideReset(s: State, now: Timestamp, scripts: seq<seq<Command>>, freed: seq<seq<Command>>, v: Variant,
                          id: TimerId)
    requires Inv(s) && TopLevel(s) && ResetCancels(AtReset(s, now, scripts), now, freed, v, INVALID, id)
    ensures CancelsWithin(s, Fire(s, now, scripts, freed, v), id)
    ensures StartedFrom(s, Fire(s, now, scripts, freed, v), id) <==> id in s.active && s.heap[id.addr].expiration <= now
  {
    var s3 := AtReset(s, now, scripts);
    AtResetKeepsInv(s, now, scripts);
    ResetCancelIsFatal(s3, now, freed, v, INVALID, id);
    if id.sequence <= s.created {
      var s1 := Extract(s, now);
      ExtractKeepsInv(s, now);
      CallbacksStayOlder(s, s1, s1.batch, now, scripts);
      ResetCancelsOld(s, s3, now, freed, v, INVALID, id);
    }
    FireStartsOnce(s, now, scripts, freed, v, id);
  }

  // ----- cancelling is final -----

  /** The step runs cancelInLoop for a timer that has been inserted by then: called in the loop thread, queued
      by another thread, called by any callback of a firing, or, for a timer that waits, called by the destruction
      of a callback in reset. */
  ghost predicate Cancels(s: State, e: Event, v: Variant, id: TimerId)
    requires Sorted(s.timers)
  {
    match e
    case Do(c) => c == Cancel(id) && Inserted(s, id)
    case Deliver => s.handoff != [] && s.handoff[0] == CancelInLoop(id) && Inserted(s, id)
    case Fired(expired, now, scripts, freed) => FiringCancels(ReadTimerfd(s, expired), now, scripts, freed, v, id)
  }

  ghost predicate FiringCancels(s: State, now: Timestamp, scripts: seq<seq<Command>>, freed: seq<seq<Command>>,
                                v: Variant, id: TimerId)
    requires Sorted(s.timers)
  {
    CallbacksCancel(s, now, scripts, id) || ResetCancels(AtReset(s, now, scripts), now, freed, v, INVALID, id)
  }

  ghost predicate CallbacksCancel(s: State, now: Timestamp, scripts: seq<seq<Command>>, id: TimerId)
    requires Sorted(s.timers)
  {
    exists k: nat, p: nat :: CancelsAt(Extract(s, now), Due(s, now), now, scripts, k, p, id)
  }

  /** Outside a batch it frees the timer at once. */
  lemma CancelFrees(s: State, id: TimerId)
    requires Inv(s) && s.batch == [] && Inserted(s, id)
    ensures var s' := CancelTimer(s, id); s'.log == s.log && CancelsWithin(s, s', id)
  {
  }

  /** The step that cancels leaves the timer gone; if it is a firing, the timer may start in it, once. */
  lemma CancellingStep(s: State, e: Event, v: Variant, id: TimerId)
    requires Inv(s) && TopLevel(s) && Cancels(s, e, v, id)
    ensures CancelsWithin(s, Step(s, e, v), id)
    ensures StartedFrom(s, Step(s, e, v), id) <==> e.Fired? && id in s.active && s.heap[id.addr].expiration <= e.now
  {
    match e
    case Do(c) => CancelFrees(s, id);
    case Deliver =>
      TakeFunctor(s);
      CancelFrees(s.(handoff := s.handoff[1..]), id);
    case Fired(expired, now, scripts, freed) =>
      ArmingIsIrrelevant(s, ReadTimerfd(s, expired));
      CancellingFiring(ReadTimerfd(s, expired), now, scripts, freed, v, id);
  }

  lemma CancellingFiring(s: State, now: Timestamp, scripts: seq<seq<Command>>, freed: seq<seq<Command>>, v: Variant,
                         id: TimerId)
    requires Inv(s) && TopLevel(s) && FiringCancels(s, now, scripts, freed, v, id)
    ensures CancelsWithin(s, Fire(s, now, scripts, freed, v), id)
    ensures StartedFrom(s, Fire(s, now, scripts, freed, v), id) <==> id in s.active && s.heap[id.addr].expiration <= now
  {
    if CallbacksCancel(s, now, scripts, id) {
      var k: nat, p: nat :| CancelsAt(Extract(s, now), Due(s, now), now, scripts, k, p, id);
      CancelInsideBatch(s, now, scripts, freed, v, k, p, id);
    } else {
      CancelInsideReset(s, now, scripts, freed, v, id);
    }
  }

  /** Cancelling is final, however cancelInLoop comes to run. Once it has run for an inserted timer, the
      callback never starts again in any continuation of the run, except in the batch that had already
      extracted the timer, and there at most once. */
  lemma CancelIsFinal(s: State, e: Event, es: seq<Event>, v: Variant, id: TimerId)
    requires Inv(s) && TopLevel(s) && Cancels(s, e, v, id)
    ensures var s1 := Step(s, e, v); var s' := Run(s, [e] + es, v);
            && s.log <= s1.log <= s'.log
            && (forall i :: |s1.log| <= i < |s'.log| ==> s'.log[i].sequence != id.sequence)
            && AtMostOnce(s'.log, |s.log|, id.sequence)
            && (StartedFrom(s, s', id) <==> e.Fired? && id in s.active && s.heap[id.addr].expiration <= e.now)
  {
    assert ([e] + es)[1..] == es;
    var s1 := Step(s, e, v);
    CancellingStep(s, e, v, id);
    StepKeepsInv(s, e, v);
    GoneForEver(s1, es, v, id.sequence);
    NothingMore(s.log, s1.log, Run(s1, es, v).log, id.sequence);
  }

  /** What a log says of a sequence number is settled once it is not started any more. */
  lemma NothingMore(log: seq<Start>, log1: seq<Start>, log2: seq<Start>, q: int)
    requires log <= log1 <= log2
    requires forall i :: |log1| <= i < |log2| ==> log2[i].sequence != q
    ensures AtMostOnce(log1, |log|, q) ==> AtMostOnce(log2, |log|, q)
    ensures (exists i :: |log| <= i < |log2| && log2[i].sequence == q)
            <==> (exists i :: |log| <= i < |log1| && log1[i].sequence == q)
  {
    assert forall i :: 0 <= i < |log1| ==> log2[i] == log1[i];
  }

  /** Nor does it start after the cancellation within the batch, unless the batch had extracted it: `s` is the
      queue in the middle of a batch, and the timer waits when a callback cancels it. */
  lemma CancelledWaitingNeverStarts(s: State, id: TimerId, script: seq<Command>, rest: seq<Entry>, now: Timestamp,
                                    scripts: seq<seq<Command>>, freed: seq<seq<Command>>, v: Variant, es: seq<Event>)
    requires Inv(s) && id in s.active && forall e :: e in rest ==> e in s.batch
    ensures var s1 := RunScript(CancelTimer(s, id), script);
            var s2 := RunCallbacks(s1, rest, now, scripts);
            var s' := Run(Reset(s2.(calling := false), now, freed, v), es, v);
            s.log <= s'.log && forall i :: |s.log| <= i < |s'.log| ==> s'.log[i].sequence != id.sequence
  {
    var s0 := CancelTimer(s, id);
    CancelKeepsInv(s, id);
    ScriptKeepsInv(s0, script);
    ScriptEvolves(s0, script);
    var s1 := RunScript(s0, script);
    EvolvingKeepsGone(s0, s1, id.sequence);
    LaterCallbacksStayGone(s1, rest, now, scripts, id.sequence);
    var s2 := RunCallbacks(s1, rest, now, scripts);
    ResetStaysGone(s2, now, freed, v, id.sequence);
    var s3 := Reset(s2.(calling := false), now, freed, v);
    GoneForEver(s3, es, v, id.sequence);
    StaysGoneTransitively(s1, s2, s3, id.sequence);
    StaysGoneTransitively(s1, s3, Run(s3, es, v), id.sequence);
  }

  lemma LaterCallbacksStayGone(s: State, rest: seq<Entry>, now: Timestamp, scripts: seq<seq<Command>>, q: int)
    requires Inv(s) && Gone(s, q) && q <= s.created && forall e :: e in rest ==> e in s.batch
    ensures var s' := RunCallbacks(s, rest, now, scripts); Inv(s') && StaysGone(s, s', q)
  {
    CallbacksKeepInv(s, rest, now, scripts);
    CallbacksKeepGone(s, rest, now, scripts, q);
    CallbacksLogTheirBatch(s, rest, now, scripts);
    CreatedGrows(s, rest, now, scripts);
    var starts := Starts(s.heap, rest, now);
    assert forall i :: 0 <= i < |starts| ==> starts[i].sequence == s.heap[rest[i].addr].sequence && rest[i] in rest;
  }

  lemma ResetStaysGone(s: State, now: Timestamp, freed: seq<seq<Command>>, v: Variant, q: int)
    requires Inv(s) && Gone(s, q) && q <= s.created
    ensures var s' := Reset(s.(calling := false), now, freed, v); Inv(s') && TopLevel(s') && StaysGone(s, s', q)
  {
    var s1 := s.(calling := false);
    ArmingIsIrrelevant(s, s1);
    SettleAllKeepsGone(s1, now, freed, v, INVALID, q);
    SettleAllLogsNothing(s1, now, freed, v, INVALID);
    ResetKeepsInv(s1, now, freed, v);
  }
}
