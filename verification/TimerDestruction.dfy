/** What happens while a timer is being deleted. Its callback is destroyed with it, and the destructors of what
    the callback owns may call the queue again, from inside cancelInLoop or reset. The rest of the model lets such
    calls follow the deletion; here they come in its middle, and the two are proved to be the same exactly if no
    timer is cancelled while its own cancellation is under way. */
module TimerDestruction {
  import opened Time
  import opened OrderedEntries
  import opened TimerState
  import opened TimerInvariants

  /** Commands, each with what the destruction of the callback does if the command cancels a timer: these are
      commands again. */
  datatype Deeds = Done | Then(c: Command, destroys: Deeds, rest: Deeds)

  /** cancelInLoop deletes the timer and then erases its id, as the source does, or the other way round. */
  datatype Order = DeleteFirst | EraseFirst

  function EntryOf(s: State, id: TimerId): Entry
    requires id.addr in s.heap
  {
    Entry(s.heap[id.addr].expiration, id.addr)
  }

  /** cancelInLoop up to the deletion, for an id that has been found. */
  function BeginCancel(s: State, id: TimerId, order: Order): (r: State)
    requires Sorted(s.timers) && id.addr in s.heap
    ensures Sorted(r.timers)
  {
    s.(timers := Erase(s.timers, EntryOf(s, id)),
       active := if order.EraseFirst? then s.active - {id} else s.active)
  }

  /** The deletion has ended: the memory is free, and the id erased. */
  function EndCancel(s: State, id: TimerId): State {
    s.(heap := s.heap - {id.addr}, active := s.active - {id})
  }

  function Perform(s: State, ds: Deeds, order: Order): (r: State)
    requires Sorted(s.timers)
    ensures Sorted(r.timers)
    decreases ds
  {
    match ds
    case Done => s
    case Then(c, destroys, rest) =>
      if c.Cancel? && c.id in s.active then
        if c.id.addr !in s.heap || EntryOf(s, c.id) !in s.timers then Perform(s.(ok := false), rest, order)
        else Perform(EndCancel(Perform(BeginCancel(s, c.id, order), destroys, order), c.id), rest, order)
      else Perform(Exec(s, c), rest, order)
  }

  /** A timer is cancelled while its own cancellation is under way; `pending` are those under way. */
  predicate CancelsPending(s: State, ds: Deeds, order: Order, pending: set<TimerId>)
    requires Sorted(s.timers)
    decreases ds
  {
    match ds
    case Done => false
    case Then(c, destroys, rest) =>
      if c.Cancel? && c.id in s.active then
        c.id in pending || c.id.addr !in s.heap
        || CancelsPending(BeginCancel(s, c.id, order), destroys, order, pending + {c.id})
        || CancelsPending(EndCancel(Perform(BeginCancel(s, c.id, order), destroys, order), c.id), rest, order, pending)
      else CancelsPending(Exec(s, c), rest, order, pending)
  }

  // ----- the queue without the timers being deleted -----

  function Addresses(ids: set<TimerId>): set<Address> {
    set id | id in ids :: id.addr
  }

  function Hide(s: State, pending: set<TimerId>): State {
    s.(heap := s.heap - Addresses(pending), active := s.active - pending)
  }

  /** Without them the queue is in order; they are still allocated. */
  ghost predicate Deleting(s: State, pending: set<TimerId>) {
    Inv(Hide(s, pending)) && forall id :: id in pending ==> id.addr in s.heap
  }

  /** The same command, with the address that the allocator returns made its wish. */
  function Resolve(s: State, c: Command): Command {
    match c
    case Add(when, interval, pick) => Add(when, interval, NewAddress(s, pick))
    case PostAdd(when, interval, pick) => PostAdd(when, interval, NewAddress(s, pick))
    case _ => c
  }

  lemma NewIsHidden(s: State, pending: set<TimerId>, when: Timestamp, interval: real, pick: Address)
    requires forall id :: id in pending ==> id.addr in s.heap
    ensures var a := NewAddress(s, pick);
            && NewAddress(Hide(s, pending), a) == a && a !in Addresses(pending)
            && New(Hide(s, pending), when, interval, a) == Hide(New(s, when, interval, pick), pending)
  {
    var a := NewAddress(s, pick);
    assert (s.heap - Addresses(pending))[a := Timer(when, interval, s.created + 1)]
        == s.heap[a := Timer(when, interval, s.created + 1)] - Addresses(pending);
  }

  lemma InsertionIsHidden(s: State, pending: set<TimerId>, a: Address)
    requires Sorted(s.timers) && a in s.heap && a !in Addresses(pending)
    ensures AddInLoop(Hide(s, pending), a) == Hide(AddInLoop(s, a), pending)
  {
    var id := TimerId(a, s.heap[a].sequence);
    assert id !in pending;
    assert s.active - pending + {id} == (s.active + {id}) - pending;
  }

  /** A command that does not find a timer to cancel. */
  lemma ExecIsHidden(s: State, pending: set<TimerId>, c: Command)
    requires Deleting(s, pending) && !(c.Cancel? && c.id in s.active)
    ensures Exec(Hide(s, pending), Resolve(s, c)) == Hide(Exec(s, c), pending)
    ensures Deleting(Exec(s, c), pending)
  {
    match c {
      case Add(when, interval, pick) =>
        NewIsHidden(s, pending, when, interval, pick);
        InsertionIsHidden(New(s, when, interval, pick), pending, NewAddress(s, pick));
      case PostAdd(when, interval, pick) => NewIsHidden(s, pending, when, interval, pick);
      case Cancel(_) =>
      case PostCancel(_) =>
      case CreateElsewhere(_) =>
    }
    ExecKeepsInv(Hide(s, pending), Resolve(s, c));
  }

  /** A timer that a command finds is none of those. */
  lemma FoundIsNotPending(s: State, pending: set<TimerId>, id: TimerId)
    requires Deleting(s, pending) && id in s.active && id !in pending
    ensures id.addr in s.heap && EntryOf(s, id) in s.timers && id.addr !in Addresses(pending)
    ensures id in Hide(s, pending).active && Hide(s, pending).heap[id.addr] == s.heap[id.addr]
  {
    assert id in Hide(s, pending).active;
  }

  /** It begins to be deleted. */
  lemma BeginIsHidden(s: State, pending: set<TimerId>, id: TimerId, order: Order)
    requires Deleting(s, pending) && id in s.active && id !in pending
    ensures id.addr in s.heap && EntryOf(s, id) in s.timers && id.addr !in Addresses(pending)
    ensures var s1 := BeginCancel(s, id, order);
            Hide(s1, pending + {id}) == CancelTimer(Hide(s, pending), id) && Deleting(s1, pending + {id})
  {
    FoundIsNotPending(s, pending, id);
    var s1 := BeginCancel(s, id, order);
    assert Addresses(pending + {id}) == Addresses(pending) + {id.addr};
    assert s.heap - Addresses(pending + {id}) == (s.heap - Addresses(pending)) - {id.addr};
    assert s1.active - (pending + {id}) == (s.active - pending) - {id};
    CancelKeepsInv(Hide(s, pending), id);
  }

  lemma EndIsHidden(s: State, pending: set<TimerId>, id: TimerId)
    requires Deleting(s, pending + {id}) && id.addr !in Addresses(pending)
    ensures Hide(EndCancel(s, id), pending) == Hide(s, pending + {id})
    ensures Deleting(EndCancel(s, id), pending)
  {
    assert Addresses(pending + {id}) == Addresses(pending) + {id.addr};
    assert s.heap - Addresses(pending + {id}) == (s.heap - {id.addr}) - Addresses(pending);
    assert s.active - (pending + {id}) == (s.active - {id}) - pending;
    forall x | x in pending ensures x.addr in s.heap - {id.addr} {
      assert x in pending + {id} && x.addr in Addresses(pending);
    }
  }

  /** A pending timer is in none of the places where cancelInLoop would have to find it. */
  lemma PendingIsErased(s: State, pending: set<TimerId>, id: TimerId)
    requires Deleting(s, pending) && id in pending && id.addr in s.heap
    ensures EntryOf(s, id) !in s.timers
  {
    assert id.addr in Addresses(pending);
  }

  lemma {:induction false} ScriptsJoin(s: State, a: seq<Command>, b: seq<Command>)
    requires Sorted(s.timers)
    ensures RunScript(s, a + b) == RunScript(RunScript(s, a), b)
    decreases |a|
  {
    if a == [] {
      assert a + b == b;
    } else {
      assert (a + b)[1..] == a[1..] + b;
      ScriptsJoin(Exec(s, a[0]), a[1..], b);
    }
  }

  /** As long as no pending timer is cancelled, what is done amounts to a script of commands that are complete
      each before the next. */
  lemma {:induction false} DeedsAreAScript(s: State, ds: Deeds, order: Order,
                                           pending: set<TimerId>) returns (script: seq<Command>)
    requires Deleting(s, pending) && !CancelsPending(s, ds, order, pending)
    ensures var s' := Perform(s, ds, order);
            Deleting(s', pending) && Hide(s', pending) == RunScript(Hide(s, pending), script)
    decreases ds, 0
  {
    match ds
    case Done => script := [];
    case Then(c, destroys, rest) =>
      if c.Cancel? && c.id in s.active {
        var during, s3 := CancellationIsAScript(s, c.id, destroys, order, pending);
        var after := DeedsAreAScript(s3, rest, order, pending);
        ScriptsJoin(Hide(s, pending), [c] + during, after);
        script := [c] + during + after;
      } else {
        ExecIsHidden(s, pending, c);
        var after := DeedsAreAScript(Exec(s, c), rest, order, pending);
        OneThenRest(Hide(s, pending), Resolve(s, c), after);
        script := [Resolve(s, c)] + after;
      }
  }

  lemma OneThenRest(s: State, c: Command, rest: seq<Command>)
    requires Sorted(s.timers)
    ensures RunScript(s, [c] + rest) == RunScript(Exec(s, c), rest)
  {
    assert ([c] + rest)[1..] == rest;
  }

  lemma {:induction false} CancellationIsAScript(s: State, id: TimerId, destroys: Deeds, order: Order,
                                                 pending: set<TimerId>)
    returns (during: seq<Command>, s3: State)
    requires Deleting(s, pending) && id in s.active && id !in pending && id.addr in s.heap
    requires !CancelsPending(BeginCancel(s, id, order), destroys, order, pending + {id})
    ensures EntryOf(s, id) in s.timers
    ensures s3 == EndCancel(Perform(BeginCancel(s, id, order), destroys, order), id)
    ensures Deleting(s3, pending) && Hide(s3, pending) == RunScript(Hide(s, pending), [Cancel(id)] + during)
    decreases destroys, 1
  {
    BeginIsHidden(s, pending, id, order);
    var s1 := BeginCancel(s, id, order);
    during := DeedsAreAScript(s1, destroys, order, pending + {id});
    var s2 := Perform(s1, destroys, order);
    EndIsHidden(s2, pending, id);
    s3 := EndCancel(s2, id);
    OneThenRest(Hide(s, pending), Cancel(id), during);
  }

  // ----- as written -----

  lemma ExecStaysBad(s: State, c: Command)
    requires Sorted(s.timers) && !s.ok
    ensures !Exec(s, c).ok
  {
  }

  lemma {:induction false} StaysBad(s: State, ds: Deeds, order: Order)
    requires Sorted(s.timers) && !s.ok
    ensures !Perform(s, ds, order).ok
    decreases ds
  {
    match ds
    case Done =>
    case Then(c, destroys, rest) =>
      if c.Cancel? && c.id in s.active {
        if c.id.addr !in s.heap || EntryOf(s, c.id) !in s.timers {
          StaysBad(s.(ok := false), rest, order);
        } else {
          StaysBad(BeginCancel(s, c.id, order), destroys, order);
          StaysBad(EndCancel(Perform(BeginCancel(s, c.id, order), destroys, order), c.id), rest, order);
        }
      } else {
        ExecStaysBad(s, c);
        StaysBad(Exec(s, c), rest, order);
      }
  }

  /** If one is, the assertion that its entry is erased fails. */
  lemma {:induction false} CancellingPendingFails(s: State, ds: Deeds, order: Order, pending: set<TimerId>)
    requires Deleting(s, pending) && CancelsPending(s, ds, order, pending)
    ensures !Perform(s, ds, order).ok
    decreases ds
  {
    match ds
    case Then(c, destroys, rest) =>
      if !(c.Cancel? && c.id in s.active) {
        ExecIsHidden(s, pending, c);
        CancellingPendingFails(Exec(s, c), rest, order, pending);
      } else if c.id in pending {
        PendingIsErased(s, pending, c.id);
        StaysBad(s.(ok := false), rest, order);
      } else {
        BeginIsHidden(s, pending, c.id, order);
        var s1 := BeginCancel(s, c.id, order);
        var s3 := EndCancel(Perform(s1, destroys, order), c.id);
        if CancelsPending(s1, destroys, order, pending + {c.id}) {
          CancellingPendingFails(s1, destroys, order, pending + {c.id});
          StaysBad(s3, rest, order);
        } else {
          var during, _ := CancellationIsAScript(s, c.id, destroys, order, pending);
          CancellingPendingFails(s3, rest, order, pending);
        }
      }
  }

  lemma NothingPending(s: State)
    ensures Hide(s, {}) == s
  {
    assert s.heap - Addresses({}) == s.heap;
    assert s.active - {} == s.active;
  }

  /** With destructors that call the queue, everything stays in order if and only if no timer is cancelled while its
      own cancellation is under way. Then what happens is what a script does, so that every theorem about scripts,
      callbacks and runs covers it. */
  lemma DestructionIsSafeIff(s: State, ds: Deeds)
    requires Inv(s)
    ensures var s' := Perform(s, ds, DeleteFirst);
            && (s'.ok <==> !CancelsPending(s, ds, DeleteFirst, {}))
            && (s'.ok ==> Inv(s') && exists script :: s' == RunScript(s, script))
  {
    NothingPending(s);
    var s' := Perform(s, ds, DeleteFirst);
    NothingPending(s');
    if CancelsPending(s, ds, DeleteFirst, {}) {
      CancellingPendingFails(s, ds, DeleteFirst, {});
    } else {
      var script := DeedsAreAScript(s, ds, DeleteFirst, {});
      assert s' == RunScript(s, script);
    }
  }

  function Calls(script: seq<Command>): seq<Event> {
    seq(|script|, i requires 0 <= i < |script| => Do(script[i]))
  }

  /** Outside a batch a script is a run. */
  lemma {:induction false} ScriptIsARun(s: State, script: seq<Command>, v: Variant)
    requires Sorted(s.timers)
    ensures RunScript(s, script) == Run(s, Calls(script), v)
    decreases |script|
  {
    if script != [] {
      assert Calls(script)[1..] == Calls(script[1..]);
      ScriptIsARun(Exec(s, script[0]), script[1..], v);
    }
  }

  /** So is what destructors do in the course of cancellations there. */
  lemma DestructionIsARun(s: State, ds: Deeds, v: Variant)
    requires Inv(s) && !CancelsPending(s, ds, DeleteFirst, {})
    ensures exists es :: Perform(s, ds, DeleteFirst) == Run(s, es, v)
  {
    DestructionIsSafeIff(s, ds);
    var script :| Perform(s, ds, DeleteFirst) == RunScript(s, script);
    ScriptIsARun(s, script, v);
  }

  /** The smallest such input: a callback that owns an object whose destructor cancels the callback's own timer. */
  lemma CancellingItselfFails(s: State, id: TimerId)
    requires Inv(s) && id in s.active
    ensures !Perform(s, Then(Cancel(id), Then(Cancel(id), Done, Done), Done), DeleteFirst).ok
  {
    var ds := Then(Cancel(id), Then(Cancel(id), Done, Done), Done);
    assert CancelsPending(BeginCancel(s, id, DeleteFirst), Then(Cancel(id), Done, Done), DeleteFirst, {} + {id});
    assert CancelsPending(s, ds, DeleteFirst, {});
    DestructionIsSafeIff(s, ds);
  }

  /** A condition on the destructors alone: none cancels a timer inside whose cancellation it runs. */
  predicate NoneCancelsItself(ds: Deeds, pending: set<TimerId>) {
    match ds
    case Done => true
    case Then(c, destroys, rest) =>
      (c.Cancel? ==> c.id !in pending && NoneCancelsItself(destroys, pending + {c.id}))
      && NoneCancelsItself(rest, pending)
  }

  lemma {:induction false} NoneCancelsItselfSuffices(s: State, ds: Deeds, order: Order, pending: set<TimerId>)
    requires Deleting(s, pending) && NoneCancelsItself(ds, pending)
    ensures !CancelsPending(s, ds, order, pending)
    decreases ds
  {
    match ds
    case Done =>
    case Then(c, destroys, rest) =>
      if c.Cancel? && c.id in s.active {
        BeginIsHidden(s, pending, c.id, order);
        NoneCancelsItselfSuffices(BeginCancel(s, c.id, order), destroys, order, pending + {c.id});
        var during, s3 := CancellationIsAScript(s, c.id, destroys, order, pending);
        NoneCancelsItselfSuffices(s3, rest, order, pending);
      } else {
        ExecIsHidden(s, pending, c);
        NoneCancelsItselfSuffices(Exec(s, c), rest, order, pending);
      }
  }

  // ----- with the id erased first -----

  lemma ExecActivatesNoPending(s: State, pending: set<TimerId>, c: Command, id: TimerId)
    requires Sorted(s.timers) && (forall x :: x in pending ==> x.addr in s.heap)
    requires id in pending && id !in s.active
    ensures id !in Exec(s, c).active
  {
    if c.Add? {
      NewIsHidden(s, pending, c.when, c.interval, c.pick);
      assert id.addr in Addresses(pending);
    }
  }

  lemma {:induction false} ErasedIsNotFound(s: State, ds: Deeds, pending: set<TimerId>)
    requires Deleting(s, pending) && pending !! s.active
    ensures !CancelsPending(s, ds, EraseFirst, pending) && pending !! Perform(s, ds, EraseFirst).active
    decreases ds
  {
    match ds
    case Done =>
    case Then(c, destroys, rest) =>
      if c.Cancel? && c.id in s.active {
        BeginIsHidden(s, pending, c.id, EraseFirst);
        ErasedIsNotFound(BeginCancel(s, c.id, EraseFirst), destroys, pending + {c.id});
        var during, s3 := CancellationIsAScript(s, c.id, destroys, EraseFirst, pending);
        ErasedIsNotFound(s3, rest, pending);
      } else {
        ExecIsHidden(s, pending, c);
        forall id | id in pending ensures id !in Exec(s, c).active {
          ExecActivatesNoPending(s, pending, c, id);
        }
        ErasedIsNotFound(Exec(s, c), rest, pending);
      }
  }

  /** The repair: with the id erased before the timer is deleted, everything stays in order whatever the
      destructors do. */
  lemma ErasingFirstIsSafe(s: State, ds: Deeds)
    requires Inv(s)
    ensures var s' := Perform(s, ds, EraseFirst);
            s'.ok && Inv(s') && exists script :: s' == RunScript(s, script)
  {
    NothingPending(s);
    ErasedIsNotFound(s, ds, {});
    var script := DeedsAreAScript(s, ds, EraseFirst, {});
    NothingPending(Perform(s, ds, EraseFirst));
    assert Perform(s, ds, EraseFirst) == RunScript(s, script);
  }

  // ----- deletion in reset -----

  /** A round of reset that frees its timer: the memory is free only after the callback's destruction. */
  function DeleteRound(s: State, ds: Deeds, order: Order): State
    requires Sorted(s.timers) && s.batch != []
  {
    var s' := Perform(s.(batch := s.batch[1..]), ds, order);
    s'.(heap := s'.heap - {s.batch[0].addr})
  }

  /** It is a round whose destructors run a script, under the same condition. */
  lemma DeleteRoundIsARound(s: State, now: Timestamp, ds: Deeds, order: Order) returns (script: seq<Command>)
    requires Inv(s) && s.batch != [] && FreesFirst(s)
    requires !CancelsPending(s.(batch := s.batch[1..]), ds, order, {FirstId(s)})
    ensures DeleteRound(s, ds, order) == SettleRound(s, now, script)
  {
    var id := FirstId(s);
    var s1 := s.(batch := s.batch[1..]);
    FreedIsHidden(s, now);
    script := DeedsAreAScript(s1, ds, order, {id});
    StaysOutside(s1, ds, order, {id}, id);
    OnlyItsMemoryIsLeft(Perform(s1, ds, order), id);
  }

  function FirstId(s: State): TimerId
    requires s.batch != [] && s.batch[0].addr in s.heap
  {
    TimerId(s.batch[0].addr, s.heap[s.batch[0].addr].sequence)
  }

  lemma FreedIsHidden(s: State, now: Timestamp)
    requires Inv(s) && s.batch != [] && FreesFirst(s)
    ensures var s1 := s.(batch := s.batch[1..]); var id := FirstId(s);
            Hide(s1, {id}) == Settle(s, now) && Deleting(s1, {id}) && id !in s1.active
  {
    FirstOfBatch(s);
    OnlyItsMemoryIsLeft(s.(batch := s.batch[1..]), FirstId(s));
    SettleKeepsInv(s, now);
  }

  lemma OnlyItsMemoryIsLeft(s: State, id: TimerId)
    requires id !in s.active
    ensures Hide(s, {id}) == s.(heap := s.heap - {id.addr})
  {
    assert Addresses({id}) == {id.addr};
    assert s.active - {id} == s.active;
  }

  /** An id that is not active does not become so. */
  lemma {:induction false} StaysOutside(s: State, ds: Deeds, order: Order, pending: set<TimerId>, id: TimerId)
    requires Deleting(s, pending) && id in pending && id !in s.active && !CancelsPending(s, ds, order, pending)
    ensures id !in Perform(s, ds, order).active
    decreases ds
  {
    match ds
    case Done =>
    case Then(c, destroys, rest) =>
      if c.Cancel? && c.id in s.active {
        BeginIsHidden(s, pending, c.id, order);
        StaysOutside(BeginCancel(s, c.id, order), destroys, order, pending + {c.id}, id);
        var during, s3 := CancellationIsAScript(s, c.id, destroys, order, pending);
        StaysOutside(s3, rest, order, pending, id);
      } else {
        ExecIsHidden(s, pending, c);
        ExecActivatesNoPending(s, pending, c, id);
        StaysOutside(Exec(s, c), rest, order, pending, id);
      }
  }
}
