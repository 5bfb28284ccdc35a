/** The timer queue as a value: its three sets, the heap of timers it owns, what other threads have
    handed over, what the timerfd is armed for, and a log of the callbacks started. Each operation is a
    function on that value. `ok` turns false, and stays false, when an operation would touch a timer
    that is not allocated or when one of the source's assertions would fail. */
module TimerState {
  import opened Time
  import opened Options
  import opened OrderedEntries

  /** One allocated timer. */
  datatype Timer = Timer(expiration: Timestamp, interval: real, sequence: int) {
    predicate Repeat() {
      interval > 0.0
    }

    function Restart(now: Timestamp): Timer {
      this.(expiration := if Repeat() then AddTime(now, interval) else INVALID)
    }
  }

  /** What a client holds to cancel a timer: it may have gone stale, or never have been valid. */
  datatype TimerId = TimerId(addr: Address, sequence: int)

  /** A callback started: whose, its interval, and the time its batch was collected. */
  datatype Start = Start(sequence: int, interval: real, at: Timestamp)

  /** A functor other threads have queued for the loop thread. */
  datatype Functor = AddTimerInLoop(addr: Address) | CancelInLoop(id: TimerId)

  /** One thing a client does. The first two are calls from the loop thread, where runInLoop runs its
      argument at once; the next two are calls from another thread, where it queues it. `pick` is the
      address the allocator would like to return. The sequence numbers are shared by the queues of all loops:
      the last is what other queues take of them. */
  datatype Command =
    | Add(when: Timestamp, interval: real, pick: Address)
    | Cancel(id: TimerId)
    | PostAdd(when: Timestamp, interval: real, pick: Address)
    | PostCancel(id: TimerId)
    | CreateElsewhere(count: nat)

  datatype State = State(
    heap: map<Address, Timer>,
    created: nat,
    timers: seq<Entry>,
    active: set<TimerId>,
    canceling: set<TimerId>,
    calling: bool,
    batch: seq<Entry>,
    handoff: seq<Functor>,
    armed: Option<Timestamp>,
    log: seq<Start>,
    ok: bool)

  const INITIAL := State(map[], 0, [], {}, {}, false, [], [], None, [], true)

  /** Where reset re-arms the timerfd: inside its loop over the batch, as the source does, or once
      after the loop. */
  datatype Variant = AsWritten | RearmAfterLoop

  // ----- allocation -----

  /** An address not in use, and the wanted one if that is free: over all wants, every choice an
      allocator has, including an address freed before. */
  function FreshAddress(used: set<Address>, pick: Address): (a: Address)
    ensures a >= pick && a !in used
    ensures pick !in used ==> a == pick
  {
    if pick !in used then pick else FreshAddress(used - {pick}, pick + 1)
  }

  function NewAddress(s: State, pick: Address): (a: Address)
    ensures a !in s.heap
  {
    FreshAddress(s.heap.Keys, pick)
  }

  function New(s: State, when: Timestamp, interval: real, pick: Address): State {
    s.(created := s.created + 1,
       heap := s.heap[NewAddress(s, pick) := Timer(when, interval, s.created + 1)])
  }

  // ----- adding and cancelling in the loop thread -----

  predicate EarliestChanges(s: State, when: Timestamp) {
    s.timers == [] || when < s.timers[0].time
  }

  function InsertTimer(s: State, addr: Address): (r: State)
    requires Sorted(s.timers)
    ensures Sorted(r.timers)
    ensures r == s.(timers := r.timers, active := r.active, ok := r.ok)
  {
    if addr !in s.heap || Entry(s.heap[addr].expiration, addr) in s.timers then s.(ok := false)
    else s.(timers := Insert(s.timers, Entry(s.heap[addr].expiration, addr)),
            active := s.active + {TimerId(addr, s.heap[addr].sequence)})
  }

  function AddInLoop(s: State, addr: Address): (r: State)
    requires Sorted(s.timers)
    ensures Sorted(r.timers)
  {
    var s' := InsertTimer(s, addr);
    if addr in s.heap && EarliestChanges(s, s.heap[addr].expiration) && s'.timers != []
    then s'.(armed := Some(s'.timers[0].time))
    else s'
  }

  function CancelTimer(s: State, id: TimerId): (r: State)
    requires Sorted(s.timers)
    ensures Sorted(r.timers)
  {
    if id in s.active then
      if id.addr !in s.heap || Entry(s.heap[id.addr].expiration, id.addr) !in s.timers then s.(ok := false)
      else s.(timers := Erase(s.timers, Entry(s.heap[id.addr].expiration, id.addr)),
              heap := s.heap - {id.addr},
              active := s.active - {id})
    else if s.calling then s.(canceling := s.canceling + {id})
    else s
  }

  function Exec(s: State, c: Command): (r: State)
    requires Sorted(s.timers)
    ensures Sorted(r.timers)
  {
    match c
    case Add(when, interval, pick) => AddInLoop(New(s, when, interval, pick), NewAddress(s, pick))
    case Cancel(id) => CancelTimer(s, id)
    case PostAdd(when, interval, pick) =>
      New(s, when, interval, pick).(handoff := s.handoff + [AddTimerInLoop(NewAddress(s, pick))])
    case PostCancel(id) => s.(handoff := s.handoff + [CancelInLoop(id)])
    case CreateElsewhere(count) => s.(created := s.created + count)
  }

  /** The loop thread runs the oldest functor handed over. */
  function DeliverNext(s: State): (r: State)
    requires Sorted(s.timers)
    ensures Sorted(r.timers)
  {
    if s.handoff == [] then s
    else
      var s' := s.(handoff := s.handoff[1..]);
      match s.handoff[0]
      case AddTimerInLoop(addr) => AddInLoop(s', addr)
      case CancelInLoop(id) => CancelTimer(s', id)
  }

  // ----- a firing -----

  /** The ids of a batch, as the heap has them. */
  function IdsOf(heap: map<Address, Timer>, batch: seq<Entry>): set<TimerId> {
    set e | e in batch && e.addr in heap :: TimerId(e.addr, heap[e.addr].sequence)
  }

  function Due(s: State, now: Timestamp): seq<Entry>
    requires Sorted(s.timers)
  {
    s.timers[..LowerBound(s.timers, now)]
  }

  /** Reading an expired timerfd leaves it disarmed. Readiness may also be stale: an earlier handler of the
      same round has set the timerfd anew, which takes the expiry back; then the read finds nothing and the
      timerfd stays armed. */
  function ReadTimerfd(s: State, expired: bool): State {
    if expired then s.(armed := None) else s
  }

  /** The due timers leave both sets, and the batch begins. */
  function Extract(s: State, now: Timestamp): (r: State)
    requires Sorted(s.timers)
    ensures Sorted(r.timers)
  {
    var batch := Due(s, now);
    s.(timers := s.timers[LowerBound(s.timers, now)..],
       active := s.active - IdsOf(s.heap, batch),
       batch := batch,
       canceling := {},
       calling := true,
       ok := s.ok && forall e <- batch :: e.addr in s.heap && TimerId(e.addr, s.heap[e.addr].sequence) in s.active)
  }

  function StartRun(s: State, e: Entry, now: Timestamp): State {
    if e.addr !in s.heap then s.(ok := false)
    else s.(log := s.log + [Start(s.heap[e.addr].sequence, s.heap[e.addr].interval, now)])
  }

  function RunScript(s: State, script: seq<Command>): (r: State)
    requires Sorted(s.timers)
    ensures Sorted(r.timers)
    decreases |script|
  {
    if script == [] then s else RunScript(Exec(s, script[0]), script[1..])
  }

  /** The script of the next callback; a callback without one does nothing to the queue. */
  function FirstScript(scripts: seq<seq<Command>>): seq<Command> {
    if scripts == [] then [] else scripts[0]
  }

  function OtherScripts(scripts: seq<seq<Command>>): seq<seq<Command>> {
    if scripts == [] then [] else scripts[1..]
  }

  /** Run the callbacks of the entries still to come, each with its script. */
  function RunCallbacks(s: State, rest: seq<Entry>, now: Timestamp, scripts: seq<seq<Command>>): (r: State)
    requires Sorted(s.timers)
    ensures Sorted(r.timers)
    decreases |rest|
  {
    if rest == [] then s
    else RunCallbacks(RunScript(StartRun(s, rest[0], now), FirstScript(scripts)),
                      rest[1..], now, OtherScripts(scripts))
  }

  /** Decide about the first timer of the batch: a repeating timer that nobody cancelled starts again,
      any other is freed. */
  function Settle(s: State, now: Timestamp): (r: State)
    requires Sorted(s.timers) && s.batch != []
    ensures Sorted(r.timers)
    ensures r == s.(batch := s.batch[1..], heap := r.heap, timers := r.timers, active := r.active, ok := r.ok)
    ensures forall b :: b != s.batch[0].addr ==>
              (b in r.heap <==> b in s.heap) && (b in s.heap ==> r.heap[b] == s.heap[b])
  {
    var a := s.batch[0].addr;
    var s' := s.(batch := s.batch[1..]);
    if a !in s.heap then s'.(ok := false)
    else if s.heap[a].Repeat() && TimerId(a, s.heap[a].sequence) !in s.canceling then
      InsertTimer(s'.(heap := s.heap[a := s.heap[a].Restart(now)]), a)
    else s'.(heap := s.heap - {a})
  }

  /** Arm the timerfd for the earliest timer, if there is one with a valid time. */
  function Rearm(s: State): (r: State)
    ensures r == s.(armed := r.armed, ok := r.ok)
  {
    if s.timers == [] then s
    else if s.timers[0].addr !in s.heap then s.(ok := false)
    else if IsValid(s.heap[s.timers[0].addr].expiration)
    then s.(armed := Some(s.heap[s.timers[0].addr].expiration))
    else s
  }

  /** The first timer of the batch will be freed. */
  predicate FreesFirst(s: State)
    requires s.batch != []
  {
    var a := s.batch[0].addr;
    a in s.heap && !(s.heap[a].Repeat() && TimerId(a, s.heap[a].sequence) !in s.canceling)
  }

  /** With what the destruction of a freed timer's callback does: its destructors may call the queue, too. */
  function SettleRound(s: State, now: Timestamp, script: seq<Command>): (r: State)
    requires Sorted(s.timers) && s.batch != []
    ensures Sorted(r.timers)
  {
    if FreesFirst(s) then RunScript(Settle(s, now), script) else Settle(s, now)
  }

  /** The second half of a round of the loop in reset. Where no timer waits, the time found in an earlier round
      still stands. */
  function RearmRound(s: State, nextExpire: Timestamp): (r: State)
    ensures r == s.(armed := r.armed, ok := r.ok)
  {
    if s.timers == [] && IsValid(nextExpire) then s.(armed := Some(nextExpire)) else Rearm(s)
  }

  function NextExpire(s: State, nextExpire: Timestamp): Timestamp {
    if s.timers == [] || s.timers[0].addr !in s.heap then nextExpire else s.heap[s.timers[0].addr].expiration
  }

  function AfterRound(s: State, now: Timestamp, script: seq<Command>, v: Variant, nextExpire: Timestamp): (r: State)
    requires Sorted(s.timers) && s.batch != []
    ensures Sorted(r.timers)
  {
    var s' := SettleRound(s, now, script);
    if v.AsWritten? then RearmRound(s', nextExpire) else s'
  }

  /** The loop in reset. `freed` are the scripts of the callbacks destroyed, one for each timer of the batch; that
      of a timer that is not freed is not run. */
  function SettleAll(s: State, now: Timestamp, freed: seq<seq<Command>>, v: Variant, nextExpire: Timestamp): (r: State)
    requires Sorted(s.timers)
    ensures Sorted(r.timers)
    decreases |s.batch|
  {
    if s.batch == [] then s
    else
      RoundsShorten(s, now, FirstScript(freed), v, nextExpire);
      SettleAll(AfterRound(s, now, FirstScript(freed), v, nextExpire), now, OtherScripts(freed), v,
                NextExpire(SettleRound(s, now, FirstScript(freed)), nextExpire))
  }

  lemma {:induction false} ScriptsKeepBatch(s: State, script: seq<Command>)
    requires Sorted(s.timers)
    ensures RunScript(s, script).batch == s.batch
    decreases |script|
  {
    if script != [] {
      ScriptsKeepBatch(Exec(s, script[0]), script[1..]);
    }
  }

  lemma RoundsShorten(s: State, now: Timestamp, script: seq<Command>, v: Variant, nextExpire: Timestamp)
    requires Sorted(s.timers) && s.batch != []
    ensures SettleRound(s, now, script).batch == AfterRound(s, now, script, v, nextExpire).batch == s.batch[1..]
  {
    ScriptsKeepBatch(Settle(s, now), script);
  }

  function Reset(s: State, now: Timestamp, freed: seq<seq<Command>>, v: Variant): (r: State)
    requires Sorted(s.timers)
    ensures Sorted(r.timers)
  {
    var s' := SettleAll(s, now, freed, v, INVALID);
    if v.AsWritten? then s' else Rearm(s')
  }

  /** The state in which reset begins. */
  function AtReset(s: State, now: Timestamp, scripts: seq<seq<Command>>): (r: State)
    requires Sorted(s.timers)
    ensures Sorted(r.timers)
  {
    var s1 := Extract(s, now);
    RunCallbacks(s1, s1.batch, now, scripts).(calling := false)
  }

  /** handleRead, once the timerfd has been read. */
  function Fire(s: State, now: Timestamp, scripts: seq<seq<Command>>, freed: seq<seq<Command>>, v: Variant): (r: State)
    requires Sorted(s.timers)
    ensures Sorted(r.timers)
  {
    Reset(AtReset(s, now, scripts), now, freed, v)
  }

  // ----- runs -----

  /** Between two of these the loop thread is outside the timer queue. The clock read by a firing is
      arbitrary: it may lie before the armed time or go backwards. `expired` says whether the timerfd had
      expired when it was read; `scripts` are what the callbacks do, `freed` what destroying them does. */
  datatype Event =
    | Do(c: Command)
    | Deliver
    | Fired(expired: bool, now: Timestamp, scripts: seq<seq<Command>>, freed: seq<seq<Command>>)

  function Step(s: State, e: Event, v: Variant): (r: State)
    requires Sorted(s.timers)
    ensures Sorted(r.timers)
  {
    match e
    case Do(c) => Exec(s, c)
    case Deliver => DeliverNext(s)
    case Fired(expired, now, scripts, freed) => Fire(ReadTimerfd(s, expired), now, scripts, freed, v)
  }

  function Run(s: State, es: seq<Event>, v: Variant): (r: State)
    requires Sorted(s.timers)
    ensures Sorted(r.timers)
    decreases |es|
  {
    if es == [] then s else Run(Step(s, es[0], v), es[1..], v)
  }
}
