/** One channel's registration: its own interest and index, its place in the poller's table, and the
    kernel's interest list. */
module Registration {
  import opened Options

  type Mask = bv32

  const NONE_EVENT: Mask := 0
  const READ_EVENT: Mask := 0x3      // EPOLLIN | EPOLLPRI
  const WRITE_EVENT: Mask := 0x4     // EPOLLOUT

  datatype Index = New | Added | Deleted

  /** What epoll_ctl does with a descriptor. */
  datatype CtlOp = CtlAdd | CtlMod | CtlDel

  /** `listed`: the table maps the descriptor to this channel. `kernel`: the mask with which the kernel
      watches it. `errors` counts refused calls of epoll_ctl. */
  datatype Reg = Reg(events: Mask, index: Index, listed: bool, kernel: Option<Mask>, errors: nat)

  const FRESH := Reg(NONE_EVENT, New, false, None, 0)

  /** The kernel refuses to add a descriptor it has and to change or delete one it has not. */
  function Ctl(kernel: Option<Mask>, op: CtlOp, mask: Mask): Option<Option<Mask>> {
    match op
    case CtlAdd => if kernel.Some? then None else Some(Some(mask))
    case CtlMod => if kernel.None? then None else Some(Some(mask))
    case CtlDel => if kernel.None? then None else Some(None)
  }

  function Update(r: Reg, op: CtlOp): Reg {
    match Ctl(r.kernel, op, r.events)
    case Some(kernel) => r.(kernel := kernel)
    case None => r.(errors := r.errors + 1)
  }

  function UpdateChannel(r: Reg): Reg {
    if r.index != Added then
      Update(r.(listed := r.listed || r.index == New, index := Added), CtlAdd)
    else if r.events == NONE_EVENT then
      Update(r, CtlDel).(index := Deleted)
    else
      Update(r, CtlMod)
  }

  function RemoveChannel(r: Reg): Reg {
    var r' := r.(listed := false);
    (if r.index == Added then Update(r', CtlDel) else r').(index := New)
  }

  datatype Call = EnableReading | DisableReading | EnableWriting | DisableWriting | DisableAll | Remove

  function NewEvents(events: Mask, c: Call): Mask {
    match c
    case EnableReading => events | READ_EVENT
    case DisableReading => events & !READ_EVENT
    case EnableWriting => events | WRITE_EVENT
    case DisableWriting => events & !WRITE_EVENT
    case DisableAll => NONE_EVENT
    case Remove => events
  }

  function Apply(r: Reg, c: Call): Reg {
    if c.Remove? then RemoveChannel(r) else UpdateChannel(r.(events := NewEvents(r.events, c)))
  }

  function ApplyAll(r: Reg, calls: seq<Call>): Reg
    decreases |calls|
  {
    if calls == [] then r else ApplyAll(Apply(r, calls[0]), calls[1..])
  }

  // ----- the three copies agree -----

  /** The index says `Added` exactly when the kernel watches the descriptor, and then with the channel's own
      mask; the table has the channel exactly when the index is not `New`; no call was refused. */
  predicate Mirrored(r: Reg) {
    && (r.index == Added <==> r.kernel.Some?)
    && (r.index == Added ==> r.kernel == Some(r.events))
    && (r.listed <==> r.index != New)
    && r.errors == 0
  }

  lemma CallKeepsMirror(r: Reg, c: Call)
    requires Mirrored(r)
    ensures Mirrored(Apply(r, c))
  {
  }

  /** In every sequence of calls on a channel, in any order and with any repetition. */
  lemma {:induction false} CallsKeepMirror(r: Reg, calls: seq<Call>)
    requires Mirrored(r)
    ensures Mirrored(ApplyAll(r, calls))
    decreases |calls|
  {
    if calls != [] {
      CallKeepsMirror(r, calls[0]);
      CallsKeepMirror(Apply(r, calls[0]), calls[1..]);
    }
  }

  /** disableAll takes a watched descriptor off the kernel's list; but called when the descriptor is not
      watched it puts it there, with an empty mask. So two in a row leave it watched. */
  lemma DisableAllUnwatchesIffWatched(r: Reg)
    requires Mirrored(r)
    ensures Apply(r, DisableAll).kernel == None <==> r.index == Added
    ensures r.index == Added ==> ApplyAll(r, [DisableAll, DisableAll]).kernel == Some(NONE_EVENT)
  {
  }

  /** What a call that is not a removal makes of the channel: its mask is the new one, and the kernel watches
      exactly that mask, unless the call has just emptied it for a watched descriptor. */
  lemma CallReachesKernel(r: Reg, c: Call)
    requires Mirrored(r) && !c.Remove?
    ensures var r' := Apply(r, c);
            && r'.events == NewEvents(r.events, c)
            && r'.kernel == if r'.events == NONE_EVENT && r.kernel.Some? then None else Some(r'.events)
  {
  }

  /** After remove nothing is left of the channel, and it can be registered again as if new. */
  lemma RemoveForgets(r: Reg, c: Call)
    requires Mirrored(r)
    ensures Apply(r, Remove) == FRESH.(events := r.events)
    ensures !c.Remove? ==> Apply(Apply(r, Remove), c).kernel == Some(NewEvents(r.events, c))
  {
  }

  /** Enabling and disabling change the one interest they name and no other. */
  lemma InterestsAreSeparate(events: Mask)
    ensures NewEvents(events, EnableReading) & READ_EVENT == READ_EVENT
    ensures NewEvents(events, EnableReading) & WRITE_EVENT == events & WRITE_EVENT
    ensures NewEvents(events, DisableReading) & READ_EVENT == 0
    ensures NewEvents(events, DisableReading) & WRITE_EVENT == events & WRITE_EVENT
    ensures NewEvents(events, EnableWriting) & WRITE_EVENT == WRITE_EVENT
    ensures NewEvents(events, EnableWriting) & READ_EVENT == events & READ_EVENT
    ensures NewEvents(events, DisableWriting) & WRITE_EVENT == 0
    ensures NewEvents(events, DisableWriting) & READ_EVENT == events & READ_EVENT
  {
  }

  /** No other bit of the mask changes. */
  lemma EnablingKeepsOthers(events: Mask)
    ensures NewEvents(events, EnableReading) & 0xFFFF_FFFC == events & 0xFFFF_FFFC
    ensures NewEvents(events, EnableWriting) & 0xFFFF_FFFB == events & 0xFFFF_FFFB
  {
  }

  lemma DisablingKeepsOthers(events: Mask)
    ensures NewEvents(events, DisableReading) == events & 0xFFFF_FFFC
    ensures NewEvents(events, DisableWriting) == events & 0xFFFF_FFFB
  {
  }

  lemma DisableAllClears(events: Mask)
    ensures NewEvents(events, DisableAll) == 0 && NewEvents(events, Remove) == events
  {
  }

  // ----- dispatching what poll reports -----

  const EPOLLIN: Mask := 0x1
  const EPOLLPRI: Mask := 0x2
  const EPOLLOUT: Mask := 0x4
  const EPOLLERR: Mask := 0x8
  const EPOLLHUP: Mask := 0x10
  const EPOLLRDHUP: Mask := 0x2000

  /** The callbacks one event runs, in their order. */
  datatype Callback = OnClose | OnError | OnRead | OnWrite

  function RunIf(condition: bool, c: Callback): seq<Callback> {
    if condition then [c] else []
  }

  /** The interests are made of the events that epoll reports: reading of input and urgent input, writing of
      output. */
  lemma InterestsAreEvents()
    ensures READ_EVENT == EPOLLIN | EPOLLPRI && WRITE_EVENT == EPOLLOUT && NONE_EVENT == 0
    ensures EPOLLIN == 1 && EPOLLPRI == 2 && EPOLLOUT == 4 && EPOLLERR == 8 && EPOLLHUP == 16 && EPOLLRDHUP == 0x2000
  {
  }

  /** As written the test for a read event is (revents & EPOLLIN) | EPOLLPRI | EPOLLRDHUP. */
  function Dispatch(revents: Mask): seq<Callback> {
    RunIf(revents & EPOLLHUP != 0 && revents & EPOLLIN == 0, OnClose)
    + RunIf(revents & EPOLLERR != 0, OnError)
    + RunIf((revents & EPOLLIN) | EPOLLPRI | EPOLLRDHUP != 0, OnRead)
    + RunIf(revents & EPOLLOUT != 0, OnWrite)
  }

  function DispatchIntended(revents: Mask): seq<Callback> {
    RunIf(revents & EPOLLHUP != 0 && revents & EPOLLIN == 0, OnClose)
    + RunIf(revents & EPOLLERR != 0, OnError)
    + RunIf(revents & (EPOLLIN | EPOLLPRI | EPOLLRDHUP) != 0, OnRead)
    + RunIf(revents & EPOLLOUT != 0, OnWrite)
  }

  /** As written every event runs the read callback; the dispatch is the intended one exactly for events that
      report something to read. */
  lemma DispatchIsIntendedIffReadable(revents: Mask)
    ensures OnRead in Dispatch(revents)
    ensures Dispatch(revents) == DispatchIntended(revents) <==> revents & (EPOLLIN | EPOLLPRI | EPOLLRDHUP) != 0
  {
  }

  /** Which callbacks an event runs: the close callback on a hang-up with nothing to read, and the error and write
      callbacks on what they are named for, in this order and at most once each. */
  lemma DispatchRuns(revents: Mask)
    ensures OnClose in Dispatch(revents) <==> revents & EPOLLHUP != 0 && revents & EPOLLIN == 0
    ensures OnError in Dispatch(revents) <==> revents & EPOLLERR != 0
    ensures OnWrite in Dispatch(revents) <==> revents & EPOLLOUT != 0
    ensures forall i, j :: 0 <= i < j < |Dispatch(revents)| ==> Rank(Dispatch(revents)[i]) < Rank(Dispatch(revents)[j])
  {
  }

  function Rank(c: Callback): nat {
    match c
    case OnClose => 0
    case OnError => 1
    case OnRead => 2
    case OnWrite => 3
  }
}
