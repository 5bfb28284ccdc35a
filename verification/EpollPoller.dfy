/** Channels and their poller as the source has them: each channel holds its interest and index, the poller
    a table by descriptor, the kernel its own list. Calls on one channel leave all others alone. */
module EpollPollers {
  import opened Options
  import opened Registration

  class Channel {
    const fd: int
    var events: Mask
    var index: Index

    constructor (fd: int)
      ensures this.fd == fd && events == NONE_EVENT && index == New
    {
      this.fd := fd;
      events, index := NONE_EVENT, New;
    }
  }

  ghost function RegOf(c: Channel, fd: int, events: Mask, index: Index,
                       channels: map<int, Channel>, kernel: map<int, Mask>, errors: nat): Reg {
    Reg(events, index, fd in channels && channels[fd] == c, if fd in kernel then Some(kernel[fd]) else None, errors)
  }

  lemma OtherDescriptorsSeeNothing(d: Channel, fd: int, events: Mask, index: Index, errors: nat, other: int,
                                   channels: map<int, Channel>, channels': map<int, Channel>,
                                   kernel: map<int, Mask>, kernel': map<int, Mask>)
    requires fd != other
    requires channels' - {other} == channels - {other} && kernel' - {other} == kernel - {other}
    ensures forall n: nat :: RegOf(d, fd, events, index, channels', kernel', errors)
                             == RegOf(d, fd, events, index, channels, kernel, n).(errors := errors)
  {
    assert fd in channels' <==> fd in channels' - {other};
    assert fd in kernel' <==> fd in kernel' - {other};
  }

  lemma WatchedStayListed(fd: int, channels: map<int, Channel>, channels': map<int, Channel>,
                          kernel: map<int, Mask>, kernel': map<int, Mask>)
    requires kernel.Keys <= channels.Keys
    requires channels' - {fd} == channels - {fd} && kernel' - {fd} == kernel - {fd}
    requires fd in kernel' ==> fd in channels'
    ensures kernel'.Keys <= channels'.Keys
  {
    forall other | other in kernel' && other != fd ensures other in channels' {
      assert other in kernel' - {fd};
      assert other in channels' - {fd};
    }
  }

  /** What happens to the channels of a loop: one is made for a descriptor just opened, one is called, or one is
      removed and destroyed and its descriptor closed. A descriptor may be opened again after that. */
  datatype Op = Open(fd: int) | On(fd: int, call: Call) | Close(fd: int)

  /** The registrations, each by itself. */
  function AfterOp(regs: map<int, Reg>, op: Op): map<int, Reg> {
    match op
    case Open(fd) => if fd in regs then regs else regs[fd := FRESH]
    case On(fd, call) => if fd in regs then regs[fd := Apply(regs[fd], call)] else regs
    case Close(fd) => regs - {fd}
  }

  function AfterOps(regs: map<int, Reg>, ops: seq<Op>): map<int, Reg>
    decreases |ops|
  {
    if ops == [] then regs else AfterOps(AfterOp(regs, ops[0]), ops[1..])
  }

  function InUse(live: map<int, Channel>): set<Channel> {
    set fd | fd in live :: live[fd]
  }

  lemma InUseWith(live: map<int, Channel>, fd: int, c: Channel)
    requires fd !in live
    ensures InUse(live[fd := c]) == InUse(live) + {c}
  {
    assert live[fd := c][fd] == c;
    forall x | x in live ensures live[x] in InUse(live[fd := c]) {
      assert live[fd := c][x] == live[x];
    }
  }

  lemma InUseWithout(live: map<int, Channel>, fd: int)
    requires fd in live && forall x :: x in live ==> live[x].fd == x
    ensures InUse(live - {fd}) == InUse(live) - {live[fd]}
  {
    forall x | x in live && x != fd ensures live[x] in InUse(live - {fd}) {
      assert (live - {fd})[x] == live[x];
    }
  }

  class EpollPoller {
    var channels: map<int, Channel>
    ghost var kernel: map<int, Mask>
    ghost var errors: nat

    constructor ()
      ensures channels == map[] && kernel == map[] && errors == 0
    {
      channels, kernel, errors := map[], map[], 0;
    }

    /** The registration of one channel. */
    ghost function Of(c: Channel): Reg
      reads this, c
    {
      RegOf(c, c.fd, c.events, c.index, channels, kernel, errors)
    }

    /** The channels of a loop have descriptors of their own, and each is mirrored. The table and the kernel's list
        hold nothing else. */
    ghost predicate Valid(all: set<Channel>)
      reads this, all
    {
      && Distinct(all) && Listed(all) && kernel.Keys <= channels.Keys
      && errors == 0 && (forall c :: c in all ==> Mirrored(Of(c)))
    }

    ghost predicate Listed(all: set<Channel>)
      reads this, all
    {
      forall fd :: fd in channels ==> channels[fd] in all && channels[fd].fd == fd
    }

    predicate HasChannel(c: Channel)
      reads this
    {
      c.fd in channels && channels[c.fd] == c
    }

    /** A call of one of Channel's enable and disable methods, or of remove. */
    method Call(c: Channel, call: Call, ghost all: set<Channel>)
      requires Valid(all) && c in all
      modifies this, c
      ensures Valid(all)
      ensures Of(c) == Apply(old(Of(c)), call)
      ensures forall d :: d in all && d != c ==> Of(d) == old(Of(d))
      ensures HasChannel(c) <==> c.index != New
      ensures c.fd in kernel <==> c.index == Added
    {
      CallKeepsMirror(Of(c), call);
      if call.Remove? {
        RemoveChannel(c, all);
      } else {
        Change(c, NewEvents(c.events, call), all);
      }
    }

    /** The registrations of the channels in use, by descriptor. */
    ghost function Regs(live: map<int, Channel>): map<int, Reg>
      reads this, InUse(live)
    {
      map fd | fd in live :: Of(live[fd])
    }

    ghost predicate ValidLive(live: map<int, Channel>)
      reads this, InUse(live)
    {
      Valid(InUse(live)) && forall fd :: fd in live ==> live[fd].fd == fd
    }

    /** Any sequence of operations on any channels, those that are made and given up on the way included: each
        channel goes through exactly its own calls, whatever happens to the others. */
    method Perform(live: map<int, Channel>, ops: seq<Op>) returns (live': map<int, Channel>)
      requires ValidLive(live)
      modifies this, InUse(live)
      ensures ValidLive(live') && Regs(live') == AfterOps(old(Regs(live)), ops)
      ensures forall c :: c in InUse(live') ==> c in InUse(live) || fresh(c)
    {
      live' := live;
      ghost var goal := AfterOps(Regs(live), ops);
      var i := 0;
      while i < |ops|
        invariant 0 <= i <= |ops|
        invariant ValidLive(live') && AfterOps(Regs(live'), ops[i..]) == goal
        invariant forall c :: c in InUse(live') ==> c in InUse(live) || fresh(c)
      {
        assert ops[i..][0] == ops[i] && ops[i..][1..] == ops[i + 1..];
        live' := PerformOne(live', ops[i]);
        i := i + 1;
      }
      assert ops[i..] == [];
    }

    method PerformOne(live: map<int, Channel>, op: Op) returns (live': map<int, Channel>)
      requires ValidLive(live)
      modifies this, InUse(live)
      ensures ValidLive(live') && Regs(live') == AfterOp(old(Regs(live)), op)
      ensures forall c :: c in InUse(live') ==> c in InUse(live) || fresh(c)
    {
      live' := live;
      match op
      case Open(fd) =>
        if fd !in live {
          live' := OpenChannel(live, fd);
        }
      case On(fd, call) =>
        if fd in live {
          CallOn(live, fd, call);
        }
      case Close(fd) =>
        if fd in live {
          live' := CloseChannel(live, fd);
        }
    }

    /** A channel for a descriptor that no channel in use has; it may have belonged to one before. */
    method OpenChannel(live: map<int, Channel>, fd: int) returns (live': map<int, Channel>)
      requires ValidLive(live) && fd !in live
      ensures ValidLive(live') && Regs(live') == old(Regs(live))[fd := FRESH]
      ensures forall c :: c in InUse(live') ==> c in InUse(live) || fresh(c)
    {
      var c := new Channel(fd);
      live' := live[fd := c];
      InUseWith(live, fd, c);
      assert forall d :: d in InUse(live) ==> Of(d) == old(Of(d));
      NewChannelIsFresh(InUse(live), c);
    }

    lemma NewChannelIsFresh(all: set<Channel>, c: Channel)
      requires Valid(all) && (forall d :: d in all ==> d.fd != c.fd) && c.events == NONE_EVENT && c.index == New
      ensures Of(c) == FRESH && Valid(all + {c})
    {
      assert c.fd !in channels;
    }

    method CallOn(live: map<int, Channel>, fd: int, call: Call)
      requires ValidLive(live) && fd in live
      modifies this, InUse(live)
      ensures ValidLive(live) && Regs(live) == old(Regs(live))[fd := Apply(old(Of(live[fd])), call)]
    {
      var c := live[fd];
      Call(c, call, InUse(live));
      forall x | x in live && x != fd ensures Of(live[x]) == old(Of(live[x])) {
        assert live[x] in InUse(live) && live[x] != c;
      }
    }

    /** remove, after which the channel is destroyed and its descriptor closed. */
    method CloseChannel(live: map<int, Channel>, fd: int) returns (live': map<int, Channel>)
      requires ValidLive(live) && fd in live
      modifies this, InUse(live)
      ensures ValidLive(live') && Regs(live') == old(Regs(live)) - {fd}
      ensures InUse(live') <= InUse(live)
    {
      ghost var before := Regs(live);
      CallOn(live, fd, Remove);
      assert Regs(live) - {fd} == before - {fd} && Regs(live)[fd].index == New;
      live' := live - {fd};
      assert Regs(live') == Regs(live) - {fd};
      InUseWithout(live, fd);
      RemovedMayGo(InUse(live), live[fd]);
    }

    lemma RemovedMayGo(all: set<Channel>, c: Channel)
      requires Valid(all) && c in all && c.index == New
      ensures Valid(all - {c})
    {
      assert !HasChannel(c);
    }

    /** The mask is set and handed on. */
    method Change(c: Channel, events: Mask, ghost all: set<Channel>)
      requires Valid(all) && c in all
      modifies this, c
      ensures Of(c) == Registration.UpdateChannel(old(Of(c)).(events := events))
      ensures Listed(all) && kernel.Keys <= channels.Keys
      ensures forall d :: d in all && d != c ==> Of(d) == old(Of(d)).(errors := errors)
    {
      c.events := events;
      UpdateChannel(c, all);
      forall d | d in all && d != c ensures Of(d) == old(Of(d)).(errors := errors) {
        OtherDescriptorsSeeNothing(d, d.fd, d.events, d.index, errors, c.fd, old(channels), channels, old(kernel), kernel);
      }
    }

    method UpdateChannel(c: Channel, ghost all: set<Channel>)
      requires Distinct(all) && Listed(all) && c in all && kernel.Keys <= channels.Keys
      requires HasChannel(c) <==> c.index != New
      modifies this, c`index
      ensures Of(c) == Registration.UpdateChannel(old(Of(c)))
      ensures Listed(all) && kernel.Keys <= channels.Keys
      ensures channels - {c.fd} == old(channels) - {c.fd} && kernel - {c.fd} == old(kernel) - {c.fd}
    {
      if c.index == New || c.index == Deleted {
        if c.index == New {
          channels := channels[c.fd := c];
        }
        c.index := Added;
        Update(CtlAdd, c);
      } else {
        if c.events == NONE_EVENT {
          Update(CtlDel, c);
          c.index := Deleted;
        } else {
          Update(CtlMod, c);
        }
      }
      WatchedStayListed(c.fd, old(channels), channels, old(kernel), kernel);
    }

    method RemoveChannel(c: Channel, ghost all: set<Channel>)
      requires Valid(all) && c in all
      modifies this, c`index
      ensures Of(c) == Registration.RemoveChannel(old(Of(c)))
      ensures Listed(all) && kernel.Keys <= channels.Keys
      ensures forall d :: d in all && d != c ==> Of(d) == old(Of(d)).(errors := errors)
    {
      channels := channels - {c.fd};
      if c.index == Added {
        Update(CtlDel, c);
      }
      c.index := New;
      WatchedStayListed(c.fd, old(channels), channels, old(kernel), kernel);
      forall d | d in all && d != c ensures Of(d) == old(Of(d)).(errors := errors) {
        OtherDescriptorsSeeNothing(d, d.fd, d.events, d.index, errors, c.fd, old(channels), channels, old(kernel), kernel);
      }
    }

    /** The system call. */
    method Update(op: CtlOp, c: Channel)
      modifies this`kernel, this`errors
      ensures Of(c) == Registration.Update(old(Of(c)), op)
      ensures kernel - {c.fd} == old(kernel) - {c.fd}
    {
      match op
      case CtlAdd =>
        if c.fd in kernel { errors := errors + 1; } else { kernel := kernel[c.fd := c.events]; }
      case CtlMod =>
        if c.fd !in kernel { errors := errors + 1; } else { kernel := kernel[c.fd := c.events]; }
      case CtlDel =>
        if c.fd !in kernel { errors := errors + 1; } else { kernel := kernel - {c.fd}; }
    }

    static ghost predicate Distinct(all: set<Channel>) {
      forall c, d :: c in all && d in all && c != d ==> c.fd != d.fd
    }
  }
}
