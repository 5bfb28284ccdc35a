/** The sending half of a connection as a value, driven by arbitrary short writes. */
module SendPath {
  import opened BufferLayout

  datatype ConnState = Disconnected | Connecting | Connected | Disconnecting

  /** The two repairs: whether append advances the writer index, and whether a backlog makes sendInLoop
      enable writing. As written it enables reading instead. */
  datatype Repairs = Repairs(append: AppendVariant, enablesWriting: bool)

  const AS_WRITTEN := Repairs(AppendKeepsIndex, false)
  const REPAIRED := Repairs(AppendAdvances, true)

  /** What a write system call does. A count beyond what was offered stands for all of it. */
  datatype Write = Wrote(n: nat) | WouldBlock | Broken | OtherError {
    function Count(offered: nat): nat {
      if !Wrote? then 0 else if n < offered then n else offered
    }
  }

  /** `socket` is what the kernel has accepted, `handed` all messages sendInLoop has taken on, `queued` the
      shutdownInLoop functors waiting in the loop. `clean` says that the connection has seen no broken pipe
      and has not been disconnected. */
  datatype Conn = Conn(
    state: ConnState,
    out: Layout,
    reading: bool,
    writing: bool,
    halfClosed: bool,
    queued: nat,
    socket: seq<byte>,
    handed: seq<byte>,
    clean: bool)

  const INITIAL := Conn(Connecting, EMPTY, false, false, false, 0, [], [], true)

  datatype Action =
    | Establish
    | SendInLoop(message: seq<byte>, io: Write)
    | HandleWrite(io: Write)
    | Shutdown
    | ShutdownInLoop
    | Close

  predicate WritesDirectly(c: Conn) {
    !c.writing && c.out.data == []
  }

  function Send(c: Conn, message: seq<byte>, io: Write, r: Repairs): Conn
    requires c.out.Valid()
  {
    if c.state.Disconnected? then c
    else
      var n := if WritesDirectly(c) then io.Count(|message|) else 0;
      var fault := WritesDirectly(c) && io.Broken?;
      var c' := c.(socket := c.socket + message[..n], handed := c.handed + message, clean := c.clean && !fault);
      if !fault && n < |message| then Enqueue(c', message[n..], r) else c'
  }

  /** The bytes not written go to the buffer, and the channel is told. */
  function Enqueue(c: Conn, rest: seq<byte>, r: Repairs): Conn
    requires c.out.Valid()
  {
    c.(out := Append(c.out, rest, r.append),
       writing := c.writing || r.enablesWriting,
       reading := c.reading || (!c.writing && !r.enablesWriting))
  }

  function HalfClose(c: Conn): Conn {
    if c.writing then c else c.(halfClosed := true)
  }

  function WriteOut(c: Conn, io: Write): Conn {
    var n := io.Count(|c.out.data|);
    if c.writing && n > 0 then
      var c' := c.(socket := c.socket + c.out.data[..n], out := Retrieve(c.out, n));
      if c'.out.data != [] then c'
      else
        var c'' := c'.(writing := false);
        if c''.state.Disconnecting? then HalfClose(c'') else c''
    else c
  }

  function Step(c: Conn, a: Action, r: Repairs): Conn
    requires c.out.Valid()
  {
    match a
    case Establish => if c.state.Connecting? then c.(state := Connected, reading := true) else c
    case SendInLoop(message, io) => Send(c, message, io, r)
    case HandleWrite(io) => WriteOut(c, io)
    case Shutdown => if c.state.Connected? then c.(state := Disconnecting, queued := c.queued + 1) else c
    case ShutdownInLoop => if c.queued > 0 then HalfClose(c.(queued := c.queued - 1)) else c
    case Close => c.(state := Disconnected, reading := false, writing := false, clean := false)
  }

  lemma StepKeepsBuffer(c: Conn, a: Action, r: Repairs)
    requires c.out.Valid()
    ensures Step(c, a, r).out.Valid()
  {
    if a.SendInLoop? {
      var n := if WritesDirectly(c) then a.io.Count(|a.message|) else 0;
      ApplyIsAQueueOperation(c.out, Put(a.message[n..]), r.append);
    }
  }

  function Run(c: Conn, actions: seq<Action>, r: Repairs): Conn
    requires c.out.Valid()
    decreases |actions|
  {
    if actions == [] then c
    else
      StepKeepsBuffer(c, actions[0], r);
      Run(Step(c, actions[0], r), actions[1..], r)
  }

  // ----- what every step does, under all repairs -----

  /** The bytes that the socket accepts in a step: what a write of a message takes that has nothing before it, or
      what a write of the backlog takes. */
  function Accepted(c: Conn, a: Action): seq<byte> {
    match a
    case SendInLoop(message, io) =>
      if !c.state.Disconnected? && !c.writing && c.out.data == [] then message[..io.Count(|message|)] else []
    case HandleWrite(io) => if c.writing then c.out.data[..io.Count(|c.out.data|)] else []
    case _ => []
  }

  /** A write breaks the connection. */
  predicate Faults(c: Conn, a: Action) {
    a.SendInLoop? && !c.state.Disconnected? && !c.writing && c.out.data == [] && a.io.Broken?
  }

  lemma SendReceives(c: Conn, message: seq<byte>, io: Write, r: Repairs)
    requires c.out.Valid()
    ensures var a := SendInLoop(message, io); var c' := Send(c, message, io, r);
            && c'.socket == c.socket + Accepted(c, a)
            && c'.handed == c.handed + HandedBy(c, a)
            && (c'.clean <==> c.clean && !Faults(c, a))
            && (Faults(c, a) ==> c'.out == c.out && c'.writing == c.writing)
  {
  }

  lemma SocketReceives(c: Conn, a: Action, r: Repairs)
    requires c.out.Valid()
    ensures var c' := Step(c, a, r);
            && c'.socket == c.socket + Accepted(c, a)
            && c'.handed == c.handed + HandedBy(c, a)
            && (c'.clean <==> c.clean && !a.Close? && !Faults(c, a))
            && (Faults(c, a) ==> c'.out == c.out && c'.writing == c.writing)
  {
    if a.SendInLoop? {
      SendReceives(c, a.message, a.io, r);
    }
  }

  /** A write takes as much as it reports, but no more than it was offered; a failed write takes nothing. */
  lemma WriteTakes(io: Write, offered: nat)
    ensures io.Count(offered) <= offered
    ensures io.Wrote? ==> io.Count(offered) == if io.n <= offered then io.n else offered
    ensures !io.Wrote? ==> io.Count(offered) == 0
  {
  }

  /** How the state of the connection changes, and the channel with it: establishing begins to read, closing ends
      all interest, and only a connected connection can be shut down. */
  lemma ConnectionStates(c: Conn, a: Action, r: Repairs)
    requires c.out.Valid()
    ensures var c' := Step(c, a, r);
            && (a.Establish? && c.state.Connecting? ==> c'.state.Connected? && c'.reading)
            && (a.Shutdown? && c.state.Connected? ==> c'.state.Disconnecting?)
            && (a.Close? ==> c'.state.Disconnected? && !c'.reading && !c'.writing)
            && (c'.state != c.state ==> (a.Establish? && c.state.Connecting?) || (a.Shutdown? && c.state.Connected?) || a.Close?)
  {
  }

  /** A message that is not written whole tells the channel: as written to read, repaired to write. */
  lemma BacklogEnables(c: Conn, message: seq<byte>, io: Write, r: Repairs)
    requires c.out.Valid() && !c.state.Disconnected? && !c.writing && c.out.data == []
    requires !io.Broken? && io.Count(|message|) < |message|
    ensures var c' := Step(c, SendInLoop(message, io), r);
            if r.enablesWriting then c'.writing && c'.reading == c.reading else !c'.writing && c'.reading
  {
  }

  /** All messages of a run. */
  function AllMessages(actions: seq<Action>): seq<byte> {
    if actions == [] then []
    else (if actions[0].SendInLoop? then actions[0].message else []) + AllMessages(actions[1..])
  }

  /** As long as a connection is clean, it has been clean, and has been handed all messages of the run. */
  lemma {:induction false} RunHandsOver(c: Conn, actions: seq<Action>, r: Repairs)
    requires c.out.Valid() && (c.state.Disconnected? ==> !c.clean)
    ensures var c' := Run(c, actions, r);
            && (c'.state.Disconnected? ==> !c'.clean)
            && (c'.clean ==> c.clean && c'.handed == c.handed + AllMessages(actions))
    decreases |actions|
  {
    if actions != [] {
      SocketReceives(c, actions[0], r);
      ConnectionStates(c, actions[0], r);
      StepKeepsBuffer(c, actions[0], r);
      RunHandsOver(Step(c, actions[0], r), actions[1..], r);
    }
  }

  /** It stays clean until it is closed or a write breaks it. */
  lemma {:induction false} RunStaysClean(c: Conn, actions: seq<Action>, r: Repairs)
    requires c.out.Valid() && c.clean
    requires forall i :: 0 <= i < |actions| ==> !actions[i].Close? && !(actions[i].SendInLoop? && actions[i].io.Broken?)
    ensures Run(c, actions, r).clean
    decreases |actions|
  {
    if actions != [] {
      SocketReceives(c, actions[0], r);
      StepKeepsBuffer(c, actions[0], r);
      RunStaysClean(Step(c, actions[0], r), actions[1..], r);
    }
  }

  // ----- shutting down -----

  /** A queued shutdownInLoop half-closes unless the channel is writing; nothing undoes it. */
  lemma ShutdownInLoopHalfCloses(c: Conn, a: Action, r: Repairs)
    requires c.out.Valid()
    ensures var c' := Step(c, a, r);
            && (a.ShutdownInLoop? && c.queued > 0 ==>
                  c'.queued == c.queued - 1 && (c'.halfClosed <==> c.halfClosed || !c.writing))
            && (a.Shutdown? && c.state.Connected? ==> c'.queued == c.queued + 1)
            && (!a.Shutdown? && !a.ShutdownInLoop? ==> c'.queued == c.queued)
            && (c.halfClosed ==> c'.halfClosed)
  {
  }

  /** So a shutdown of a connection with nothing to write half-closes it once its functor has run. */
  lemma ShutdownHalfCloses(c: Conn, r: Repairs)
    requires c.out.Valid() && c.state.Connected? && !c.writing
    ensures Step(c, Shutdown, r).out.Valid()
    ensures var c' := Step(Step(c, Shutdown, r), ShutdownInLoop, r); c'.state.Disconnecting? && c'.halfClosed
  {
  }

  /** No other way leads out of disconnecting than closing. */
  lemma {:induction false} StaysDisconnecting(c: Conn, actions: seq<Action>, r: Repairs)
    requires c.out.Valid() && c.state.Disconnecting?
    ensures var c' := Run(c, actions, r); c'.clean ==> c'.state.Disconnecting?
    decreases |actions|
  {
    if actions != [] {
      StepKeepsBuffer(c, actions[0], r);
      ConnectionStates(c, actions[0], r);
      SocketReceives(c, actions[0], r);
      if actions[0].Close? {
        StaysUnclean(Step(c, actions[0], r), actions[1..], r);
      } else {
        StaysDisconnecting(Step(c, actions[0], r), actions[1..], r);
      }
    }
  }

  lemma {:induction false} StaysUnclean(c: Conn, actions: seq<Action>, r: Repairs)
    requires c.out.Valid() && !c.clean
    ensures !Run(c, actions, r).clean
    decreases |actions|
  {
    if actions != [] {
      StepKeepsBuffer(c, actions[0], r);
      SocketReceives(c, actions[0], r);
      StaysUnclean(Step(c, actions[0], r), actions[1..], r);
    }
  }

  // ----- as written -----

  /** There is never a backlog, and writing is never enabled. */
  predicate NoBacklog(c: Conn) {
    c.out.data == [] && !c.writing
  }

  /** How much of a message reaches the socket as written: what the one write takes. */
  function Kept(c: Conn, a: Action): seq<byte> {
    if a.SendInLoop? && !c.state.Disconnected? then a.message[..a.io.Count(|a.message|)] else []
  }

  function HandedBy(c: Conn, a: Action): seq<byte> {
    if a.SendInLoop? && !c.state.Disconnected? then a.message else []
  }

  /** As written, every step keeps the buffer empty and the channel not writing, and a message contributes
      one prefix to the socket: the bytes its single write took. The rest is dropped. */
  lemma AsWrittenStep(c: Conn, a: Action)
    requires c.out.Valid() && NoBacklog(c)
    ensures var c' := Step(c, a, AS_WRITTEN);
            NoBacklog(c') && c'.socket == c.socket + Kept(c, a) && c'.handed == c.handed + HandedBy(c, a)
  {
  }

  /** Every message of the run was taken by one write. */
  predicate AllWrittenAtOnce(c: Conn, actions: seq<Action>)
    requires c.out.Valid()
    decreases |actions|
  {
    StepKeepsBufferFor(c, actions, AS_WRITTEN);
    actions != [] ==>
      Kept(c, actions[0]) == HandedBy(c, actions[0])
      && AllWrittenAtOnce(Step(c, actions[0], AS_WRITTEN), actions[1..])
  }

  lemma StepKeepsBufferFor(c: Conn, actions: seq<Action>, r: Repairs)
    requires c.out.Valid()
    ensures actions != [] ==> Step(c, actions[0], r).out.Valid()
  {
    if actions != [] {
      StepKeepsBuffer(c, actions[0], r);
    }
  }

  /** As written, in every run: no backlog, and the socket has received all that was handed over if and only
      if each single write took its whole message. */
  lemma {:induction false} AsWrittenDeliversIffWritesAreComplete(c: Conn, actions: seq<Action>)
    requires c.out.Valid() && NoBacklog(c) && |c.socket| <= |c.handed|
    ensures var c' := Run(c, actions, AS_WRITTEN);
            && NoBacklog(c')
            && |c.handed| - |c.socket| <= |c'.handed| - |c'.socket|
            && (|c.handed| - |c.socket| == |c'.handed| - |c'.socket| <==> AllWrittenAtOnce(c, actions))
            && (c.socket == c.handed ==> (c'.socket == c'.handed <==> AllWrittenAtOnce(c, actions)))
    decreases |actions|
  {
    if actions != [] {
      AsWrittenStep(c, actions[0]);
      AsWrittenDeliversIffWritesAreComplete(Step(c, actions[0], AS_WRITTEN), actions[1..]);
    }
  }

  // ----- repaired -----

  /** While the connection is clean: no byte is lost or reordered between the messages and the socket, and a
      backlog is always waiting to be written. */
  ghost predicate Delivers(c: Conn) {
    && c.out.Valid()
    && (c.clean ==> c.socket + c.out.data == c.handed)
    && (c.clean ==> (c.writing <==> c.out.data != []))
    && (c.clean && c.state.Disconnecting? && c.queued == 0 ==> c.halfClosed || c.writing)
    && (c.state.Disconnected? ==> !c.clean)
  }

  /** Bytes that follow those already accounted for join the backlog. */
  lemma EnqueueDelivers(c: Conn, rest: seq<byte>)
    requires c.out.Valid() && rest != []
    requires c.clean ==> c.socket + c.out.data + rest == c.handed
    requires c.state.Disconnected? ==> !c.clean
    ensures Delivers(Enqueue(c, rest, REPAIRED))
  {
  }

  lemma DirectSendDelivers(c: Conn, message: seq<byte>, io: Write)
    requires Delivers(c) && !c.state.Disconnected? && WritesDirectly(c)
    ensures Delivers(Send(c, message, io, REPAIRED))
  {
    var n := io.Count(|message|);
    var c' := c.(socket := c.socket + message[..n], handed := c.handed + message, clean := c.clean && !io.Broken?);
    assert c.socket + message[..n] + c.out.data + message[n..] == c.socket + message;
    if !io.Broken? && n < |message| {
      EnqueueDelivers(c', message[n..]);
    }
  }

  lemma RepairedSendDelivers(c: Conn, message: seq<byte>, io: Write)
    requires Delivers(c)
    ensures Delivers(Send(c, message, io, REPAIRED))
  {
    if !c.state.Disconnected? && WritesDirectly(c) {
      DirectSendDelivers(c, message, io);
    }
  }

  lemma RepairedWriteDelivers(c: Conn, io: Write)
    requires Delivers(c)
    ensures Delivers(WriteOut(c, io))
  {
  }

  /** One step of the repaired path delivers, and half-closes only after all that was handed over has
      reached the socket. */
  lemma RepairedStep(c: Conn, a: Action)
    requires Delivers(c)
    ensures var c' := Step(c, a, REPAIRED);
            && Delivers(c')
            && (c'.clean && c'.halfClosed && !c.halfClosed ==> c'.out.data == [] && c'.socket == c'.handed)
  {
    match a
    case SendInLoop(message, io) => RepairedSendDelivers(c, message, io);
    case HandleWrite(io) => RepairedWriteDelivers(c, io);
    case _ =>
  }

  lemma {:induction false} RepairedRunKeeps(c: Conn, actions: seq<Action>)
    requires Delivers(c)
    ensures Delivers(Run(c, actions, REPAIRED))
    decreases |actions|
  {
    if actions != [] {
      RepairedStep(c, actions[0]);
      RepairedRunKeeps(Step(c, actions[0], REPAIRED), actions[1..]);
    }
  }

  /** In every run of the repaired path, under arbitrary short writes: until a fault or disconnect, the
      socket's bytes followed by the backlog are the messages in order; a backlog implies that writing is
      enabled; and a shutdown that has been asked for is done or will follow the backlog. */
  lemma RepairedRunDelivers(c: Conn, actions: seq<Action>)
    requires Delivers(c)
    ensures var c' := Run(c, actions, REPAIRED);
            && Delivers(c')
            && (c'.clean ==> c'.socket + c'.out.data == c.handed + AllMessages(actions))
  {
    RepairedRunKeeps(c, actions);
    RunHandsOver(c, actions, REPAIRED);
  }

  /** Once a connected connection has been shut down, and as long as it stays clean, it is half-closed as soon as
      the functor has run and the backlog is empty, and never before all messages are in the socket. */
  lemma ShutdownIsNotForgotten(c: Conn, actions: seq<Action>)
    requires Delivers(c) && c.state.Connected?
    ensures var c' := Run(c, [Shutdown] + actions, REPAIRED);
            c'.clean && c'.queued == 0 && c'.out.data == [] ==>
              c'.halfClosed && c'.socket == c.handed + AllMessages(actions)
  {
    var c1 := Step(c, Shutdown, REPAIRED);
    assert ([Shutdown] + actions)[1..] == actions;
    RepairedStep(c, Shutdown);
    RepairedRunDelivers(c1, actions);
    StaysDisconnecting(c1, actions, REPAIRED);
  }

  /** The bytes handed over before the half-close have all been accepted by then: wherever in the run it
      happens, everything handed over up to that step is in the socket. */
  lemma HalfCloseFollowsBacklog(actions: seq<Action>, a: Action)
    ensures var c := Run(INITIAL, actions, REPAIRED);
            && c.out.Valid()
            && var c' := Step(c, a, REPAIRED);
               c'.clean && c'.halfClosed && !c.halfClosed ==> c'.socket == AllMessages(actions) && c'.out.data == []
  {
    RepairedRunDelivers(INITIAL, actions);
    RunHandsOver(INITIAL, actions, REPAIRED);
    var c := Run(INITIAL, actions, REPAIRED);
    SocketReceives(c, a, REPAIRED);
    RepairedStep(c, a);
  }

  /** One write that takes the whole backlog completes the delivery, and the half-close if it was waiting
      for that. */
  lemma DrainingCompletes(c: Conn, n: nat)
    requires Delivers(c) && c.clean && c.writing && n >= |c.out.data|
    ensures var c' := WriteOut(c, Wrote(n));
            c'.socket == c'.handed && !c'.writing && (c.state.Disconnecting? ==> c'.halfClosed)
  {
  }

  // ----- neither repair is enough alone -----

  /** The message of the inputs that reach the two states. */
  const ONE_BYTE: seq<byte> := [7]

  const APPEND_ONLY := Repairs(AppendAdvances, false)
  const ENABLE_ONLY := Repairs(AppendKeepsIndex, true)

  /** A backlog that the channel does not wait to write. */
  ghost predicate Stranded(c: Conn) {
    c.out.Valid() && c.out.data != [] && !c.writing
  }

  lemma StrandedStep(c: Conn, a: Action)
    requires Stranded(c)
    ensures var c' := Step(c, a, APPEND_ONLY); Stranded(c') && c'.socket == c.socket && c.out.data <= c'.out.data
  {
    if a.SendInLoop? && a.message != [] {
      assert a.message[0..] == a.message;
      PutIsAQueueOperation(c.out, a.message, AppendAdvances);
      assert [] + Append(c.out, a.message, AppendAdvances).data == c.out.data + a.message;
    }
  }

  /** With an append that advances but reading enabled instead of writing, a backlog is never written: in every
      continuation the socket receives nothing more and the backlog only grows. */
  lemma {:induction false} AdvancingAloneStrands(c: Conn, actions: seq<Action>)
    requires Stranded(c)
    ensures var c' := Run(c, actions, APPEND_ONLY); Stranded(c') && c'.socket == c.socket && c.out.data <= c'.out.data
    decreases |actions|
  {
    if actions != [] {
      StrandedStep(c, actions[0]);
      AdvancingAloneStrands(Step(c, actions[0], APPEND_ONLY), actions[1..]);
    }
  }

  /** One short write gets it there. */
  lemma ShortWriteStrands()
    ensures var c := Run(INITIAL, [Establish, SendInLoop(ONE_BYTE, WouldBlock)], APPEND_ONLY);
            Stranded(c) && c.clean && c.socket == [] && c.handed == ONE_BYTE
  {
    RunOfTwo(INITIAL, Establish, SendInLoop(ONE_BYTE, WouldBlock), APPEND_ONLY);
  }

  /** The channel waits to write, with nothing to write. */
  ghost predicate Spinning(c: Conn) {
    c.out.Valid() && c.out.data == [] && c.writing
  }

  lemma SpinningStep(c: Conn, a: Action)
    requires Spinning(c) && !a.Close?
    ensures var c' := Step(c, a, ENABLE_ONLY); Spinning(c') && c'.socket == c.socket && c'.halfClosed == c.halfClosed
  {
  }

  /** With writing enabled but an append that keeps nothing, the channel writes for ever with nothing to write:
      until the connection is closed nothing more reaches the socket and no shutdown takes place. */
  lemma {:induction false} EnablingAloneSpins(c: Conn, actions: seq<Action>)
    requires Spinning(c) && Close !in actions
    ensures var c' := Run(c, actions, ENABLE_ONLY);
            Spinning(c') && c'.socket == c.socket && c'.halfClosed == c.halfClosed
    decreases |actions|
  {
    if actions != [] {
      SpinningStep(c, actions[0]);
      EnablingAloneSpins(Step(c, actions[0], ENABLE_ONLY), actions[1..]);
    }
  }

  lemma ShortWriteSpins()
    ensures var c := Run(INITIAL, [Establish, SendInLoop(ONE_BYTE, WouldBlock)], ENABLE_ONLY);
            Spinning(c) && c.clean && c.socket == [] && c.handed == ONE_BYTE && !c.halfClosed
  {
    RunOfTwo(INITIAL, Establish, SendInLoop(ONE_BYTE, WouldBlock), ENABLE_ONLY);
  }

  lemma RunOfTwo(c: Conn, a: Action, b: Action, r: Repairs)
    requires c.out.Valid()
    ensures Step(c, a, r).out.Valid() && Run(c, [a, b], r) == Step(Step(c, a, r), b, r)
  {
    StepKeepsBuffer(c, a, r);
    var c1 := Step(c, a, r);
    StepKeepsBuffer(c1, b, r);
    assert [a, b][1..] == [b] && [b][1..] == [];
    assert Run(c1, [b], r) == Run(Step(c1, b, r), [], r);
  }
}
