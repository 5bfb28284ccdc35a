/** The sending half of a connection as the source has it, over the buffer it owns. */
module TcpConnections {
  import opened BufferLayout
  import Buffers
  import opened SendPath

  class TcpConnection {
    var state: ConnState
    const outputBuffer: Buffers.Buffer
    /** The channel's interest in events. */
    var reading: bool
    var writing: bool
    /** The shutdownInLoop functors queued in the loop. */
    var queued: nat
    const repairs: Repairs

    ghost var halfClosed: bool
    ghost var socket: seq<byte>
    ghost var handed: seq<byte>
    ghost var clean: bool

    ghost predicate Valid()
      reads this, outputBuffer
    {
      outputBuffer.Valid()
    }

    ghost function Value(): (c: Conn)
      requires Valid()
      reads this, outputBuffer, outputBuffer.buffer
      ensures c.out.Valid()
    {
      Conn(state, outputBuffer.Value(), reading, writing, halfClosed, queued, socket, handed, clean)
    }

    constructor (repairs: Repairs)
      ensures Valid() && Value() == INITIAL && this.repairs == repairs
      ensures fresh(outputBuffer) && fresh(outputBuffer.buffer)
    {
      state := Connecting;
      outputBuffer := new Buffers.Buffer(INITIAL_SIZE);
      reading, writing, queued := false, false, 0;
      this.repairs := repairs;
      halfClosed, socket, handed, clean := false, [], [], true;
    }

    method ConnectEstablished()
      requires Valid() && state.Connecting?
      modifies this
      ensures Valid() && Value() == Step(old(Value()), Establish, repairs)
    {
      state := Connected;
      reading := true;
    }

    method SendInLoop(message: seq<byte>, io: Write)
      requires Valid()
      modifies this, outputBuffer, outputBuffer.buffer
      ensures Valid() && Value() == Step(old(Value()), Action.SendInLoop(message, io), repairs)
      ensures outputBuffer.buffer == old(outputBuffer.buffer) || fresh(outputBuffer.buffer)
    {
      if state.Disconnected? {
        return;
      }
      var nwrote, faultError := WriteDirectly(message, io);
      var remaining := |message| - nwrote;
      if !faultError && remaining > 0 {
        Enqueue(message[nwrote..]);
      }
    }

    /** The first half of sendInLoop: one write, unless something waits to be written before. */
    method WriteDirectly(message: seq<byte>, io: Write) returns (nwrote: nat, faultError: bool)
      requires Valid()
      modifies this`socket, this`handed, this`clean
      ensures nwrote == if WritesDirectly(old(Value())) then io.Count(|message|) else 0
      ensures faultError == (WritesDirectly(old(Value())) && io.Broken?)
      ensures Valid() && Value() == old(Value()).(socket := old(socket) + message[..nwrote],
                                                  handed := old(handed) + message, clean := old(clean) && !faultError)
    {
      nwrote, faultError := 0, false;
      var readable := outputBuffer.ReadableBytes();
      if !writing && readable == 0 {
        if io.Wrote? {
          nwrote := io.Count(|message|);
        } else if io.Broken? {
          faultError := true;
        }
      }
      socket := socket + message[..nwrote];
      handed := handed + message;
      clean := clean && !faultError;
    }

    method Enqueue(rest: seq<byte>)
      requires Valid()
      modifies this`reading, this`writing, outputBuffer, outputBuffer.buffer
      ensures Valid() && Value() == SendPath.Enqueue(old(Value()), rest, repairs)
      ensures outputBuffer.buffer == old(outputBuffer.buffer) || fresh(outputBuffer.buffer)
    {
      outputBuffer.Append(rest, repairs.append);
      if !writing {
        if repairs.enablesWriting {
          writing := true;
        } else {
          reading := true;
        }
      }
    }

    method HandleWrite(io: Write)
      requires Valid()
      modifies this, outputBuffer
      ensures Valid() && Value() == Step(old(Value()), Action.HandleWrite(io), repairs)
    {
      if writing {
        var readable := outputBuffer.ReadableBytes();
        var n := io.Count(readable);
        if n > 0 {
          socket := socket + outputBuffer.Contents()[..n];
          outputBuffer.Retrieve(n);
          readable := outputBuffer.ReadableBytes();
          if readable == 0 {
            writing := false;
            if state.Disconnecting? {
              ShutdownWriteUnlessWriting();
            }
          }
        }
      }
    }

    method Shutdown()
      requires Valid()
      modifies this
      ensures Valid() && Value() == Step(old(Value()), Action.Shutdown, repairs)
    {
      if state.Connected? {
        state := Disconnecting;
        queued := queued + 1;
      }
    }

    /** The loop runs one of the queued functors. */
    method RunShutdownInLoop()
      requires Valid() && queued > 0
      modifies this
      ensures Valid() && Value() == Step(old(Value()), Action.ShutdownInLoop, repairs)
    {
      queued := queued - 1;
      ShutdownWriteUnlessWriting();
    }

    method ShutdownWriteUnlessWriting()
      requires Valid()
      modifies this`halfClosed
      ensures Valid() && Value() == HalfClose(old(Value()))
    {
      if !writing {
        halfClosed := true;
      }
    }

    method HandleClose()
      requires Valid()
      modifies this
      ensures Valid() && Value() == Step(old(Value()), Close, repairs)
    {
      state := Disconnected;
      reading, writing := false, false;
      clean := false;
    }
  }
}
