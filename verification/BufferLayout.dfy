/** The byte buffer as a value: how large the vector is, where the readable bytes begin, and what they are. */
module BufferLayout {

  newtype byte = x: int | 0 <= x < 256

  const CHEAP_PREPEND := 8
  const INITIAL_SIZE := 1024
  const EXTRA_SIZE := 65536

  /** Whether append moves the writer index past the bytes it has copied. As written it does not. */
  datatype AppendVariant = AppendKeepsIndex | AppendAdvances

  datatype Layout = Layout(size: nat, reader: nat, data: seq<byte>) {
    ghost predicate Valid() {
      CHEAP_PREPEND <= reader && reader + |data| <= size
    }

    function Writable(): nat
      requires reader + |data| <= size
    {
      size - reader - |data|
    }
  }

  const EMPTY := Layout(INITIAL_SIZE + CHEAP_PREPEND, CHEAP_PREPEND, [])

  function RetrieveAll(b: Layout): Layout {
    b.(reader := CHEAP_PREPEND, data := [])
  }

  function Retrieve(b: Layout, len: nat): Layout {
    if len < |b.data| then b.(reader := b.reader + len, data := b.data[len..]) else RetrieveAll(b)
  }

  /** Grow, or move the readable bytes down to the front. */
  function MakeSpace(b: Layout, len: nat): Layout
    requires b.Valid()
  {
    if b.Writable() + b.reader < len + CHEAP_PREPEND then b.(size := b.reader + |b.data| + len)
    else b.(reader := CHEAP_PREPEND)
  }

  function EnsureWritable(b: Layout, len: nat): Layout
    requires b.Valid()
  {
    if len > b.Writable() then MakeSpace(b, len) else b
  }

  function Append(b: Layout, bytes: seq<byte>, v: AppendVariant): Layout
    requires b.Valid()
  {
    var b' := EnsureWritable(b, |bytes|);
    if v.AppendAdvances? then b'.(data := b'.data + bytes) else b'
  }

  /** The most that one scatter read may deliver: the writable bytes, and the overflow area unless there
      are at least as many of them. */
  function ReadCapacity(b: Layout): nat
    requires b.Valid()
  {
    if b.Writable() < EXTRA_SIZE then b.Writable() + EXTRA_SIZE else b.Writable()
  }

  function ReadFd(b: Layout, input: seq<byte>, v: AppendVariant): Layout
    requires b.Valid()
  {
    var w := b.Writable();
    if |input| < w then b.(data := b.data + input)
    else Append(b.(data := b.data + input[..w]), input[w..], v)
  }

  /** Room is made without touching the readable bytes: not at all if there is enough; by growing in place, by just
      what is missing, exactly if the bytes free in front and behind would not suffice beside the 8 that stay in
      front; and otherwise by moving the bytes left, down to these 8. */
  lemma EnsureWritableMakesRoom(b: Layout, len: nat)
    requires b.Valid()
    ensures var b' := EnsureWritable(b, len); var free := b.size - |b.data| - 8;
            && b'.Valid() && b'.data == b.data && b'.Writable() >= len
            && (if len <= b.Writable() then b' == b
                else if free < len then b'.reader == b.reader && b'.Writable() == len && b'.size > b.size
                else b'.size == b.size && b'.reader == 8 < b.reader)
  {
  }

  /** A new buffer has 1024 bytes to write to and 8 in front. */
  lemma StartsEmpty()
    ensures EMPTY.Valid() && EMPTY.data == [] && EMPTY.reader == 8 && EMPTY.Writable() == 1024
  {
  }

  /** Taking bytes out never moves the others, and gives the whole vector back once nothing is left. */
  lemma RetrieveReclaims(b: Layout, len: nat)
    requires b.Valid()
    ensures var b' := Retrieve(b, len);
            && b'.Valid() && b'.size == b.size
            && (if len < |b.data| then b'.reader == b.reader + len && b'.data == b.data[len..]
                else b'.data == [] && b'.Writable() == b.size - 8)
  {
  }

  /** The indices stay in order, and 8 bytes stay free in front of the readable ones, whatever is done. */
  lemma IndicesInRange(b: Layout, ops: seq<Op>, v: AppendVariant)
    requires b.Valid()
    ensures var b' := RunAll(b, ops, v); 8 <= b'.reader <= b'.reader + |b'.data| <= b'.size
  {
    BytesAreConservedIffLossless(b, ops, v);
  }

  /** One scatter read may deliver 64 KiB however full the buffer is, and more if more is writable; below that it
      fills both parts. */
  lemma ReadsAtLeast64KiB(b: Layout)
    requires b.Valid()
    ensures ReadCapacity(b) >= 65536 && ReadCapacity(b) >= b.Writable()
    ensures b.Writable() < 65536 ==> ReadCapacity(b) == b.Writable() + 65536
    ensures b.Writable() >= 65536 ==> ReadCapacity(b) == b.Writable()
  {
  }

  // ----- what a sequence of operations keeps -----

  datatype Op = Take(len: nat) | Put(bytes: seq<byte>) | Read(input: seq<byte>)

  function Apply(b: Layout, op: Op, v: AppendVariant): Layout
    requires b.Valid()
  {
    match op
    case Take(len) => Retrieve(b, len)
    case Put(bytes) => Append(b, bytes, v)
    case Read(input) => ReadFd(b, input, v)
  }

  /** The bytes an operation hands to the buffer, and those it takes out. */
  function Supplied(op: Op): seq<byte> {
    match op
    case Take(_) => []
    case Put(bytes) => bytes
    case Read(input) => input
  }

  function Taken(b: Layout, op: Op): seq<byte> {
    if op.Take? then b.data[..if op.len < |b.data| then op.len else |b.data|] else []
  }

  /** The operation loses none of the bytes handed over: as written, nothing may be appended, and a read may
      not exceed the writable bytes. */
  predicate Lossless(b: Layout, op: Op, v: AppendVariant)
    requires b.Valid()
  {
    v.AppendAdvances? ||
    match op
    case Take(_) => true
    case Put(bytes) => bytes == []
    case Read(input) => |input| <= b.Writable()
  }

  /** From b to b' the operation is the same operation on a queue of bytes if and only if `lossless`; if not, the
      readable bytes fall short. */
  ghost predicate QueuesIff(b: Layout, b': Layout, taken: seq<byte>, supplied: seq<byte>, lossless: bool) {
    b'.Valid()
    && (taken + b'.data == b.data + supplied <==> lossless)
    && (!lossless ==> |taken| + |b'.data| < |b.data| + |supplied|)
  }

  lemma TakeIsAQueueOperation(b: Layout, len: nat)
    requires b.Valid()
    ensures QueuesIff(b, Retrieve(b, len), Taken(b, Take(len)), [], true)
  {
  }

  lemma PutIsAQueueOperation(b: Layout, bytes: seq<byte>, v: AppendVariant)
    requires b.Valid()
    ensures QueuesIff(b, Append(b, bytes, v), [], bytes, v.AppendAdvances? || bytes == [])
  {
    EnsureWritableMakesRoom(b, |bytes|);
    assert [] + Append(b, bytes, v).data == Append(b, bytes, v).data;
  }

  lemma ReadIsAQueueOperation(b: Layout, input: seq<byte>, v: AppendVariant)
    requires b.Valid()
    ensures QueuesIff(b, ReadFd(b, input, v), [], input, v.AppendAdvances? || |input| <= b.Writable())
  {
    var w := b.Writable();
    assert [] + ReadFd(b, input, v).data == ReadFd(b, input, v).data;
    if |input| >= w {
      var b1 := b.(data := b.data + input[..w]);
      PutIsAQueueOperation(b1, input[w..], v);
      assert [] + Append(b1, input[w..], v).data == Append(b1, input[w..], v).data;
      assert b1.data + input[w..] == b.data + input;
    }
  }

  /** One operation on the buffer is the same operation on a queue of bytes if and only if it loses none;
      if it does, the readable bytes fall short. */
  lemma ApplyIsAQueueOperation(b: Layout, op: Op, v: AppendVariant)
    requires b.Valid()
    ensures var b' := Apply(b, op, v);
            && b'.Valid()
            && (Taken(b, op) + b'.data == b.data + Supplied(op) <==> Lossless(b, op, v))
            && (!Lossless(b, op, v) ==> |Taken(b, op)| + |b'.data| < |b.data| + |Supplied(op)|)
  {
    match op
    case Take(len) => TakeIsAQueueOperation(b, len);
    case Put(bytes) => PutIsAQueueOperation(b, bytes, v);
    case Read(input) => ReadIsAQueueOperation(b, input, v);
  }

  /** As written, a read keeps the first bytes, as many as were writable, and a put keeps nothing. */
  lemma AsWrittenKeepsAPrefix(b: Layout, op: Op)
    requires b.Valid()
    ensures op.Read? ==>
              var n := if |op.input| < b.Writable() then |op.input| else b.Writable();
              Apply(b, op, AppendKeepsIndex).data == b.data + op.input[..n]
    ensures op.Put? ==> Apply(b, op, AppendKeepsIndex).data == b.data
  {
  }

  function RunAll(b: Layout, ops: seq<Op>, v: AppendVariant): Layout
    requires b.Valid()
    decreases |ops|
  {
    ApplyIsAQueueOperationFor(b, ops, v);
    if ops == [] then b else RunAll(Apply(b, ops[0], v), ops[1..], v)
  }

  lemma ApplyIsAQueueOperationFor(b: Layout, ops: seq<Op>, v: AppendVariant)
    requires b.Valid()
    ensures ops != [] ==> Apply(b, ops[0], v).Valid()
  {
  }

  function AllSupplied(ops: seq<Op>): seq<byte>
    decreases |ops|
  {
    if ops == [] then [] else Supplied(ops[0]) + AllSupplied(ops[1..])
  }

  function AllTaken(b: Layout, ops: seq<Op>, v: AppendVariant): seq<byte>
    requires b.Valid()
    decreases |ops|
  {
    ApplyIsAQueueOperationFor(b, ops, v);
    if ops == [] then [] else Taken(b, ops[0]) + AllTaken(Apply(b, ops[0], v), ops[1..], v)
  }

  predicate AllLossless(b: Layout, ops: seq<Op>, v: AppendVariant)
    requires b.Valid()
    decreases |ops|
  {
    ApplyIsAQueueOperationFor(b, ops, v);
    ops != [] ==> Lossless(b, ops[0], v) && AllLossless(Apply(b, ops[0], v), ops[1..], v)
  }

  /** Over every sequence of operations: what was taken out and what is still readable is, in order, what
      was there and what was handed over, if and only if no operation on the way lost anything. */
  lemma {:induction false} BytesAreConservedIffLossless(b: Layout, ops: seq<Op>, v: AppendVariant)
    requires b.Valid()
    ensures RunAll(b, ops, v).Valid()
    ensures AllTaken(b, ops, v) + RunAll(b, ops, v).data == b.data + AllSupplied(ops) <==> AllLossless(b, ops, v)
    ensures !AllLossless(b, ops, v) ==>
              |AllTaken(b, ops, v)| + |RunAll(b, ops, v).data| < |b.data| + |AllSupplied(ops)|
    decreases |ops|
  {
    if ops != [] {
      ApplyIsAQueueOperation(b, ops[0], v);
      var b1 := Apply(b, ops[0], v);
      BytesAreConservedIffLossless(b1, ops[1..], v);
      ChainConservation(Taken(b, ops[0]), b1.data, b.data, Supplied(ops[0]),
                        AllTaken(b1, ops[1..], v), RunAll(b1, ops[1..], v).data, AllSupplied(ops[1..]));
    }
  }

  /** If t1 + d1 is d + s1 and t2 + d2 is d1 + s2, then t1 + t2 + d2 is d + s1 + s2. */
  lemma ChainConservation(t1: seq<byte>, d1: seq<byte>, d: seq<byte>, s1: seq<byte>,
                          t2: seq<byte>, d2: seq<byte>, s2: seq<byte>)
    ensures t1 + d1 == d + s1 && t2 + d2 == d1 + s2 ==> (t1 + t2) + d2 == d + (s1 + s2)
    ensures |t1| + |d1| <= |d| + |s1| && |t2| + |d2| <= |d1| + |s2| ==> |t1 + t2| + |d2| <= |d + (s1 + s2)|
  {
    if t1 + d1 == d + s1 && t2 + d2 == d1 + s2 {
      calc {
        (t1 + t2) + d2;
        t1 + (t2 + d2);
        t1 + (d1 + s2);
        (t1 + d1) + s2;
        (d + s1) + s2;
        d + (s1 + s2);
      }
    }
  }

  /** With an append that advances, every sequence of operations is a queue of bytes. */
  lemma {:induction false} RepairedBufferIsAQueue(b: Layout, ops: seq<Op>)
    requires b.Valid()
    ensures AllLossless(b, ops, AppendAdvances)
    ensures AllTaken(b, ops, AppendAdvances) + RunAll(b, ops, AppendAdvances).data == b.data + AllSupplied(ops)
    decreases |ops|
  {
    if ops != [] {
      RepairedBufferIsAQueue(Apply(b, ops[0], AppendAdvances), ops[1..]);
    }
    BytesAreConservedIffLossless(b, ops, AppendAdvances);
  }
}
