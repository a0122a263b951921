/**
 * The bounded message queue: a ring of BUF_SIZE slots with a read index `front`
 * and a write index `back`, guarded by two counting semaphores (free slots and
 * filled slots) and a mutex. Semaphores are counters; a pend that would block
 * is a precondition of the operation that performs it.
 */
module Buffer {
  import opened Messages

  const BUF_SIZE: nat := 4

  class MessageBuffer {
    const buffer: array<Message>
    var front: nat
    var back: nat
    var bufMutex: int
    var emptySlot: int
    var fullSlot: int
    /** The queued messages, oldest first. */
    ghost var Contents: seq<Message>

    /** The shape of the ring: BUF_SIZE slots, both indices inside it. */
    ghost predicate Ring()
      reads this
    {
      buffer.Length == BUF_SIZE && front < BUF_SIZE && back < BUF_SIZE
    }

    /** `Contents` is read from `front`, and `back` is where the next message goes. */
    ghost predicate Valid()
      reads this, buffer
    {
      Ring() && |Contents| <= BUF_SIZE &&
      back == (front + |Contents|) % BUF_SIZE &&
      Holds(buffer[..], front, Contents)
    }

    /** The semaphore counts agree with the number of queued messages and the mutex is free. */
    ghost predicate Synced()
      reads this
    {
      bufMutex == 1 && fullSlot == |Contents| && emptySlot == BUF_SIZE - |Contents|
    }

    /** Static storage: zeroed slots and indices; the semaphores are not created yet. */
    constructor ()
      ensures Valid() && Contents == [] && front == 0 && back == 0
      ensures bufMutex == 0 && emptySlot == 0 && fullSlot == 0
      ensures forall k :: 0 <= k < BUF_SIZE ==> buffer[k] == Message(0, [0, 0, 0, 0])
      ensures fresh(buffer)
    {
      buffer := new Message[BUF_SIZE](_ => Message(0, [0, 0, 0, 0]));
      front, back := 0, 0;
      bufMutex, emptySlot, fullSlot := 0, 0, 0;
      Contents := [];
    }

    /** Creates the mutex (1), the free-slot semaphore (BUF_SIZE) and the filled-slot semaphore (0). */
    method BufferSaveInit()
      modifies this`bufMutex, this`emptySlot, this`fullSlot
      ensures bufMutex == 1 && emptySlot == BUF_SIZE && fullSlot == 0
      ensures Contents == [] ==> Synced()
    {
      bufMutex := 1;
      emptySlot := BUF_SIZE;
      fullSlot := 0;
    }

    /** Writes a copy of `msg` at `back` and advances `back`; nothing else changes. */
    method PutBuffer(msg: Message)
      requires Ring()
      modifies this`back, buffer
      ensures Ring() && front == old(front)
      ensures back == (old(back) + 1) % BUF_SIZE
      ensures buffer[..] == old(buffer[..])[old(back) := msg]
    {
      buffer[back] := msg;
      back := (back + 1) % BUF_SIZE;
    }

    /** Reads the slot at `front` and advances `front`; the slots and `back` are unchanged. */
    method GetBuffer() returns (msg: Message)
      requires Ring()
      modifies this`front
      ensures Ring() && msg == buffer[old(front)]
      ensures front == (old(front) + 1) % BUF_SIZE
    {
      msg := buffer[front];
      front := (front + 1) % BUF_SIZE;
    }

    /** Blocking put: needs a free-slot permit; appends `msg` to the queue. */
    method PutBufferSave(msg: Message)
      requires Valid() && Synced() && emptySlot > 0
      modifies this, buffer
      ensures Valid() && Synced()
      ensures Contents == old(Contents) + [msg]
      ensures emptySlot == old(emptySlot) - 1 && fullSlot == old(fullSlot) + 1
    {
      ghost var q := Contents;
      HoldsAfterPut(buffer[..], front, q, msg);
      emptySlot := emptySlot - 1;   // pend on emptySlot
      bufMutex := bufMutex - 1;     // pend on bufMutex
      PutBuffer(msg);
      bufMutex := bufMutex + 1;     // post bufMutex
      fullSlot := fullSlot + 1;     // post fullSlot
      RingStep(front + |q|, 1);
      Contents := q + [msg];
    }

    /** Blocking get: needs a filled-slot permit; removes and returns the oldest message. */
    method GetBufferSave() returns (msg: Message)
      requires Valid() && Synced() && fullSlot > 0
      modifies this
      ensures Valid() && Synced()
      ensures msg == old(Contents)[0] && Contents == old(Contents)[1..]
      ensures fullSlot == old(fullSlot) - 1 && emptySlot == old(emptySlot) + 1
    {
      HoldsAfterGet(buffer[..], front, Contents);
      RingStep(front + 1, |Contents| - 1);
      fullSlot := fullSlot - 1;     // pend on fullSlot
      bufMutex := bufMutex - 1;     // pend on bufMutex
      msg := GetBuffer();
      bufMutex := bufMutex + 1;     // post bufMutex
      emptySlot := emptySlot + 1;   // post emptySlot
      Contents := Contents[1..];
    }
  }

  /** Reading `q` out of `slots` from index `front` on, round the ring. */
  ghost predicate Holds(slots: seq<Message>, front: nat, q: seq<Message>)
    requires |slots| == BUF_SIZE
  {
    forall k :: 0 <= k < |q| ==> q[k] == slots[(front + k) % BUF_SIZE]
  }

  /** A queued slot is never the slot `back` points at while the ring is not full. */
  lemma SlotsDiffer(front: nat, k: nat, count: nat)
    requires front < BUF_SIZE && k < count < BUF_SIZE
    ensures (front + k) % BUF_SIZE != (front + count) % BUF_SIZE
  {
  }

  /** Reducing an index before stepping `b` slots lands on the same slot. */
  lemma RingStep(a: nat, b: nat)
    ensures (a % BUF_SIZE + b) % BUF_SIZE == (a + b) % BUF_SIZE
  {
  }

  /** Writing `msg` at the slot after the queued ones keeps them and queues `msg` last. */
  lemma HoldsAfterPut(slots: seq<Message>, front: nat, q: seq<Message>, msg: Message)
    requires |slots| == BUF_SIZE && front < BUF_SIZE && |q| < BUF_SIZE && Holds(slots, front, q)
    ensures Holds(slots[(front + |q|) % BUF_SIZE := msg], front, q + [msg])
  {
    var after := slots[(front + |q|) % BUF_SIZE := msg];
    forall k | 0 <= k < |q| + 1
      ensures (q + [msg])[k] == after[(front + k) % BUF_SIZE]
    {
      if k < |q| {
        SlotsDiffer(front, k, |q|);
      }
    }
  }

  /** Taking the slot at `front` leaves the rest read from the next slot on. */
  lemma HoldsAfterGet(slots: seq<Message>, front: nat, q: seq<Message>)
    requires |slots| == BUF_SIZE && front < BUF_SIZE && 0 < |q| && Holds(slots, front, q)
    ensures q[0] == slots[front] && Holds(slots, (front + 1) % BUF_SIZE, q[1..])
  {
    assert q[0] == slots[(front + 0) % BUF_SIZE];
    forall k | 0 <= k < |q| - 1
      ensures q[1..][k] == slots[((front + 1) % BUF_SIZE + k) % BUF_SIZE]
    {
      assert q[1..][k] == q[k + 1];
      RingStep(front + 1, k);
    }
  }

  // ---------------------------------------------------------------------------
  // The queue as a sequence of blocking operations.

  datatype Op = Put(msg: Message) | Get

  /** Each operation of `ops`, applied in turn to a queue holding `q`, finds its permit. */
  predicate Runs(q: seq<Message>, ops: seq<Op>)
    decreases |ops|
  {
    ops == [] ||
    match ops[0]
    case Put(m) => |q| < BUF_SIZE && Runs(q + [m], ops[1..])
    case Get => |q| > 0 && Runs(q[1..], ops[1..])
  }

  /** What is left in the queue and what the gets returned, in order. */
  datatype Outcome = Outcome(remaining: seq<Message>, delivered: seq<Message>)

  /** Applies `ops` as PutBufferSave and GetBufferSave do to `Contents`. */
  function Run(q: seq<Message>, ops: seq<Op>): Outcome
    requires Runs(q, ops)
    decreases |ops|
  {
    if ops == [] then Outcome(q, [])
    else match ops[0]
      case Put(m) => Run(q + [m], ops[1..])
      case Get =>
        var r := Run(q[1..], ops[1..]);
        Outcome(r.remaining, [q[0]] + r.delivered)
  }

  /** The messages put by `ops`, in order. */
  function Puts(ops: seq<Op>): seq<Message>
    decreases |ops|
  {
    if ops == [] then []
    else (match ops[0] case Put(m) => [m] case Get => []) + Puts(ops[1..])
  }

  /** The number of gets in `ops`. */
  function Gets(ops: seq<Op>): nat
    decreases |ops|
  {
    if ops == [] then 0 else (if ops[0].Get? then 1 else 0) + Gets(ops[1..])
  }

  /**
   * FIFO: whatever was queued, followed by everything put, is exactly what was
   * delivered followed by what remains.
   */
  lemma {:induction false} RunIsFifo(q: seq<Message>, ops: seq<Op>)
    requires Runs(q, ops)
    ensures q + Puts(ops) == Run(q, ops).delivered + Run(q, ops).remaining
    decreases |ops|
  {
    if ops != [] {
      var t := ops[1..];
      if ops[0].Put? {
        RunIsFifo(q + [ops[0].msg], t);
        FifoPut(q, ops);
      } else {
        RunIsFifo(q[1..], t);
        FifoGet(q, ops);
      }
    }
  }

  /** The step of RunIsFifo for a put: the message joins the back of the queue. */
  lemma FifoPut(q: seq<Message>, ops: seq<Op>)
    requires ops != [] && ops[0].Put? && Runs(q, ops)
    requires var r := Run(q + [ops[0].msg], ops[1..]); (q + [ops[0].msg]) + Puts(ops[1..]) == r.delivered + r.remaining
    ensures q + Puts(ops) == Run(q, ops).delivered + Run(q, ops).remaining
  {
    var m, t := ops[0].msg, ops[1..];
    assert Puts(ops) == [m] + Puts(t);
    Assoc(q, [m], Puts(t));
  }

  /** The step of RunIsFifo for a get: the front message is delivered first. */
  lemma FifoGet(q: seq<Message>, ops: seq<Op>)
    requires ops != [] && ops[0].Get? && Runs(q, ops)
    requires var r := Run(q[1..], ops[1..]); q[1..] + Puts(ops[1..]) == r.delivered + r.remaining
    ensures q + Puts(ops) == Run(q, ops).delivered + Run(q, ops).remaining
  {
    var t := ops[1..];
    var r := Run(q[1..], t);
    assert Run(q, ops) == Outcome(r.remaining, [q[0]] + r.delivered);
    assert Puts(ops) == Puts(t);
    assert q == [q[0]] + q[1..];
    Assoc([q[0]], q[1..], Puts(t));
    Assoc([q[0]], r.delivered, r.remaining);
  }

  /** One message is delivered per get, and never more than BUF_SIZE are left queued. */
  lemma {:induction false} RunCounts(q: seq<Message>, ops: seq<Op>)
    requires |q| <= BUF_SIZE && Runs(q, ops)
    ensures |Run(q, ops).delivered| == Gets(ops)
    ensures |Run(q, ops).remaining| <= BUF_SIZE
    decreases |ops|
  {
    if ops != [] {
      if ops[0].Put? {
        RunCounts(q + [ops[0].msg], ops[1..]);
      } else {
        RunCounts(q[1..], ops[1..]);
      }
    }
  }

  /** `n` puts on an empty queue followed by `n` gets return the `n` messages in put order. */
  lemma PutsThenGets(ms: seq<Message>)
    requires |ms| <= BUF_SIZE
    ensures Runs([], PutAll(ms) + GetAll(|ms|))
    ensures Run([], PutAll(ms) + GetAll(|ms|)) == Outcome([], ms)
  {
    FillThenDrain([], ms);
  }

  function PutAll(ms: seq<Message>): (ops: seq<Op>)
    ensures |ops| == |ms| && forall i :: 0 <= i < |ms| ==> ops[i] == Put(ms[i])
  {
    if ms == [] then [] else [Put(ms[0])] + PutAll(ms[1..])
  }

  function GetAll(n: nat): (ops: seq<Op>)
    ensures |ops| == n && forall i :: 0 <= i < n ==> ops[i] == Get
  {
    if n == 0 then [] else [Get] + GetAll(n - 1)
  }

  lemma {:induction false} Drain(q: seq<Message>)
    ensures Runs(q, GetAll(|q|)) && Run(q, GetAll(|q|)) == Outcome([], q)
    decreases |q|
  {
    if q != [] {
      Drain(q[1..]);
      assert GetAll(|q|)[1..] == GetAll(|q[1..]|);
    }
  }

  lemma {:induction false} FillThenDrain(q: seq<Message>, ms: seq<Message>)
    requires |q| + |ms| <= BUF_SIZE
    ensures Runs(q, PutAll(ms) + GetAll(|q| + |ms|))
    ensures Run(q, PutAll(ms) + GetAll(|q| + |ms|)) == Outcome([], q + ms)
    decreases |ms|
  {
    var ops := PutAll(ms) + GetAll(|q| + |ms|);
    if ms == [] {
      assert ops == GetAll(|q|);
      Drain(q);
    } else {
      var m := ms[0];
      var rest := PutAll(ms[1..]) + GetAll(|q + [m]| + |ms[1..]|);
      FillThenDrain(q + [m], ms[1..]);
      Assoc([Put(m)], PutAll(ms[1..]), GetAll(|q| + |ms|));
      assert ops == [Put(m)] + rest;
      assert ops[0] == Put(m) && ops[1..] == rest;
      Assoc(q, [m], ms[1..]);
      assert [m] + ms[1..] == ms;
    }
  }

  /**
   * Runs `ops` on a live queue, one PutBufferSave or GetBufferSave each; the
   * queue ends holding what Run leaves and the gets return what Run delivers.
   */
  method Perform(b: MessageBuffer, ops: seq<Op>) returns (delivered: seq<Message>)
    requires b.Valid() && b.Synced() && Runs(b.Contents, ops)
    modifies b, b.buffer
    ensures b.Valid() && b.Synced()
    ensures b.Contents == Run(old(b.Contents), ops).remaining
    ensures delivered == Run(old(b.Contents), ops).delivered
  {
    ghost var q0 := b.Contents;
    delivered := [];
    var i := 0;
    while i < |ops|
      invariant i <= |ops|
      invariant b.Valid() && b.Synced() && Runs(b.Contents, ops[i..])
      invariant var r := Run(b.Contents, ops[i..]);
        Run(q0, ops) == Outcome(r.remaining, delivered + r.delivered)
    {
      assert ops[i..][0] == ops[i] && ops[i..][1..] == ops[i + 1..];
      match ops[i] {
        case Put(m) =>
          b.PutBufferSave(m);
        case Get =>
          ghost var q := b.Contents;
          var m := b.GetBufferSave();
          Assoc(delivered, [m], Run(q[1..], ops[i + 1..]).delivered);
          delivered := delivered + [m];
      }
      i := i + 1;
    }
    assert ops[i..] == [];
  }

  /** A queue made and initialised as at start-up delivers exactly what Run says. */
  method FromStart(ops: seq<Op>) returns (delivered: seq<Message>)
    requires Runs([], ops)
    ensures delivered == Run([], ops).delivered
  {
    var b := new MessageBuffer();
    b.BufferSaveInit();
    delivered := Perform(b, ops);
  }
}
