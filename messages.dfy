/** The message type shared by the queue and the tasks that feed it. */
module Messages {
  newtype uint8 = x: int | 0 <= x < 0x100
  newtype uint32 = x: int | 0 <= x < 0x1_0000_0000

  /** Four bytes, the shape of a message's `dataArray` and of the PIN and marker arrays. */
  type Quad = s: seq<uint8> | |s| == 4 witness [0, 0, 0, 0]

  /** A queued message: what it reports (`taskId`) and four payload bytes. Copied by value. */
  datatype Message = Message(taskId: uint32, dataArray: Quad)

  /** The `taskId` of each message, in order. */
  function Kinds(out: seq<Message>): (r: seq<uint32>)
    ensures |r| == |out|
    ensures forall i :: 0 <= i < |out| ==> r[i] == out[i].taskId
  {
    if out == [] then [] else [out[0].taskId] + Kinds(out[1..])
  }

  /** Concatenation regroups freely. */
  lemma Assoc<T>(a: seq<T>, b: seq<T>, c: seq<T>)
    ensures (a + b) + c == a + (b + c)
  {
  }
}
