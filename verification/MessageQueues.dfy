/** The circular buffer of a message queue. */
module MessageQueues {
  import opened Processes

  /** The slot i places behind slot r, around the end. */
  function Slot(r: nat, i: nat, n: nat): int { if r + i < n then r + i else r + i - n }

  ghost predicate QueueOk(q: Queue) {
    && q.capacity > 0 && |q.messages| == q.capacity && q.length <= q.capacity
    && q.readIndex < q.capacity && q.writeIndex == Slot(q.readIndex, q.length, q.capacity)
  }

  /** The messages in a queue, oldest first. */
  ghost function Contents(q: Queue): (c: seq<int>)
    requires QueueOk(q)
    ensures |c| == q.length
  {
    seq(q.length, i requires 0 <= i < q.length => q.messages[Slot(q.readIndex, i, q.capacity)])
  }

  /** process_queue_raw_write. */
  function RawWrite(q: Queue, message: int): Queue
    requires q.writeIndex < |q.messages|
  {
    q.(messages := q.messages[q.writeIndex := message],
       writeIndex := if q.writeIndex + 1 == q.capacity then 0 else q.writeIndex + 1, length := q.length + 1)
  }

  /** process_queue_raw_read. */
  function RawRead(q: Queue): Queue
    requires q.length > 0
  {
    q.(readIndex := if q.readIndex + 1 == q.capacity then 0 else q.readIndex + 1, length := q.length - 1)
  }

  function EmptyQueue(q: Queue): Queue { q.(length := 0, readIndex := 0, writeIndex := 0) }

  lemma WriteAppends(q: Queue, message: int)
    requires QueueOk(q) && q.length < q.capacity
    ensures QueueOk(RawWrite(q, message)) && Contents(RawWrite(q, message)) == Contents(q) + [message]
  {
  }

  lemma ReadTakesFirst(q: Queue)
    requires QueueOk(q) && q.length > 0
    ensures QueueOk(RawRead(q)) && Contents(q) == [q.messages[q.readIndex]] + Contents(RawRead(q))
  {
    var q' := RawRead(q);
    forall i | 0 <= i < q'.length
      ensures Contents(q')[i] == Contents(q)[i + 1]
    {
      assert Slot(q'.readIndex, i, q.capacity) == Slot(q.readIndex, i + 1, q.capacity);
    }
  }
}
