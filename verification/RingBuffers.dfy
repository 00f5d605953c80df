/** The ring of slot indices a mailbox keeps: what its window is, and how a push and a pop change it. */
module RingBuffers {
  /** `queue` is the malloc'ed block; after `free` it is empty. */
  datatype SlotQueue = SlotQueue(queue: seq<nat>, capacity: nat, head: nat, tail: nat, count: nat)

  ghost predicate RingOk(q: SlotQueue) {
    && q.count <= |q.queue|
    && (|q.queue| > 0 ==> |q.queue| == q.capacity && q.head < q.capacity && q.tail == (q.head + q.count) % q.capacity)
  }

  ghost function Window(q: SlotQueue): (window: seq<nat>)
    requires RingOk(q)
    ensures |window| == q.count
  {
    seq(q.count, i requires 0 <= i < q.count => q.queue[Wrap(q.head + i, q.capacity)])
  }

  ghost function Windows(queues: seq<SlotQueue>): seq<seq<nat>>
    requires forall m :: 0 <= m < |queues| ==> RingOk(queues[m])
  {
    seq(|queues|, m requires 0 <= m < |queues| => Window(queues[m]))
  }

  ghost function Wrap(x: nat, n: nat): (i: nat)
    requires x < 2 * n
    ensures i < n
  {
    if x < n then x else x - n
  }

  lemma ModIsWrap(x: nat, n: nat)
    requires 0 < n && x < 2 * n
    ensures x % n == Wrap(x, n)
  {
    if x >= n {
      assert x == n * 1 + (x - n);
      assert x / n == 1;
    }
  }

  function Push(q: SlotQueue, s: nat): SlotQueue
    requires q.tail < |q.queue| && q.capacity > 0
  {
    q.(queue := q.queue[q.tail := s], tail := (q.tail + 1) % q.capacity, count := q.count + 1)
  }

  function Pop(q: SlotQueue): SlotQueue
    requires q.count > 0 && q.capacity > 0
  {
    q.(head := (q.head + 1) % q.capacity, count := q.count - 1)
  }

  lemma WindowAt(q: SlotQueue, i: nat)
    requires RingOk(q) && i < q.count
    ensures Window(q)[i] == q.queue[Wrap(q.head + i, q.capacity)]
  {}

  /** The next free place of a ring that is not full holds none of its elements. */
  lemma PushWindow(q: SlotQueue, s: nat)
    requires RingOk(q) && q.count < |q.queue|
    ensures q.tail < |q.queue| && q.capacity > 0
    ensures RingOk(Push(q, s)) && Window(Push(q, s)) == Window(q) + [s]
  {
    var n := q.capacity;
    ModIsWrap(q.head + q.count, n);
    ModIsWrap(q.tail + 1, n);
    ModIsWrap(q.head + (q.count + 1), n);
    var q' := Push(q, s);
    forall i: nat | i < q'.count ensures Window(q')[i] == (Window(q) + [s])[i] {
      WindowAt(q', i);
      if i < q.count { WindowAt(q, i); }
    }
  }

  lemma PopWindow(q: SlotQueue)
    requires RingOk(q) && q.count > 0
    ensures q.capacity > 0 && q.head < |q.queue| && q.queue[q.head] == Window(q)[0]
    ensures RingOk(Pop(q)) && Window(Pop(q)) == Window(q)[1..]
  {
    var n := q.capacity;
    WindowAt(q, 0);
    ModIsWrap(q.head + q.count, n);
    ModIsWrap(q.head + 1, n);
    var q' := Pop(q);
    ModIsWrap(q'.head + q'.count, n);
    forall i: nat | i < q'.count ensures Window(q')[i] == Window(q)[1..][i] {
      WindowAt(q', i);
      WindowAt(q, i + 1);
    }
  }
}
