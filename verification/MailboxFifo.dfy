/**
  The abstract view of the mailbox kernel: independent queues of messages and a
  count of free slots, with no slot indices, rings or buffers.  Every slice of the
  kernel refines a step of this view.
 */
module MailboxFifo {
  import opened Wrappers
  import opened Sequences
  import opened Mailboxes
  import opened SlotLedger

  datatype Box = Box(isActive: bool, numSlots: nat, slotSize: nat, queue: seq<Message>)
  datatype Fifo = Fifo(boxes: seq<Box>, free: nat)

  ghost function Messages(slots: seq<MailSlot>, ring: seq<nat>): seq<Message>
    requires Below(ring, |slots|) && forall s :: 0 <= s < |slots| ==> SlotShape(slots[s])
  {
    seq(|ring|, i requires 0 <= i < |ring| => Content(slots[ring[i]]))
  }

  ghost function BoxView(k: Kernel, m: nat): Box
    requires Shape(k) && m < |k.boxes|
  {
    var box := k.boxes[m];
    Box(box.isActive, box.numSlots, box.slotSize, Messages(k.slots, k.rings[m]))
  }

  ghost function View(k: Kernel): Fifo
    requires Shape(k)
  {
    Fifo(seq(|k.boxes|, m requires 0 <= m < |k.boxes| => BoxView(k, m)), |k.free|)
  }

  // --- the specification ---------------------------------------------------------

  predicate Open(f: Fifo, id: int) {
    0 <= id < |f.boxes| && f.boxes[id].isActive
  }

  predicate MaySend(f: Fifo, id: int, msg: Buffer, size: int) {
    Open(f, id) && 0 <= size <= f.boxes[id].slotSize && (size > 0 ==> msg.Bytes?)
  }

  predicate IsFull(box: Box) {
    |box.queue| >= box.numSlots
  }

  /** The oldest message, whole if it fits in the receiver's buffer. */
  function Oldest(box: Box, max: int): Outcome
    requires box.queue != []
  {
    if |box.queue[0]| <= max then Delivered(box.queue[0]) else Truncated(box.queue[0])
  }

  /** Which outcomes a slice may have. */
  predicate Allowed(f: Fifo, slice: Slice, out: Outcome) {
    match slice
    case Sending(_, id, msg, size) =>
      if !MaySend(f, id, msg, size) then out == Error
      else if f.boxes[id].numSlots == 0 then out == Rendezvous || out.Blocked?
      else if f.free == 0 then out == WouldBlock
      else if IsFull(f.boxes[id]) then out.Blocked?
      else out == Accepted
    case SendResuming(_, id, _) =>
      if !Open(f, id) then out == Error
      else if f.boxes[id].numSlots == 0 then out == Fault
      else if IsFull(f.boxes[id]) then out.Blocked?
      else if f.free == 0 then out == Fault
      else out == Accepted
    case Receiving(_, id, max) =>
      if !Open(f, id) || max < 0 then out == Error
      else if f.boxes[id].numSlots == 0 then out == Rendezvous || out.Blocked?
      else if f.boxes[id].queue == [] then out.Blocked?
      else out == Oldest(f.boxes[id], max)
    case RecvResuming(id, max) =>
      if !Open(f, id) || f.boxes[id].queue == [] then out == Error else out == Oldest(f.boxes[id], max)
    case MeetingResuming(id) =>
      out == if Open(f, id) then Rendezvous else Error
    case TrySending(id, msg, size) =>
      if !MaySend(f, id, msg, size) then out == Error
      else if f.free == 0 || IsFull(f.boxes[id]) then out == WouldBlock
      else out == Accepted
    case TryReceiving(id, max) =>
      if !Open(f, id) || max < 0 then out == Error
      else if f.boxes[id].queue == [] then out == WouldBlock
      else out == Oldest(f.boxes[id], max)
    case Creating(numSlots, slotSize) =>
      if out.Created? then
        out.id < |f.boxes| && !f.boxes[out.id].isActive && numSlots >= 0 && 0 <= slotSize <= MAX_MESSAGE
      else out == Error
    case Releasing(id) =>
      out == if Open(f, id) then Released else Error
  }

  /** A receive whose buffer is too short for the oldest message. */
  predicate Cuts(f: Fifo, slice: Slice) {
    match slice
    case Receiving(_, id, max) =>
      Open(f, id) && f.boxes[id].numSlots > 0 && max >= 0 && f.boxes[id].queue != [] && |f.boxes[id].queue[0]| > max
    case RecvResuming(id, max) => Open(f, id) && f.boxes[id].queue != [] && |f.boxes[id].queue[0]| > max
    case TryReceiving(id, max) => Open(f, id) && max >= 0 && f.boxes[id].queue != [] && |f.boxes[id].queue[0]| > max
    case _ => false
  }

  lemma CutsExactly(f: Fifo, slice: Slice, out: Outcome)
    requires Allowed(f, slice, out)
    ensures out.Truncated? <==> Cuts(f, slice)
  {}

  /** A receive that gets the oldest message, whole. */
  predicate TakesWhole(f: Fifo, slice: Slice) {
    match slice
    case Receiving(_, id, max) =>
      Open(f, id) && f.boxes[id].numSlots > 0 && max >= 0 && f.boxes[id].queue != [] && |f.boxes[id].queue[0]| <= max
    case RecvResuming(id, max) => Open(f, id) && f.boxes[id].queue != [] && |f.boxes[id].queue[0]| <= max
    case TryReceiving(id, max) => Open(f, id) && max >= 0 && f.boxes[id].queue != [] && |f.boxes[id].queue[0]| <= max
    case _ => false
  }

  lemma TakesExactly(f: Fifo, slice: Slice, out: Outcome)
    requires Allowed(f, slice, out)
    ensures out.Delivered? <==> TakesWhole(f, slice)
  {}

  /** A resumed sender that finds no free slot, or a mailbox without slots. */
  predicate Underflows(f: Fifo, slice: Slice) {
    && slice.SendResuming? && Open(f, slice.id)
    && (f.boxes[slice.id].numSlots == 0 || (!IsFull(f.boxes[slice.id]) && f.free == 0))
  }

  lemma UnderflowsExactly(f: Fifo, slice: Slice, out: Outcome)
    requires Allowed(f, slice, out)
    ensures out.Fault? <==> Underflows(f, slice)
  {}

  /** The first `size` bytes that the caller's buffer points at. */
  function FirstBytes(msg: Buffer, size: int): Message
    requires Readable(msg, size)
  {
    match msg
    case Null => []
    case Bytes(bytes) => if size <= 0 then [] else bytes[..size]
  }

  /** The message a slice sends. */
  function Sent(slice: Slice): Message
    requires match slice
             case Sending(_, _, msg, size) => Readable(msg, size)
             case TrySending(_, msg, size) => Readable(msg, size)
             case _ => slice.SendResuming?
  {
    match slice
    case Sending(_, _, msg, size) => FirstBytes(msg, size)
    case TrySending(_, msg, size) => FirstBytes(msg, size)
    case SendResuming(_, _, data) => data
  }

  lemma PayloadIsFirstBytes(msg: Buffer, size: int)
    requires Readable(msg, size)
    ensures Payload(msg, size) == FirstBytes(msg, size) && |FirstBytes(msg, size)| <= if size > 0 then size else 0
  {}

  ghost function WithQueue(f: Fifo, id: nat, queue: seq<Message>): Fifo
    requires id < |f.boxes|
  {
    f.(boxes := f.boxes[id := f.boxes[id].(queue := queue)])
  }

  /** The state after a slice: only its own mailbox and the free count change. */
  ghost function Next(f: Fifo, slice: Slice, out: Outcome): Fifo
    requires Allowed(f, slice, out)
    requires match slice
             case Sending(_, _, msg, size) => Readable(msg, size)
             case TrySending(_, msg, size) => Readable(msg, size)
             case _ => true
  {
    match out
    case Accepted => WithQueue(f, slice.id, f.boxes[slice.id].queue + [Sent(slice)]).(free := f.free - 1)
    case Delivered(_) => WithQueue(f, slice.id, f.boxes[slice.id].queue[1..]).(free := f.free + 1)
    case Truncated(_) => WithQueue(f, slice.id, f.boxes[slice.id].queue[1..])
    case Created(id) => f.(boxes := f.boxes[id := Box(true, slice.numSlots, slice.slotSize, [])])
    case Released => f.(boxes := f.boxes[slice.id := f.boxes[slice.id].(isActive := false, queue := [])])
    case _ => f
  }

  // --- refinement ------------------------------------------------------------------

  lemma StoreView(k: Kernel, id: nat, data: Message)
    requires Inv(k) && id < |k.boxes| && k.free != [] && |data| <= MAX_MESSAGE
    ensures Shape(Store(k, id, data))
    ensures View(Store(k, id, data)) == WithQueue(View(k), id, View(k).boxes[id].queue + [data]).(free := |k.free| - 1)
  {
    hide Balanced;
    var k', s := Store(k, id, data), k.free[|k.free| - 1];
    assert Content(k'.slots[s]) == data;
    forall m | 0 <= m < |k.boxes| ensures Messages(k'.slots, k.rings[m]) == Messages(k.slots, k.rings[m]) {
      if s in k.rings[m] {
        RingSlotIsHeld(k, m, s);
      }
    }
    assert Messages(k'.slots, k'.rings[id]) == Messages(k.slots, k.rings[id]) + [data];
    assert View(k').boxes == WithQueue(View(k), id, View(k).boxes[id].queue + [data]).boxes;
  }

  lemma TakeView(k: Kernel, id: nat, max: int)
    requires Inv(k) && id < |k.boxes| && k.rings[id] != []
    ensures Shape(Take(k, id, max).kernel)
    ensures Take(k, id, max).out == Oldest(View(k).boxes[id], max)
    ensures View(Take(k, id, max).kernel) ==
      WithQueue(View(k), id, View(k).boxes[id].queue[1..]).(
        free := |k.free| + if Take(k, id, max).out.Delivered? then 1 else 0)
  {
    hide Balanced;
    var k', s := Take(k, id, max).kernel, k.rings[id][0];
    forall m | 0 <= m < |k.boxes| ensures Messages(k'.slots, k.rings[m]) == Messages(k.slots, k.rings[m]) {}
    assert Messages(k'.slots, k'.rings[id]) == Messages(k.slots, k.rings[id])[1..];
    assert View(k').boxes == WithQueue(View(k), id, View(k).boxes[id].queue[1..]).boxes;
  }

  /** Changes to the waiting processes do not show in the view. */
  lemma SameView(k: Kernel, k': Kernel)
    requires Shape(k) && Shape(k')
    requires k'.slots == k.slots && |k'.free| == |k.free| && k'.rings == k.rings && |k'.boxes| == |k.boxes|
    requires forall m :: 0 <= m < |k.boxes| ==>
      k'.boxes[m].isActive == k.boxes[m].isActive && k'.boxes[m].numSlots == k.boxes[m].numSlots
        && k'.boxes[m].slotSize == k.boxes[m].slotSize
    ensures View(k') == View(k)
  {
    assert View(k').boxes == View(k).boxes;
  }

  lemma DepositRefines(k: Kernel, id: nat, data: Message)
    requires Inv(k) && id < |k.boxes| && k.free != [] && |data| <= MAX_MESSAGE
    requires k.boxes[id].isActive && |k.rings[id]| < k.boxes[id].numSlots
    ensures Inv(Deposit(k, id, data).kernel)
    ensures View(Deposit(k, id, data).kernel) ==
      WithQueue(View(k), id, View(k).boxes[id].queue + [data]).(free := |k.free| - 1)
  {
    hide Balanced;
    StoreKeepsInv(k, id, data);
    StoreView(k, id, data);
    SameView(Store(k, id, data), Deposit(k, id, data).kernel);
  }

  /** Clearing the consumer pointer changes neither the invariant nor the view. */
  lemma ClearedConsumer(k: Kernel, id: nat)
    requires Inv(k) && id < |k.boxes|
    ensures var k' := k.(boxes := k.boxes[id := k.boxes[id].(consumers := None)]); Inv(k') && View(k') == View(k)
  {
    hide Balanced;
    var k' := k.(boxes := k.boxes[id := k.boxes[id].(consumers := None)]);
    forall m | 0 <= m < |k.boxes| ensures BoxOk(k'.boxes[m], k.rings[m], k.producers[m], k.consumers[m]) {
      assert BoxOk(k.boxes[m], k.rings[m], k.producers[m], k.consumers[m]);
    }
    SameView(k, k');
  }

  /** A slice keeps the invariant and is a step of the specification. */
  ghost predicate Faithful(k: Kernel, slice: Slice)
    requires Shape(k) && Runnable(k, slice)
  {
    var e := Execute(k, slice);
    Inv(e.kernel) && Allowed(View(k), slice, e.out) && View(e.kernel) == Next(View(k), slice, e.out)
  }

  lemma CreateRefines(k: Kernel, numSlots: int, slotSize: int)
    requires Inv(k)
    ensures Faithful(k, Creating(numSlots, slotSize))
  {
    hide Balanced;
    var e := Create(k, numSlots, slotSize);
    CreateKeepsInv(k, numSlots, slotSize);
    if e.out.Created? {
      forall m | 0 <= m < |k.boxes| && m != e.out.id ensures BoxView(e.kernel, m) == BoxView(k, m) {}
      assert BoxView(e.kernel, e.out.id) == Box(true, numSlots, slotSize, []);
      assert View(e.kernel).boxes == Next(View(k), Creating(numSlots, slotSize), e.out).boxes;
    }
  }

  lemma ReleaseRefines(k: Kernel, id: int)
    requires Inv(k)
    ensures Faithful(k, Releasing(id))
  {
    hide Balanced;
    var k' := Release(k, id).kernel;
    ReleaseKeepsInv(k, id);
    if IsOpen(k, id) {
      var box := View(k).boxes[id];
      assert BoxView(k', id) == box.(isActive := false, queue := []);
      forall m | 0 <= m < |k.boxes| && m != id ensures BoxView(k', m) == BoxView(k, m) {}
      assert View(k').boxes == View(k).boxes[id := box.(isActive := false, queue := [])];
    }
  }

  lemma BlockProducerSame(k: Kernel, pid: nat, id: nat)
    requires Inv(k) && id < |k.boxes| && k.boxes[id].isActive
    ensures Inv(BlockProducer(k, id, pid).kernel) && View(BlockProducer(k, id, pid).kernel) == View(k)
  {
    hide Balanced;
    SameView(k, BlockProducer(k, id, pid).kernel);
  }

  lemma SendLoopRefines(k: Kernel, pid: nat, id: nat, data: Message)
    requires Inv(k) && id < |k.boxes| && |data| <= MAX_MESSAGE && k.boxes[id].isActive
    ensures Faithful(k, SendResuming(pid, id, data))
  {
    hide Balanced;
    var e := SendLoop(k, pid, id, data);
    if e.out == Accepted {
      DepositRefines(k, id, data);
    } else if e.out.Blocked? {
      BlockProducerSame(k, pid, id);
    }
  }

  lemma BlockConsumerSame(k: Kernel, pid: nat, id: nat)
    requires Inv(k) && id < |k.boxes|
    ensures Inv(BlockConsumer(k, id, pid).kernel) && View(BlockConsumer(k, id, pid).kernel) == View(k)
  {
    hide Balanced;
    SameView(k, BlockConsumer(k, id, pid).kernel);
  }

  lemma BlockRendezvousProducerSame(k: Kernel, pid: nat, id: nat)
    requires Inv(k) && id < |k.boxes| && k.boxes[id].isActive
    ensures Inv(BlockRendezvousProducer(k, id, pid).kernel)
      && View(BlockRendezvousProducer(k, id, pid).kernel) == View(k)
  {
    hide Balanced;
    SameView(k, BlockRendezvousProducer(k, id, pid).kernel);
  }

  lemma WakeupProducerSame(k: Kernel, id: nat, out: Outcome)
    requires Inv(k) && id < |k.boxes|
    ensures Inv(WakeupProducer(k, id, out).kernel) && View(WakeupProducer(k, id, out).kernel) == View(k)
  {
    hide Balanced;
    SameView(k, WakeupProducer(k, id, out).kernel);
  }

  lemma SendRefines(k: Kernel, pid: nat, id: int, msg: Buffer, size: int)
    requires Inv(k) && Readable(msg, size)
    ensures Faithful(k, Sending(pid, id, msg, size))
  {
    hide Balanced;
    if SendIsValid(k, id, msg, size) {
      if k.boxes[id].numSlots > 0 {
        SendLoopRefines(k, pid, id, Payload(msg, size));
      } else if k.boxes[id].consumers.Some? {
        ClearedConsumer(k, id);
      } else {
        BlockRendezvousProducerSame(k, pid, id);
      }
    }
  }

  lemma TakeRefines(k: Kernel, id: nat, max: int)
    requires Inv(k) && id < |k.boxes| && k.rings[id] != [] && k.boxes[id].isActive
    ensures max >= 0 ==> Faithful(k, TryReceiving(id, max))
    ensures Faithful(k, RecvResuming(id, max))
  {
    hide Balanced;
    TakeKeepsInv(k, id, max);
    TakeView(k, id, max);
    ClearedConsumer(k, id);
    var cleared := k.(boxes := k.boxes[id := k.boxes[id].(consumers := None)]);
    TakeKeepsInv(cleared, id, max);
    TakeView(cleared, id, max);
  }

  lemma RecvRefines(k: Kernel, pid: nat, id: int, max: int)
    requires Inv(k)
    ensures Faithful(k, Receiving(pid, id, max))
  {
    hide Balanced, Marked, SlotShape, Take, Content;
    if IsOpen(k, id) && max >= 0 {
      if k.rings[id] != [] {
        TakeRefines(k, id, max);
      } else if k.boxes[id].numSlots == 0 && k.producers[id] != [] {
        WakeupProducerSame(k, id, Rendezvous);
      } else {
        BlockConsumerSame(k, pid, id);
      }
    }
  }

  /** The kernel refines independent queues; its invariant is kept. */
  lemma Refines(k: Kernel, slice: Slice)
    requires Inv(k) && Runnable(k, slice)
    ensures Faithful(k, slice)
  {
    hide Balanced;
    match slice {
      case Creating(numSlots, slotSize) => CreateRefines(k, numSlots, slotSize);
      case Releasing(id) => ReleaseRefines(k, id);
      case MeetingResuming(_) =>
      case SendResuming(pid, id, data) => if k.boxes[id].isActive { SendLoopRefines(k, pid, id, data); }
      case Sending(pid, id, msg, size) => SendRefines(k, pid, id, msg, size);
      case TrySending(id, msg, size) =>
        if CondSend(k, id, msg, size).out == Accepted { DepositRefines(k, id, Payload(msg, size)); }
      case Receiving(pid, id, max) => RecvRefines(k, pid, id, max);
      case TryReceiving(id, max) => if IsOpen(k, id) && k.rings[id] != [] && max >= 0 { TakeRefines(k, id, max); }
      case RecvResuming(id, max) =>
        if k.rings[id] != [] { TakeRefines(k, id, max); } else { ClearedConsumer(k, id); }
    }
  }

  // --- slots and their mailboxes -------------------------------------------------------------------

  ghost predicate RingAddressed(slots: seq<MailSlot>, ring: seq<nat>, m: nat) {
    forall i :: 0 <= i < |ring| ==> ring[i] < |slots| && slots[ring[i]].mailboxID == m
  }

  /** Every slot in a ring says which mailbox it is in. */
  ghost predicate Addressed(k: Kernel) {
    forall m :: 0 <= m < |k.rings| ==> RingAddressed(k.slots, k.rings[m], m)
  }

  lemma DepositAddressed(k: Kernel, id: nat, data: Message)
    requires Inv(k) && Addressed(k) && id < |k.boxes| && k.free != [] && |data| <= MAX_MESSAGE
    ensures Addressed(Deposit(k, id, data).kernel)
  {
    hide Balanced;
    var k', s := Deposit(k, id, data).kernel, k.free[|k.free| - 1];
    forall m | 0 <= m < |k'.rings| ensures RingAddressed(k'.slots, k'.rings[m], m) {
      assert RingAddressed(k.slots, k.rings[m], m);
      if s in k.rings[m] { RingSlotIsHeld(k, m, s); }
    }
  }

  lemma TakeAddressed(k: Kernel, id: nat, max: int)
    requires Shape(k) && Addressed(k) && id < |k.boxes| && k.rings[id] != []
    ensures Addressed(Take(k, id, max).kernel)
  {
    var k' := Take(k, id, max).kernel;
    forall m | 0 <= m < |k'.rings| ensures RingAddressed(k'.slots, k'.rings[m], m) {
      assert RingAddressed(k.slots, k.rings[m], m);
    }
  }

  /** A slice keeps that. */
  lemma AddressedStep(k: Kernel, slice: Slice)
    requires Inv(k) && Runnable(k, slice) && Addressed(k)
    ensures Addressed(Execute(k, slice).kernel)
  {
    hide Balanced, Marked, BoxOk, Deposit, Take, SlotShape;
    assert RingAddressed(k.slots, [], 0);
    var m := match slice case Creating(_, _) => -1 case _ => slice.id;
    if 0 <= m < |k.boxes| {
      if k.free != [] && (slice.Sending? || slice.SendResuming? || slice.TrySending?) && |Sent(slice)| <= MAX_MESSAGE {
        DepositAddressed(k, m, Sent(slice));
      } else if k.rings[m] != [] && (slice.Receiving? || slice.RecvResuming? || slice.TryReceiving?) {
        TakeAddressed(k, m, slice.max);
        TakeAddressed(k.(boxes := k.boxes[m := k.boxes[m].(consumers := None)]), m, slice.max);
      }
    }
  }
}
