/**
  The mailbox kernel of phase 2 on values: what each call does to the slot pool,
  to the rings of slot indices and to the lists of blocked processes.  A call
  that blocks is cut at `blockMe`: the part before is the `...Enter` function,
  the part after it is the `...Resume` function.
 */
module Mailboxes {
  import opened Wrappers
  import opened Sequences

  newtype byte = x: int | 0 <= x < 256
  type Message = seq<byte>

  const MAX_MESSAGE: nat := 150
  const MAX_BLOCKED_PRODUCERS: nat := 10
  const MAX_BLOCKED_CONSUMERS: nat := 10
  const RESERVED_MAILBOXES: nat := 6

  /** A caller's buffer: NULL, or the bytes it points at. */
  datatype Buffer = Null | Bytes(bytes: Message)

  /** `producers` and `consumers` point into the table of shadow processes. */
  datatype Mbox = Mbox(numSlots: nat, slotSize: nat, isActive: bool, producers: Option<nat>, consumers: Option<nat>)

  datatype MailSlot = MailSlot(mailboxID: nat, messageLength: nat, inUse: bool, message: Message)

  /**
    `free` is the used prefix of the free-slot stack, top last; `rings[m]` are the
    slots mailbox m holds, oldest first; `lost` logs the slots no longer reachable.
   */
  datatype Kernel = Kernel(
    boxes: seq<Mbox>,
    slots: seq<MailSlot>,
    free: seq<nat>,
    rings: seq<seq<nat>>,
    producers: seq<seq<int>>,
    consumers: seq<seq<int>>,
    shadow: seq<int>,
    lost: seq<nat>)

  datatype Outcome =
    | Error                     // returns -1
    | WouldBlock                // returns -2
    | Accepted                  // returns 0, the message is stored
    | Rendezvous                // returns 0, zero-slot mailbox
    | Blocked(recorded: bool)   // has not returned: the caller is in blockMe
    | Delivered(data: Message)  // returns the length of the data
    | Truncated(data: Message)  // returns -1, the message is gone
    | Created(id: nat)          // returns the id
    | Released                  // returns 0
    | Fault                     // indexes freeSlotQueue[-1], or a ring of no capacity

  /** A call's effect; the last two fields list its `unblockProc` calls. */
  datatype Effect = Effect(kernel: Kernel, out: Outcome, producersWoken: seq<int>, consumersWoken: seq<int>)

  /** Enough well-formedness to run any call. */
  ghost predicate Shape(k: Kernel) {
    && |k.rings| == |k.producers| == |k.consumers| == |k.boxes|
    && |k.shadow| > 0
    && Below(k.free, |k.slots|)
    && (forall m :: 0 <= m < |k.boxes| ==> Below(k.rings[m], |k.slots|))
    && (forall m :: 0 <= m < |k.boxes| ==> BoxShape(k.boxes[m], |k.shadow|))
    && (forall s :: 0 <= s < |k.slots| ==> SlotShape(k.slots[s]))
  }

  predicate BoxShape(box: Mbox, maxProc: nat) {
    box.slotSize <= MAX_MESSAGE && (box.consumers.Some? ==> box.consumers.value < maxProc)
  }

  predicate SlotShape(slot: MailSlot) {
    slot.messageLength <= |slot.message| == MAX_MESSAGE
  }

  predicate IsOpen(k: Kernel, id: int) {
    0 <= id < |k.boxes| && k.boxes[id].isActive
  }

  predicate SendIsValid(k: Kernel, id: int, msg: Buffer, size: int) {
    IsOpen(k, id) && 0 <= size <= k.boxes[id].slotSize && (size > 0 ==> msg.Bytes?)
  }

  /** The C caller owes the kernel a buffer of at least `size` bytes. */
  predicate Readable(msg: Buffer, size: int) {
    msg.Bytes? ==> size <= |msg.bytes|
  }

  function Payload(msg: Buffer, size: int): Message
    requires Readable(msg, size)
  {
    if msg.Bytes? && size > 0 then msg.bytes[..size] else []
  }

  function Content(slot: MailSlot): Message
    requires SlotShape(slot)
  {
    slot.message[..slot.messageLength]
  }

  function Stay(k: Kernel, out: Outcome): Effect {
    Effect(k, out, [], [])
  }

  // --- producers and consumers ------------------------------------------------

  /** Point the mailbox at the caller's shadow process, whose pid is overwritten. */
  function NoteConsumer(k: Kernel, id: nat, pid: nat): Kernel
    requires Shape(k) && id < |k.boxes|
  {
    var shadow := pid % |k.shadow|;
    k.(boxes := k.boxes[id := k.boxes[id].(consumers := Some(shadow))], shadow := k.shadow[shadow := pid])
  }

  function NoteProducer(k: Kernel, id: nat, pid: nat): Kernel
    requires Shape(k) && id < |k.boxes|
  {
    var shadow := pid % |k.shadow|;
    k.(boxes := k.boxes[id := k.boxes[id].(producers := Some(shadow))], shadow := k.shadow[shadow := pid])
  }

  function BlockConsumer(k: Kernel, id: nat, pid: nat): Effect
    requires Shape(k) && id < |k.boxes|
  {
    var room := |k.consumers[id]| < MAX_BLOCKED_CONSUMERS;
    var listed := if room then k.(consumers := k.consumers[id := k.consumers[id] + [pid]]) else k;
    Stay(NoteConsumer(listed, id, pid), Blocked(room))
  }

  function BlockProducer(k: Kernel, id: nat, pid: nat): Effect
    requires Shape(k) && id < |k.boxes|
  {
    if pid !in k.producers[id] && |k.producers[id]| < MAX_BLOCKED_PRODUCERS then
      Stay(k.(producers := k.producers[id := k.producers[id] + [pid]]), Blocked(true))
    else
      Stay(k, Blocked(false))
  }

  /** The zero-slot path appends without looking for the pid first. */
  function BlockRendezvousProducer(k: Kernel, id: nat, pid: nat): Effect
    requires Shape(k) && id < |k.boxes|
  {
    var room := |k.producers[id]| < MAX_BLOCKED_PRODUCERS;
    var listed := if room then k.(producers := k.producers[id := k.producers[id] + [pid]]) else k;
    Stay(NoteProducer(listed, id, pid), Blocked(room))
  }

  function WakeupProducer(k: Kernel, id: nat, out: Outcome): Effect
    requires Shape(k) && id < |k.boxes|
  {
    if k.producers[id] == [] then Stay(k, out)
    else Effect(k.(producers := k.producers[id := k.producers[id][1..]]), out, [k.producers[id][0]], [])
  }

  function WakeupConsumer(k: Kernel, id: nat, out: Outcome): Effect
    requires Shape(k) && id < |k.boxes|
  {
    if k.consumers[id] == [] then Stay(k, out)
    else Effect(k.(consumers := k.consumers[id := k.consumers[id][1..]]), out, [], [k.consumers[id][0]])
  }

  // --- storing and removing a message -----------------------------------------

  function Store(k: Kernel, id: nat, data: Message): Kernel
    requires Shape(k) && id < |k.boxes| && k.free != [] && |data| <= MAX_MESSAGE
  {
    var top := |k.free| - 1;
    var s := k.free[top];
    k.(slots := k.slots[s := MailSlot(id, |data|, true, data + k.slots[s].message[|data|..])],
       free := k.free[..top],
       rings := k.rings[id := k.rings[id] + [s]])
  }

  function Deposit(k: Kernel, id: nat, data: Message): Effect
    requires Shape(k) && id < |k.boxes| && k.free != [] && |data| <= MAX_MESSAGE
  {
    var stored := Store(k, id, data);
    if k.boxes[id].consumers.Some? then WakeupConsumer(stored, id, Accepted) else Stay(stored, Accepted)
  }

  function Take(k: Kernel, id: nat, max: int): Effect
    requires Shape(k) && id < |k.boxes| && k.rings[id] != []
  {
    var s := k.rings[id][0];
    var popped := k.(rings := k.rings[id := k.rings[id][1..]]);
    var data := Content(k.slots[s]);
    if max < |data| then
      Stay(popped.(lost := k.lost + [s]), Truncated(data))
    else
      WakeupProducer(popped.(slots := k.slots[s := k.slots[s].(inUse := false)], free := k.free + [s]), id,
        Delivered(data))
  }

  // --- the calls ----------------------------------------------------------------

  function SendEnter(k: Kernel, pid: nat, id: int, msg: Buffer, size: int): Effect
    requires Shape(k) && Readable(msg, size)
  {
    if !SendIsValid(k, id, msg, size) then Stay(k, Error)
    else if k.boxes[id].numSlots == 0 then
      match k.boxes[id].consumers
      case Some(c) =>
        Effect(k.(boxes := k.boxes[id := k.boxes[id].(consumers := None)]), Rendezvous, [], [k.shadow[c]])
      case None => BlockRendezvousProducer(k, id, pid)
    else if k.free == [] then Stay(k, WouldBlock)
    else SendLoop(k, pid, id, Payload(msg, size))
  }

  /** From the head of the wait-if-full loop to the next blockMe or return. */
  function SendLoop(k: Kernel, pid: nat, id: nat, data: Message): Effect
    requires Shape(k) && id < |k.boxes| && |data| <= MAX_MESSAGE
  {
    if k.boxes[id].numSlots > 0 && |k.rings[id]| >= k.boxes[id].numSlots then BlockProducer(k, id, pid)
    else if k.free == [] || k.boxes[id].numSlots == 0 then Stay(k, Fault)
    else Deposit(k, id, data)
  }

  function SlotSendResume(k: Kernel, pid: nat, id: nat, data: Message): Effect
    requires Shape(k) && id < |k.boxes| && |data| <= MAX_MESSAGE
  {
    if !k.boxes[id].isActive then Stay(k, Error) else SendLoop(k, pid, id, data)
  }

  /** Both zero-slot calls end the same way. */
  function RendezvousResume(k: Kernel, id: nat): Effect
    requires Shape(k) && id < |k.boxes|
  {
    Stay(k, if k.boxes[id].isActive then Rendezvous else Error)
  }

  function RecvEnter(k: Kernel, pid: nat, id: int, max: int): Effect
    requires Shape(k)
  {
    if !IsOpen(k, id) || max < 0 then Stay(k, Error)
    else if k.boxes[id].numSlots == 0 then
      if k.producers[id] != [] then WakeupProducer(k, id, Rendezvous) else BlockConsumer(k, id, pid)
    else if k.rings[id] == [] then BlockConsumer(k, id, pid)
    else Take(k, id, max)
  }

  function SlotRecvResume(k: Kernel, id: nat, max: int): Effect
    requires Shape(k) && id < |k.boxes|
  {
    if !k.boxes[id].isActive then Stay(k, Error)
    else
      var cleared := k.(boxes := k.boxes[id := k.boxes[id].(consumers := None)]);
      if k.rings[id] == [] then Stay(cleared, Error) else Take(cleared, id, max)
  }

  function CondSend(k: Kernel, id: int, msg: Buffer, size: int): Effect
    requires Shape(k) && Readable(msg, size)
  {
    if !SendIsValid(k, id, msg, size) then Stay(k, Error)
    else if k.free == [] || |k.rings[id]| >= k.boxes[id].numSlots then Stay(k, WouldBlock)
    else Deposit(k, id, Payload(msg, size))
  }

  function CondRecv(k: Kernel, id: int, max: int): Effect
    requires Shape(k)
  {
    if !IsOpen(k, id) || max < 0 then Stay(k, Error)
    else if k.rings[id] == [] then Stay(k, WouldBlock)
    else Take(k, id, max)
  }

  function FirstInactive(boxes: seq<Mbox>): (id: nat)
    ensures id <= |boxes|
    ensures forall i :: 0 <= i < id ==> boxes[i].isActive
    ensures id < |boxes| ==> !boxes[id].isActive
  {
    if boxes == [] || !boxes[0].isActive then 0 else 1 + FirstInactive(boxes[1..])
  }

  function Create(k: Kernel, numSlots: int, slotSize: int): Effect
    requires Shape(k)
  {
    var id := FirstInactive(k.boxes);
    if numSlots > |k.slots| || numSlots < 0 || slotSize < 0 || slotSize > MAX_MESSAGE || id == |k.boxes| then
      Stay(k, Error)
    else
      Stay(k.(boxes := k.boxes[id := Mbox(numSlots, slotSize, true, None, None)], rings := k.rings[id := []]),
        Created(id))
  }

  function Release(k: Kernel, id: int): Effect
    requires Shape(k)
  {
    if !IsOpen(k, id) then Stay(k, Error)
    else
      var box := k.boxes[id];
      var emptied := k.(producers := k.producers[id := []],
                        rings := k.rings[id := []],
                        lost := k.lost + k.rings[id]);
      if box.numSlots == 0 then
        Effect(emptied.(boxes := k.boxes[id := box.(isActive := false)], consumers := k.consumers[id := []]),
               Released, k.producers[id], k.consumers[id])
      else
        Effect(emptied.(boxes := k.boxes[id := box.(isActive := false, consumers := None)]),
               Released, k.producers[id], if box.consumers.Some? then [k.shadow[box.consumers.value]] else [])
  }

  // --- one slice of kernel execution: a call, up to its return or its blockMe -------

  datatype Slice =
    | Sending(pid: nat, id: int, msg: Buffer, size: int)
    | SendResuming(pid: nat, id: int, data: Message)
    | Receiving(pid: nat, id: int, max: int)
    | RecvResuming(id: int, max: int)
    | MeetingResuming(id: int)
    | TrySending(id: int, msg: Buffer, size: int)
    | TryReceiving(id: int, max: int)
    | Creating(numSlots: int, slotSize: int)
    | Releasing(id: int)

  /** What the C program guarantees about a slice it starts. */
  ghost predicate Runnable(k: Kernel, slice: Slice) {
    match slice
    case Sending(_, _, msg, size) => Readable(msg, size)
    case TrySending(_, msg, size) => Readable(msg, size)
    case SendResuming(_, id, data) => 0 <= id < |k.boxes| && |data| <= MAX_MESSAGE
    case RecvResuming(id, _) => 0 <= id < |k.boxes|
    case MeetingResuming(id) => 0 <= id < |k.boxes|
    case _ => true
  }

  function Execute(k: Kernel, slice: Slice): Effect
    requires Shape(k) && Runnable(k, slice)
  {
    match slice
    case Sending(pid, id, msg, size) => SendEnter(k, pid, id, msg, size)
    case SendResuming(pid, id, data) => SlotSendResume(k, pid, id, data)
    case Receiving(pid, id, max) => RecvEnter(k, pid, id, max)
    case RecvResuming(id, max) => SlotRecvResume(k, id, max)
    case MeetingResuming(id) => RendezvousResume(k, id)
    case TrySending(id, msg, size) => CondSend(k, id, msg, size)
    case TryReceiving(id, max) => CondRecv(k, id, max)
    case Creating(numSlots, slotSize) => Create(k, numSlots, slotSize)
    case Releasing(id) => Release(k, id)
  }

  /** The state phase2_init leaves, before it creates the clock mailbox. */
  function Initial(maxMbox: nat, maxSlots: nat, maxProc: nat): Kernel {
    Kernel(seq(maxMbox, i => Mbox(0, 0, i < RESERVED_MAILBOXES, None, None)),
           seq(maxSlots, i => MailSlot(0, 0, false, seq(MAX_MESSAGE, j => 0))),
           seq(maxSlots, i => i),
           seq(maxMbox, i => []),
           seq(maxMbox, i => []),
           seq(maxMbox, i => []),
           seq(maxProc, i => -1),
           [])
  }
}
