/**
  The mailbox kernel as phase 2 writes it: fixed arrays updated in place, a stack of
  free slots, a ring per mailbox and bounded arrays of blocked pids.  Each method is
  proved to do what the corresponding function of module Mailboxes says.
 */
module MailboxKernel {
  import opened Wrappers
  import opened Sequences
  import opened Mailboxes
  import opened SlotLedger
  import opened MailboxFifo
  import opened RingBuffers

  ghost function Row(a: array2<int>, m: nat, n: nat): (row: seq<int>)
    requires m < a.Length0 && n <= a.Length1
    reads a
    ensures |row| == n && forall i :: 0 <= i < n ==> row[i] == a[m, i]
  {
    seq(n, i requires 0 <= i < n reads a => a[m, i])
  }

  ghost predicate RowsOk(a: array2<int>, counts: seq<nat>) {
    a.Length0 == |counts| && forall m :: 0 <= m < |counts| ==> counts[m] <= a.Length1
  }

  ghost function Rows(a: array2<int>, counts: seq<nat>): (rows: seq<seq<int>>)
    requires RowsOk(a, counts)
    reads a
    ensures |rows| == |counts| && forall m :: 0 <= m < |counts| ==> rows[m] == Row(a, m, counts[m])
  {
    seq(|counts|, m requires 0 <= m < |counts| reads a => Row(a, m, counts[m]))
  }

  /** Take the first pid of a row and move the others up. */
  method RemoveFirst(a: array2<int>, counts: array<nat>, id: nat) returns (pid: int)
    requires RowsOk(a, counts[..]) && id < counts.Length && counts[id] > 0
    modifies a, counts
    ensures RowsOk(a, counts[..])
    ensures pid == old(Rows(a, counts[..]))[id][0]
    ensures Rows(a, counts[..]) == old(Rows(a, counts[..])[id := Rows(a, counts[..])[id][1..]])
  {
    ghost var before, rows := counts[..], Rows(a, counts[..]);
    pid := a[id, 0];
    var i := 0;
    while i < counts[id] - 1
      invariant 0 <= i <= counts[id] - 1
      invariant forall j :: 0 <= j < i ==> a[id, j] == rows[id][j + 1]
      invariant forall j :: i <= j < counts[id] ==> a[id, j] == rows[id][j]
      invariant forall m, j :: 0 <= m < a.Length0 && m != id && 0 <= j < before[m] ==> a[m, j] == rows[m][j]
      modifies a
    {
      a[id, i] := a[id, i + 1];
      i := i + 1;
    }
    counts[id] := counts[id] - 1;
    RowsAre(a, counts[..], rows[id := rows[id][1..]]);
  }

  /** Put a pid at the end of a row that has room. */
  method AddLast(a: array2<int>, counts: array<nat>, id: nat, pid: int)
    requires RowsOk(a, counts[..]) && id < counts.Length && counts[id] < a.Length1
    modifies a, counts
    ensures RowsOk(a, counts[..])
    ensures Rows(a, counts[..]) == old(Rows(a, counts[..])[id := Rows(a, counts[..])[id] + [pid]])
  {
    ghost var before, rows := counts[..], Rows(a, counts[..]);
    assert forall m, j :: 0 <= m < a.Length0 && 0 <= j < before[m] ==> a[m, j] == rows[m][j];
    a[id, counts[id]] := pid;
    counts[id] := counts[id] + 1;
    RowsAre(a, counts[..], rows[id := rows[id] + [pid]]);
  }

  method ClearRow(a: array2<int>, counts: array<nat>, id: nat)
    requires RowsOk(a, counts[..]) && id < counts.Length
    modifies counts
    ensures RowsOk(a, counts[..])
    ensures Rows(a, counts[..]) == old(Rows(a, counts[..])[id := []])
  {
    ghost var rows := Rows(a, counts[..]);
    counts[id] := 0;
    RowsAre(a, counts[..], rows[id := []]);
  }

  lemma RowsAre(a: array2<int>, counts: seq<nat>, rows: seq<seq<int>>)
    requires RowsOk(a, counts) && |rows| == |counts|
    requires forall m :: 0 <= m < |counts| ==> |rows[m]| == counts[m]
    requires forall m, j :: 0 <= m < |counts| && 0 <= j < counts[m] ==> a[m, j] == rows[m][j]
    ensures Rows(a, counts) == rows
  {
    forall m | 0 <= m < |counts| ensures Rows(a, counts)[m] == rows[m] {
      assert Row(a, m, counts[m]) == rows[m];
    }
  }

  class MailKernel {
    const mailboxes: array<Mbox>
    const mailSlots: array<MailSlot>
    const freeSlotQueue: array<nat>
    var freeSlotCount: nat
    const mailboxSlotQueues: array<SlotQueue>
    const blockedProducers: array2<int>
    const numBlockedProducers: array<nat>
    const blockedConsumers: array2<int>
    const numBlockedConsumers: array<nat>
    const shadowProcesses: array<int>
    var unblocked: seq<int>     // the pids passed to unblockProc so far
    ghost var lost: seq<nat>    // slots no longer reachable

    ghost function Arrays(): set<object> {
      {mailboxes, mailSlots, freeSlotQueue, mailboxSlotQueues, blockedProducers, numBlockedProducers,
       blockedConsumers, numBlockedConsumers, shadowProcesses}
    }

    /** The arrays are separate and their parts in use are well-formed. */
    ghost predicate Wired()
      reads this, Arrays()
    {
      && freeSlotQueue != numBlockedProducers && freeSlotQueue != numBlockedConsumers
      && numBlockedProducers != numBlockedConsumers && blockedProducers != blockedConsumers
      && mailboxSlotQueues.Length == mailboxes.Length
      && freeSlotCount <= freeSlotQueue.Length == mailSlots.Length
      && RowsOk(blockedProducers, numBlockedProducers[..]) && blockedProducers.Length1 == MAX_BLOCKED_PRODUCERS
      && RowsOk(blockedConsumers, numBlockedConsumers[..]) && blockedConsumers.Length1 == MAX_BLOCKED_CONSUMERS
      && numBlockedProducers.Length == numBlockedConsumers.Length == mailboxes.Length
      && (forall m :: 0 <= m < mailboxes.Length ==> RingOk(mailboxSlotQueues[..][m]))
      && (forall m :: 0 <= m < mailboxes.Length && mailboxes[m].isActive ==>
         |mailboxSlotQueues[m].queue| == mailboxes[m].numSlots)
    }

    ghost function Snap(): Kernel
      requires Wired()
      reads this, Arrays()
    {
      Kernel(mailboxes[..], mailSlots[..], freeSlotQueue[..freeSlotCount], Windows(mailboxSlotQueues[..]),
             Rows(blockedProducers, numBlockedProducers[..]), Rows(blockedConsumers, numBlockedConsumers[..]),
             shadowProcesses[..], lost)
    }

    ghost predicate Valid()
      reads this, Arrays()
    {
      Wired() && Inv(Snap())
    }

    /** What a method that stands for a slice owes: the slice's effect on the whole state. */
    twostate predicate Performs(e: Effect)
      reads this, Arrays()
    {
      Wired() && Snap() == e.kernel && unblocked == old(unblocked) + e.producersWoken + e.consumersWoken
    }

    // --- waiting processes --------------------------------------------------------------

    method WakeupProducer(id: nat, ghost out: Outcome)
      requires Wired() && Shape(Snap()) && id < mailboxes.Length
      modifies blockedProducers, numBlockedProducers, this`unblocked
      ensures Performs(Mailboxes.WakeupProducer(old(Snap()), id, out))
    {
      if numBlockedProducers[id] > 0 {
        var pid := RemoveFirst(blockedProducers, numBlockedProducers, id);
        unblocked := unblocked + [pid];
      }
    }

    method WakeupConsumer(id: nat, ghost out: Outcome)
      requires Wired() && Shape(Snap()) && id < mailboxes.Length
      modifies blockedConsumers, numBlockedConsumers, this`unblocked
      ensures Performs(Mailboxes.WakeupConsumer(old(Snap()), id, out))
    {
      if numBlockedConsumers[id] > 0 {
        var pid := RemoveFirst(blockedConsumers, numBlockedConsumers, id);
        unblocked := unblocked + [pid];
      }
    }

    /** Record a full-mailbox sender unless it is recorded already or the list is full. */
    method RecordProducer(pid: nat, id: nat) returns (out: Outcome)
      requires Wired() && Shape(Snap()) && id < mailboxes.Length
      modifies blockedProducers, numBlockedProducers
      ensures Performs(BlockProducer(old(Snap()), id, pid)) && out == BlockProducer(old(Snap()), id, pid).out
    {
      ghost var row := Snap().producers[id];
      var alreadyBlocked, i := false, 0;
      while i < numBlockedProducers[id] && !alreadyBlocked
        invariant 0 <= i <= numBlockedProducers[id]
        invariant alreadyBlocked <==> pid in row[..i]
      {
        alreadyBlocked := blockedProducers[id, i] == pid;
        i := i + 1;
      }
      assert alreadyBlocked <==> pid in row by { assert row[..|row|] == row; }
      if !alreadyBlocked && numBlockedProducers[id] < MAX_BLOCKED_PRODUCERS {
        AddLast(blockedProducers, numBlockedProducers, id, pid);
        return Blocked(true);
      }
      return Blocked(false);
    }

    method BlockRendezvous(pid: nat, id: nat) returns (out: Outcome)
      requires Wired() && Shape(Snap()) && id < mailboxes.Length
      modifies this, Arrays()
      ensures Performs(BlockRendezvousProducer(old(Snap()), id, pid))
        && out == BlockRendezvousProducer(old(Snap()), id, pid).out
    {
      out := Blocked(numBlockedProducers[id] < MAX_BLOCKED_PRODUCERS);
      if out.recorded {
        AddLast(blockedProducers, numBlockedProducers, id, pid);
      }
      mailboxes[id] := mailboxes[id].(producers := Some(pid % shadowProcesses.Length));
      shadowProcesses[pid % shadowProcesses.Length] := pid;
    }

    method BlockReceiver(pid: nat, id: nat) returns (out: Outcome)
      requires Wired() && Shape(Snap()) && id < mailboxes.Length
      modifies this, Arrays()
      ensures Performs(BlockConsumer(old(Snap()), id, pid)) && out == BlockConsumer(old(Snap()), id, pid).out
    {
      out := Blocked(numBlockedConsumers[id] < MAX_BLOCKED_CONSUMERS);
      if out.recorded {
        AddLast(blockedConsumers, numBlockedConsumers, id, pid);
      }
      mailboxes[id] := mailboxes[id].(consumers := Some(pid % shadowProcesses.Length));
      shadowProcesses[pid % shadowProcesses.Length] := pid;
    }

    // --- storing and removing a message ----------------------------------------------------

    method StoreMessage(id: nat, data: Message)
      requires Valid() && id < mailboxes.Length && mailboxes[id].isActive && freeSlotCount > 0 && |data| <= MAX_MESSAGE
      requires mailboxSlotQueues[id].count < mailboxes[id].numSlots
      modifies this`freeSlotCount, mailSlots, mailboxSlotQueues
      ensures Wired() && Snap() == Store(old(Snap()), id, data)
    {
      hide Balanced, Marked;
      ghost var k := Snap();
      freeSlotCount := freeSlotCount - 1;
      var s := freeSlotQueue[freeSlotCount];
      mailSlots[s] := MailSlot(id, |data|, true, data + mailSlots[s].message[|data|..]);
      ghost var queues := mailboxSlotQueues[..];
      PushWindow(mailboxSlotQueues[id], s);
      mailboxSlotQueues[id] := Push(mailboxSlotQueues[id], s);
      assert mailboxSlotQueues[..] == queues[id := Push(queues[id], s)];
      assert Windows(mailboxSlotQueues[..]) == k.rings[id := k.rings[id] + [s]];
      assert mailSlots[..] == k.slots[s := MailSlot(id, |data|, true, data + k.slots[s].message[|data|..])];
      assert freeSlotQueue[..freeSlotCount] == k.free[..freeSlotCount];
    }

    method DepositMessage(id: nat, data: Message)
      requires Valid() && id < mailboxes.Length && mailboxes[id].isActive && freeSlotCount > 0 && |data| <= MAX_MESSAGE
      requires mailboxSlotQueues[id].count < mailboxes[id].numSlots
      modifies this, Arrays()
      ensures Performs(Deposit(old(Snap()), id, data))
    {
      hide Balanced, Marked;
      StoreKeepsInv(Snap(), id, data);
      StoreMessage(id, data);
      if mailboxes[id].consumers.Some? {
        WakeupConsumer(id, Accepted);
      }
    }

    method PopSlot(id: nat) returns (s: nat)
      requires Wired() && Shape(Snap()) && id < mailboxes.Length && mailboxSlotQueues[id].count > 0
      modifies mailboxSlotQueues
      ensures Wired() && s == old(Snap()).rings[id][0]
      ensures Snap() == old(Snap()).(rings := old(Snap()).rings[id := old(Snap()).rings[id][1..]])
    {
      ghost var k, queues := Snap(), mailboxSlotQueues[..];
      PopWindow(mailboxSlotQueues[id]);
      s := mailboxSlotQueues[id].queue[mailboxSlotQueues[id].head];
      mailboxSlotQueues[id] := Pop(mailboxSlotQueues[id]);
      assert mailboxSlotQueues[..] == queues[id := Pop(queues[id])];
      assert Windows(mailboxSlotQueues[..]) == k.rings[id := k.rings[id][1..]];
    }

    method FreeSlot(s: nat)
      requires Wired() && s < mailSlots.Length && freeSlotCount < freeSlotQueue.Length
      modifies this`freeSlotCount, mailSlots, freeSlotQueue
      ensures Wired()
      ensures Snap() == old(Snap()).(slots := old(Snap()).slots[s := old(Snap()).slots[s].(inUse := false)],
                                     free := old(Snap()).free + [s])
    {
      ghost var k := Snap();
      mailSlots[s] := mailSlots[s].(inUse := false);
      freeSlotQueue[freeSlotCount] := s;
      freeSlotCount := freeSlotCount + 1;
      assert freeSlotQueue[..freeSlotCount] == k.free + [s];
    }

    method TakeMessage(id: nat, max: int) returns (out: Outcome)
      requires Valid() && id < mailboxes.Length && mailboxSlotQueues[id].count > 0
      modifies this, Arrays()
      ensures Performs(Take(old(Snap()), id, max)) && out == Take(old(Snap()), id, max).out
    {
      hide Balanced, Marked;
      StackHasRoom(Snap(), id);
      var s := PopSlot(id);
      if max < mailSlots[s].messageLength {
        lost := lost + [s];
        return Truncated(Content(mailSlots[s]));
      }
      out := Delivered(Content(mailSlots[s]));
      FreeSlot(s);
      WakeupProducer(id, out);
    }

    // --- the calls ----------------------------------------------------------------------------

    /** The contents phase2_init gives the arrays. */
    ghost predicate Booted(maxMbox: nat, maxSlots: nat, maxProc: nat)
      reads this, Arrays()
    {
      && freeSlotQueue != numBlockedProducers && freeSlotQueue != numBlockedConsumers
      && numBlockedProducers != numBlockedConsumers && blockedProducers != blockedConsumers
      && blockedProducers.Length0 == blockedConsumers.Length0 == maxMbox
      && blockedProducers.Length1 == MAX_BLOCKED_PRODUCERS && blockedConsumers.Length1 == MAX_BLOCKED_CONSUMERS
      && mailboxes.Length == mailboxSlotQueues.Length == maxMbox
      && numBlockedProducers.Length == numBlockedConsumers.Length == maxMbox
      && mailSlots.Length == freeSlotQueue.Length == freeSlotCount == maxSlots && shadowProcesses.Length == maxProc
      && (forall i :: 0 <= i < maxMbox ==> mailboxes[i] == Mbox(0, 0, i < RESERVED_MAILBOXES, None, None))
      && (forall i :: 0 <= i < maxMbox ==> mailboxSlotQueues[i] == SlotQueue([], 0, 0, 0, 0))
      && (forall i :: 0 <= i < maxMbox ==> numBlockedProducers[i] == 0)
      && (forall i :: 0 <= i < maxMbox ==> numBlockedConsumers[i] == 0)
      && (forall i :: 0 <= i < maxSlots ==> mailSlots[i] == MailSlot(0, 0, false, seq(MAX_MESSAGE, j => 0)))
      && (forall i :: 0 <= i < maxSlots ==> freeSlotQueue[i] == i)
      && (forall i :: 0 <= i < maxProc ==> shadowProcesses[i] == -1)
      && lost == [] && unblocked == []
    }

    lemma BootedValid(maxMbox: nat, maxSlots: nat, maxProc: nat)
      requires maxProc > 0 && Booted(maxMbox, maxSlots, maxProc)
      ensures Valid() && Snap() == Initial(maxMbox, maxSlots, maxProc)
    {
      hide Inv;
      InitialInv(maxMbox, maxSlots, maxProc);
      RowsAre(blockedProducers, numBlockedProducers[..], seq(maxMbox, i => []));
      RowsAre(blockedConsumers, numBlockedConsumers[..], seq(maxMbox, i => []));
      assert Windows(mailboxSlotQueues[..]) == seq<seq<nat>>(maxMbox, i => []);
      var k := Initial(maxMbox, maxSlots, maxProc);
      assert mailboxes[..] == k.boxes;
      assert mailSlots[..] == k.slots;
      assert freeSlotQueue[..freeSlotCount] == k.free && shadowProcesses[..] == k.shadow;
    }

    /** phase2_init, up to the creation of the clock mailbox. */
    constructor (maxMbox: nat, maxSlots: nat, maxProc: nat)
      ensures Booted(maxMbox, maxSlots, maxProc) && fresh(Arrays())
    {
      var unused := MailSlot(0, 0, false, seq(MAX_MESSAGE, j => 0));
      mailboxes := new Mbox[maxMbox](i => Mbox(0, 0, i < RESERVED_MAILBOXES, None, None));
      mailSlots := new MailSlot[maxSlots](i => unused);
      freeSlotQueue := new nat[maxSlots](i => i);
      freeSlotCount := maxSlots;
      mailboxSlotQueues := new SlotQueue[maxMbox](i => SlotQueue([], 0, 0, 0, 0));
      blockedProducers := new int[maxMbox, MAX_BLOCKED_PRODUCERS];
      numBlockedProducers := new nat[maxMbox](i => 0);
      blockedConsumers := new int[maxMbox, MAX_BLOCKED_CONSUMERS];
      numBlockedConsumers := new nat[maxMbox](i => 0);
      shadowProcesses := new int[maxProc](i => -1);
      unblocked, lost := [], [];
      new;
    }

    lemma ValidShape()
      requires Valid()
      ensures Shape(Snap())
    {}

    /** Fill in an inactive mailbox and give it a ring. */
    method Open(id: nat, numSlots: nat, slotSize: nat)
      requires Wired() && id < mailboxes.Length && !mailboxes[id].isActive
      modifies mailboxes, mailboxSlotQueues
      ensures Wired()
      ensures Snap() == old(Snap()).(boxes := old(Snap()).boxes[id := Mbox(numSlots, slotSize, true, None, None)],
                                     rings := old(Snap()).rings[id := []])
    {
      SetRing(id, SlotQueue(seq(numSlots, i => 0), numSlots, 0, 0, 0));
      mailboxes[id] := Mbox(numSlots, slotSize, true, None, None);
    }

    /** The scan of MboxCreate. */
    method FindInactive() returns (id: nat)
      ensures id == FirstInactive(mailboxes[..])
    {
      id := 0;
      while id < mailboxes.Length && mailboxes[id].isActive
        invariant 0 <= id <= mailboxes.Length
        invariant forall i :: 0 <= i < id ==> mailboxes[i].isActive
      {
        id := id + 1;
      }
    }

    method MboxCreate(numSlots: int, slotSize: int) returns (out: Outcome)
      requires Valid()
      modifies this, Arrays()
      ensures Valid() && Performs(Create(old(Snap()), numSlots, slotSize))
        && out == Create(old(Snap()), numSlots, slotSize).out
    {
      hide Balanced, Marked, BoxOk, BoxShape, SlotShape, Below, Ledger, Inv;
      ghost var k := Snap();
      CreateKeepsInv(k, numSlots, slotSize);
      ValidShape();
      if numSlots > mailSlots.Length || numSlots < 0 || slotSize < 0 || slotSize > MAX_MESSAGE {
        return Error;
      }
      var id := FindInactive();
      if id == mailboxes.Length {
        return Error;
      }
      Open(id, numSlots, slotSize);
      return Created(id);
    }

    method SendOrBlock(pid: nat, id: nat, data: Message) returns (out: Outcome)
      requires Valid() && id < mailboxes.Length && mailboxes[id].isActive && |data| <= MAX_MESSAGE
      modifies this, Arrays()
      ensures Performs(SendLoop(old(Snap()), pid, id, data)) && out == SendLoop(old(Snap()), pid, id, data).out
    {
      hide Balanced, Marked;
      if mailboxSlotQueues[id].count >= mailboxes[id].numSlots && mailboxes[id].numSlots > 0 {
        out := RecordProducer(pid, id);
      } else if freeSlotCount == 0 || mailboxes[id].numSlots == 0 {
        return Fault;
      } else {
        DepositMessage(id, data);
        return Accepted;
      }
    }

    method MboxSend(pid: nat, id: int, msg: Buffer, size: int) returns (out: Outcome)
      requires Valid() && Readable(msg, size)
      modifies this, Arrays()
      ensures Valid() && Performs(SendEnter(old(Snap()), pid, id, msg, size))
        && out == SendEnter(old(Snap()), pid, id, msg, size).out
    {
      hide Balanced, Marked;
      SendRefines(Snap(), pid, id, msg, size);
      if id < 0 || id >= mailboxes.Length || !mailboxes[id].isActive {
        return Error;
      }
      if size < 0 || size > mailboxes[id].slotSize {
        return Error;
      }
      if size > 0 && msg.Null? {
        return Error;
      }
      if mailboxes[id].numSlots == 0 {
        if mailboxes[id].consumers.Some? {
          unblocked := unblocked + [shadowProcesses[mailboxes[id].consumers.value]];
          mailboxes[id] := mailboxes[id].(consumers := None);
          return Rendezvous;
        }
        out := BlockRendezvous(pid, id);
        return;
      }
      if freeSlotCount == 0 {
        return WouldBlock;
      }
      out := SendOrBlock(pid, id, Payload(msg, size));
    }

    /** MboxSend after blockMe, in the wait-if-full loop. */
    method MboxSendResume(pid: nat, id: nat, data: Message) returns (out: Outcome)
      requires Valid() && id < mailboxes.Length && |data| <= MAX_MESSAGE
      modifies this, Arrays()
      ensures Valid() && Performs(SlotSendResume(old(Snap()), pid, id, data))
        && out == SlotSendResume(old(Snap()), pid, id, data).out
    {
      hide Balanced, Marked;
      Refines(Snap(), SendResuming(pid, id, data));
      if !mailboxes[id].isActive {
        return Error;
      }
      out := SendOrBlock(pid, id, data);
    }

    method MboxRecv(pid: nat, id: int, max: int) returns (out: Outcome)
      requires Valid()
      modifies this, Arrays()
      ensures Valid() && Performs(RecvEnter(old(Snap()), pid, id, max))
        && out == RecvEnter(old(Snap()), pid, id, max).out
    {
      hide Balanced, Marked;
      RecvRefines(Snap(), pid, id, max);
      if id < 0 || id >= mailboxes.Length || !mailboxes[id].isActive || max < 0 {
        return Error;
      }
      if mailboxes[id].numSlots == 0 {
        if numBlockedProducers[id] > 0 {
          WakeupProducer(id, Rendezvous);
          return Rendezvous;
        }
        out := BlockReceiver(pid, id);
      } else if mailboxSlotQueues[id].count == 0 {
        out := BlockReceiver(pid, id);
      } else {
        out := TakeMessage(id, max);
      }
    }

    /** MboxRecv after blockMe, for a mailbox with slots. */
    method MboxRecvResume(id: nat, max: int) returns (out: Outcome)
      requires Valid() && id < mailboxes.Length
      modifies this, Arrays()
      ensures Valid() && Performs(SlotRecvResume(old(Snap()), id, max))
        && out == SlotRecvResume(old(Snap()), id, max).out
    {
      hide Balanced, Marked;
      Refines(Snap(), RecvResuming(id, max));
      if !mailboxes[id].isActive {
        return Error;
      }
      ClearedConsumer(Snap(), id);
      mailboxes[id] := mailboxes[id].(consumers := None);
      if mailboxSlotQueues[id].count == 0 {
        return Error;
      }
      out := TakeMessage(id, max);
    }

    /** Either zero-slot call after blockMe. */
    method MeetResume(id: nat) returns (out: Outcome)
      requires Valid() && id < mailboxes.Length
      ensures Performs(RendezvousResume(Snap(), id)) && out == RendezvousResume(Snap(), id).out
    {
      out := if mailboxes[id].isActive then Rendezvous else Error;
    }

    method MboxCondSend(id: int, msg: Buffer, size: int) returns (out: Outcome)
      requires Valid() && Readable(msg, size)
      modifies this, Arrays()
      ensures Valid() && Performs(CondSend(old(Snap()), id, msg, size))
        && out == CondSend(old(Snap()), id, msg, size).out
    {
      hide Balanced, Marked;
      Refines(Snap(), TrySending(id, msg, size));
      if id < 0 || id >= mailboxes.Length || !mailboxes[id].isActive {
        return Error;
      }
      if size < 0 || size > mailboxes[id].slotSize || (size > 0 && msg.Null?) {
        return Error;
      }
      if freeSlotCount == 0 || mailboxSlotQueues[id].count >= mailboxes[id].numSlots {
        return WouldBlock;
      }
      DepositMessage(id, Payload(msg, size));
      return Accepted;
    }

    method MboxCondRecv(id: int, max: int) returns (out: Outcome)
      requires Valid()
      modifies this, Arrays()
      ensures Valid() && Performs(CondRecv(old(Snap()), id, max)) && out == CondRecv(old(Snap()), id, max).out
    {
      hide Balanced, Marked;
      Refines(Snap(), TryReceiving(id, max));
      if id < 0 || id >= mailboxes.Length || !mailboxes[id].isActive || max < 0 {
        return Error;
      }
      if mailboxSlotQueues[id].count == 0 {
        return WouldBlock;
      }
      out := TakeMessage(id, max);
    }

    method MboxRelease(id: int) returns (out: Outcome)
      requires Valid()
      modifies this, Arrays()
      ensures Valid() && Performs(Release(old(Snap()), id)) && out == Release(old(Snap()), id).out
    {
      hide Balanced, Marked, BoxOk, BoxShape, SlotShape, Below, View, Allowed, Next;
      ghost var k := Snap();
      ReleaseRefines(k, id);
      hide Faithful;
      if id < 0 || id >= mailboxes.Length || !mailboxes[id].isActive {
        return Error;
      }
      UnblockWaiters(id);
      FreeRing(id);
      return Released;
    }

    /** Free the ring block of a closed mailbox: its slots are not given back. */
    method FreeRing(id: nat)
      requires Wired() && id < mailboxes.Length && !mailboxes[id].isActive
      modifies mailboxSlotQueues, this`lost
      ensures Wired() && Snap() ==
        old(Snap()).(rings := old(Snap()).rings[id := []], lost := old(Snap()).lost + old(Snap()).rings[id])
    {
      lost := lost + Window(mailboxSlotQueues[..][id]);
      SetRing(id, mailboxSlotQueues[id].(queue := [], count := 0, head := 0, tail := 0));
    }

    /** The part of MboxRelease that closes the mailbox and unblocks whoever waits. */
    method UnblockWaiters(id: nat)
      requires Wired() && Shape(Snap()) && IsOpen(Snap(), id)
      modifies mailboxes, blockedProducers, numBlockedProducers, blockedConsumers, numBlockedConsumers, this`unblocked
      ensures var k, e := old(Snap()), Release(old(Snap()), id);
        && Performs(e.(kernel := e.kernel.(rings := k.rings, lost := k.lost)))
    {
      mailboxes[id] := mailboxes[id].(isActive := false);
      UnblockRow(blockedProducers, id, numBlockedProducers[id]);
      ClearRow(blockedProducers, numBlockedProducers, id);
      if mailboxes[id].numSlots == 0 {
        UnblockRow(blockedConsumers, id, numBlockedConsumers[id]);
        ClearRow(blockedConsumers, numBlockedConsumers, id);
      } else if mailboxes[id].consumers.Some? {
        unblocked := unblocked + [shadowProcesses[mailboxes[id].consumers.value]];
        mailboxes[id] := mailboxes[id].(consumers := None);
      }
    }

    /** Give mailbox id an empty ring. */
    method SetRing(id: nat, ring: SlotQueue)
      requires Wired() && id < mailboxes.Length && RingOk(ring) && ring.count == 0
      requires mailboxes[id].isActive ==> |ring.queue| == mailboxes[id].numSlots
      modifies mailboxSlotQueues
      ensures Wired() && Snap() == old(Snap()).(rings := old(Snap()).rings[id := []])
      ensures mailboxSlotQueues[..] == old(mailboxSlotQueues[..])[id := ring]
    {
      ghost var k, queues := Snap(), mailboxSlotQueues[..];
      mailboxSlotQueues[id] := ring;
      assert mailboxSlotQueues[..] == queues[id := ring];
      assert Windows(mailboxSlotQueues[..]) == k.rings[id := []];
    }

    /** Call unblockProc on the first n pids of a row, in order. */
    method UnblockRow(a: array2<int>, id: nat, n: nat)
      requires id < a.Length0 && n <= a.Length1
      modifies this`unblocked
      ensures unblocked == old(unblocked) + Row(a, id, n)
    {
      var i := 0;
      while i < n
        invariant 0 <= i <= n
        invariant unblocked == old(unblocked) + Row(a, id, n)[..i]
      {
        unblocked := unblocked + [a[id, i]];
        i := i + 1;
      }
      assert Row(a, id, n)[..n] == Row(a, id, n);
    }
  }
}
