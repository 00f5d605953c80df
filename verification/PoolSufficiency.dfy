/**
  The empty-pool test of a send is made once, before the wait-if-full loop.  The
  slot a sender takes after the loop is there if the mailboxes are not configured
  for more slots than the pool has left.
 */
module PoolSufficiency {
  import opened Mailboxes
  import opened SlotLedger
  import opened MailboxFifo
  import opened MailboxRuns

  ghost function SumCapacities(boxes: seq<Mbox>): nat {
    if boxes == [] then 0
    else (if boxes[0].isActive then boxes[0].numSlots else 0) + SumCapacities(boxes[1..])
  }

  /** The capacities of the open mailboxes, plus `spare` slots, fit in what is not lost. */
  ghost predicate Provisioned(k: Kernel, spare: nat) {
    SumCapacities(k.boxes) + |k.lost| + spare <= |k.slots|
  }

  ghost predicate RingFits(box: Mbox, ring: seq<nat>) {
    |ring| <= if box.isActive then box.numSlots else 0
  }

  lemma {:induction false} RingsFit(boxes: seq<Mbox>, rings: seq<seq<nat>>)
    requires |rings| == |boxes| && forall m :: 0 <= m < |boxes| ==> RingFits(boxes[m], rings[m])
    ensures SumLengths(rings) <= SumCapacities(boxes)
  {
    if boxes != [] {
      assert RingFits(boxes[0], rings[0]);
      forall m | 0 <= m < |boxes| - 1 ensures RingFits(boxes[1..][m], rings[1..][m]) {
        assert RingFits(boxes[m + 1], rings[m + 1]);
      }
      RingsFit(boxes[1..], rings[1..]);
    }
  }

  lemma {:induction false} RoomCounts(boxes: seq<Mbox>, rings: seq<seq<nat>>, id: nat)
    requires |rings| == |boxes| && forall m :: 0 <= m < |boxes| ==> RingFits(boxes[m], rings[m])
    requires id < |boxes| && boxes[id].isActive && |rings[id]| < boxes[id].numSlots
    ensures SumLengths(rings) < SumCapacities(boxes)
  {
    assert RingFits(boxes[0], rings[0]);
    forall m | 0 <= m < |boxes| - 1 ensures RingFits(boxes[1..][m], rings[1..][m]) {
      assert RingFits(boxes[m + 1], rings[m + 1]);
    }
    if id == 0 {
      RingsFit(boxes[1..], rings[1..]);
    } else {
      RoomCounts(boxes[1..], rings[1..], id - 1);
    }
  }

  /** In a provisioned kernel a mailbox with room finds a free slot; with spare slots, the pool is never empty. */
  lemma RoomMeansFreeSlot(k: Kernel, spare: nat)
    requires Inv(k) && Provisioned(k, spare)
    ensures |k.free| >= spare
    ensures forall id :: 0 <= id < |k.boxes| && k.boxes[id].isActive && |k.rings[id]| < k.boxes[id].numSlots ==>
      |k.free| > spare
  {
    Conservation(k);
    hide Balanced, Marked;
    forall m | 0 <= m < |k.boxes| ensures RingFits(k.boxes[m], k.rings[m]) {
      assert BoxOk(k.boxes[m], k.rings[m], k.producers[m], k.consumers[m]);
    }
    RingsFit(k.boxes, k.rings);
    forall id | 0 <= id < |k.boxes| && k.boxes[id].isActive && |k.rings[id]| < k.boxes[id].numSlots
      ensures |k.free| > spare
    {
      RoomCounts(k.boxes, k.rings, id);
    }
  }

  // --- over runs ------------------------------------------------------------------------

  /** A pending sender of an open mailbox is waiting in a mailbox that has slots. */
  ghost predicate SendersSlotted(s: System)
    requires SystemOk(s)
  {
    forall p :: p in s.procs ==> SenderSlotted(s.kernel, s.procs[p].call)
  }

  ghost predicate SenderSlotted(k: Kernel, call: Call)
  {
    call.SendCall? && 0 <= call.id < |k.boxes| && k.boxes[call.id].isActive ==> k.boxes[call.id].numSlots > 0
  }

  /** A mailbox id is not handed out again while a sender of its earlier life is pending. */
  ghost predicate FreshId(s: System, a: Action)
    requires SystemOk(s) && Enabled(s, a)
  {
    var out := EffectOf(s, a).out;
    out.Created? ==> forall p :: p in s.procs && s.procs[p].call.SendCall? ==> s.procs[p].call.id != out.id
  }

  /** The slot count of a mailbox changes only when it is created. */
  lemma ConfigStays(k: Kernel, slice: Slice, m: nat)
    requires Inv(k) && Runnable(k, slice) && m < |k.boxes|
    ensures var e := Execute(k, slice);
      && Inv(e.kernel) && |e.kernel.boxes| == |k.boxes|
      && (e.out != Created(m) && e.kernel.boxes[m].isActive ==>
         k.boxes[m].isActive && e.kernel.boxes[m].numSlots == k.boxes[m].numSlots)
  {
    hide Balanced, Marked, Execute;
    Refines(k, slice);
    SameMailboxes(k, slice);
    assert View(k).boxes[m] == BoxView(k, m)
      && View(Execute(k, slice).kernel).boxes[m] == BoxView(Execute(k, slice).kernel, m);
  }

  lemma PendingSlotted(k: Kernel, slice: Slice)
    requires Inv(k) && Runnable(k, slice) && Execute(k, slice).out.Blocked?
    requires slice.SendResuming? ==> k.boxes[slice.id].isActive ==> k.boxes[slice.id].numSlots > 0
    ensures (slice.Sending? || slice.Receiving? || slice.SendResuming?) && 0 <= slice.id < |k.boxes|
    ensures SenderSlotted(Execute(k, slice).kernel, PendingCall(k, slice))
  {
    hide Balanced, Marked;
  }

  lemma SendersSlottedStep(s: System, a: Action)
    requires SystemOk(s) && Enabled(s, a) && SendersSlotted(s) && FreshId(s, a)
    ensures SystemOk(After(s, a)) && SendersSlotted(After(s, a))
  {
    hide Balanced, Marked, Logged, Execute;
    AfterOk(s, a);
    var slice, e, s' := SliceOf(s, a), EffectOf(s, a), After(s, a);
    hide After;
    forall p | p in s'.procs ensures SenderSlotted(e.kernel, s'.procs[p].call) {
      ProcsAfter(s, a, p);
      if e.out.Blocked? && p in Caller(a) {
        assert slice.SendResuming? ==> SenderSlotted(s.kernel, s.procs[p].call);
        PendingSlotted(s.kernel, slice);
      } else {
        assert SenderSlotted(s.kernel, s.procs[p].call) && CallOk(s.kernel, s.procs[p].call);
        ConfigStays(s.kernel, slice, s.procs[p].call.id);
      }
    }
  }

  /** Runs in which every id is fresh and the kernel is provisioned whenever an action starts. */
  ghost predicate ProvisionedRun(s: System, actions: seq<Action>)
    requires SystemOk(s) && IsRun(s, actions)
    decreases |actions|
  {
    actions == [] || (
      && Provisioned(s.kernel, 0) && FreshId(s, actions[0])
      && (AfterOk(s, actions[0]); ProvisionedRun(After(s, actions[0]), actions[1..])))
  }

  ghost predicate NeverFaults(s: System, actions: seq<Action>)
    requires SystemOk(s) && IsRun(s, actions)
    decreases |actions|
  {
    actions == [] || (
      && !EffectOf(s, actions[0]).out.Fault?
      && (AfterOk(s, actions[0]); NeverFaults(After(s, actions[0]), actions[1..])))
  }

  /** The only faults are those of a resumed sender, and exactly these. */
  lemma FaultExactly(s: System, a: Action)
    requires SystemOk(s) && Enabled(s, a)
    ensures EffectOf(s, a).out.Fault? <==>
      && a.Resume? && s.procs[a.pid].call.SendCall?
      && var id := s.procs[a.pid].call.id;
        && 0 <= id < |s.kernel.boxes| && s.kernel.boxes[id].isActive
        && (s.kernel.boxes[id].numSlots == 0
           || (|s.kernel.rings[id]| < s.kernel.boxes[id].numSlots && s.kernel.free == []))
  {
    hide Balanced, Marked, Execute, Next;
    var slice := SliceOf(s, a);
    Refines(s.kernel, slice);
    if slice.SendResuming? {
      assert View(s.kernel).boxes[slice.id] == BoxView(s.kernel, slice.id);
    }
  }

  /** Pool sufficiency over whole runs: no sender ever underflows the free stack. */
  lemma {:induction false} PoolNeverUnderflows(s: System, actions: seq<Action>)
    requires SystemOk(s) && IsRun(s, actions) && ProvisionedRun(s, actions) && SendersSlotted(s)
    ensures NeverFaults(s, actions)
    decreases |actions|
  {
    hide Balanced, Marked, After;
    if actions != [] {
      var a := actions[0];
      RoomMeansFreeSlot(s.kernel, 0);
      FaultExactly(s, a);
      assert a.Resume? ==> SenderSlotted(s.kernel, s.procs[a.pid].call);
      SendersSlottedStep(s, a);
      PoolNeverUnderflows(After(s, a), actions[1..]);
    }
  }
}
