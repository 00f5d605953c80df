/**
  Whom a call unblocks as a receiver, and what that does to the wake-up law of senders.
  The call reads pids off a list of blocked consumers or off the shadow process that the
  mailbox's consumer pointer names; neither is kept exact by every call.
 */
module ReceiverWakes {
  import opened Mailboxes
  import opened SlotLedger
  import opened MailboxRuns
  import opened ProducerWakeups

  // --- whom a call unblocks as a receiver, before it is made --------------------------------

  ghost function PointedAt(k: Kernel, id: nat): seq<int>
    requires Shape(k) && id < |k.boxes|
  {
    if k.boxes[id].consumers.Some? then [k.shadow[k.boxes[id].consumers.value]] else []
  }

  ghost function NextReceiver(k: Kernel, id: nat): seq<int>
    requires Shape(k) && id < |k.boxes|
  {
    if k.boxes[id].consumers.Some? && k.consumers[id] != [] then [k.consumers[id][0]] else []
  }

  ghost function Targets(k: Kernel, slice: Slice): seq<int>
    requires Shape(k) && Runnable(k, slice)
  {
    match slice
    case Sending(_, id, msg, size) =>
      if !SendIsValid(k, id, msg, size) then []
      else if k.boxes[id].numSlots == 0 then PointedAt(k, id)
      else if k.free == [] || |k.rings[id]| >= k.boxes[id].numSlots then []
      else NextReceiver(k, id)
    case TrySending(id, msg, size) =>
      if !SendIsValid(k, id, msg, size) || k.free == [] || |k.rings[id]| >= k.boxes[id].numSlots then []
      else NextReceiver(k, id)
    case SendResuming(_, id, _) =>
      if !IsOpen(k, id) || k.free == [] || |k.rings[id]| >= k.boxes[id].numSlots then [] else NextReceiver(k, id)
    case Releasing(id) =>
      if !IsOpen(k, id) then [] else if k.boxes[id].numSlots == 0 then k.consumers[id] else PointedAt(k, id)
    case _ => []
  }

  lemma TargetsAreWoken(k: Kernel, slice: Slice)
    requires Inv(k) && Runnable(k, slice)
    ensures Execute(k, slice).consumersWoken == Targets(k, slice)
  {
    hide Balanced, Marked;
  }

  // --- when the records of senders survive a step -----------------------------------------------

  /** One of those pids belongs to a process that is recorded as a sender, and stays recorded. */
  ghost predicate Misdirected(k: Kernel, slice: Slice)
    requires Shape(k) && Runnable(k, slice)
  {
    exists n, p ::
      0 <= n < |k.producers| && p in k.producers[n] && p in Targets(k, slice) && !(slice.Releasing? && slice.id == n)
  }

  lemma ListsOfTargets(k: Kernel, slice: Slice)
    requires Inv(k) && Runnable(k, slice) && Targets(k, slice) != []
    ensures Execute(k, slice).kernel.producers ==
      if slice.Releasing? && 0 <= slice.id < |k.producers| then k.producers[slice.id := []] else k.producers
  {
    hide Balanced, Marked;
  }

  lemma MisdirectedIs(k: Kernel, slice: Slice)
    requires Inv(k) && Runnable(k, slice)
    ensures ReceiversOnly(Execute(k, slice)) <==> !Misdirected(k, slice)
  {
    hide Balanced, Marked, Execute, Targets;
    TargetsAreWoken(k, slice);
    var e, targets := Execute(k, slice), Targets(k, slice);
    if targets != [] {
      ListsOfTargets(k, slice);
      if Misdirected(k, slice) {
        var n, p :| 0 <= n < |k.producers| && p in k.producers[n] && p in targets
          && !(slice.Releasing? && slice.id == n);
        assert p in e.kernel.producers[n];
      }
    }
  }

  /**
    The records of blocked senders stay exact, in every mailbox, exactly if the step misdirects
    nobody. A misdirected step loses no wake-up itself: a later receive may, by waking a process
    that is recorded but has left.
   */
  lemma RecordsExactly(s: System, a: Action)
    requires SystemOk(s) && Enabled(s, a) && AllRecording(s)
    ensures SystemOk(After(s, a)) && (AllRecording(After(s, a)) <==> !Misdirected(s.kernel, SliceOf(s, a)))
  {
    hide Balanced, Marked, Execute, After, Recording, Misdirected;
    AfterOk(s, a);
    var e := EffectOf(s, a);
    MisdirectedIs(s.kernel, SliceOf(s, a));
    SameMailboxes(s.kernel, SliceOf(s, a));
    AfterKernel(s, a);
    if ReceiversOnly(e) {
      forall m | 0 <= m < |After(s, a).kernel.boxes| ensures Recording(After(s, a), m) {
        RecordingStep(s, a, m);
      }
    } else {
      var m, p :| 0 <= m < |e.kernel.producers| && p in e.kernel.producers[m] && p in e.consumersWoken;
      StaleRecord(s, a, m, p);
    }
  }

  lemma AfterKernel(s: System, a: Action)
    requires SystemOk(s) && Enabled(s, a)
    ensures After(s, a).kernel == EffectOf(s, a).kernel
  {
    hide Balanced, Marked, Execute;
  }

  ghost predicate NobodyMisdirected(s: System, actions: seq<Action>)
    requires SystemOk(s) && IsRun(s, actions)
    decreases |actions|
  {
    actions == [] || (
      && !Misdirected(s.kernel, SliceOf(s, actions[0]))
      && (AfterOk(s, actions[0]); NobodyMisdirected(After(s, actions[0]), actions[1..])))
  }

  ghost predicate RecordsThroughout(s: System, actions: seq<Action>)
    requires SystemOk(s) && IsRun(s, actions)
    decreases |actions|
  {
    AllRecording(s)
      && (actions == [] || (AfterOk(s, actions[0]); RecordsThroughout(After(s, actions[0]), actions[1..])))
  }

  lemma {:induction false} RecordsThroughoutExactly(s: System, actions: seq<Action>)
    requires SystemOk(s) && IsRun(s, actions) && AllRecording(s)
    ensures RecordsThroughout(s, actions) <==> NobodyMisdirected(s, actions)
    decreases |actions|
  {
    hide AllRecording, SystemOk, After, Enabled, Misdirected, SliceOf;
    if actions != [] {
      AfterOk(s, actions[0]);
      RecordsExactly(s, actions[0]);
      if AllRecording(After(s, actions[0])) {
        RecordsThroughoutExactly(After(s, actions[0]), actions[1..]);
      } else {
        NotThroughout(After(s, actions[0]), actions[1..]);
      }
    }
  }

  lemma NotThroughout(s: System, actions: seq<Action>)
    requires SystemOk(s) && IsRun(s, actions) && !AllRecording(s)
    ensures !RecordsThroughout(s, actions)
  {}
}
