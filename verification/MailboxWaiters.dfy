/**
  What each call answers, and what it does to the processes that wait at its mailbox: when it
  blocks, whom it records and whom it unblocks.  With the queues of messages this is all of the
  kernel's state; it is told by the outcome, for every slice at once.
 */
module MailboxWaiters {
  import opened Wrappers
  import opened Sequences
  import opened Mailboxes
  import opened SlotLedger
  import opened MailboxFifo
  import opened MailboxRuns

  /** The two lists of blocked processes of a mailbox and its two pointers into the shadow processes. */
  datatype Side = Side(senders: seq<int>, receivers: seq<int>, receiver: Option<nat>, sender: Option<nat>)

  ghost predicate SameEntries(k: Kernel) {
    |k.producers| == |k.consumers| == |k.boxes|
  }

  ghost function SideOf(k: Kernel, m: nat): Side
    requires SameEntries(k) && m < |k.boxes|
  {
    Side(k.producers[m], k.consumers[m], k.boxes[m].consumers, k.boxes[m].producers)
  }

  // --- when a call blocks ---------------------------------------------------------------------------

  /**
    A send to a zero-slot mailbox waits for a receiver to have come, a receive for a recorded
    sender; with slots, a send waits for room if the pool is not empty, a receive for a message.
   */
  ghost predicate HasToWait(k: Kernel, slice: Slice)
    requires Shape(k)
  {
    match slice
    case Sending(_, id, msg, size) =>
      && 0 <= id < |k.boxes| && k.boxes[id].isActive
      && 0 <= size <= k.boxes[id].slotSize && (msg == Null ==> size == 0)
      && if k.boxes[id].numSlots == 0 then k.boxes[id].consumers == None
         else k.free != [] && |k.rings[id]| == k.boxes[id].numSlots
    case SendResuming(_, id, _) =>
      && 0 <= id < |k.boxes| && k.boxes[id].isActive
      && k.boxes[id].numSlots > 0 && |k.rings[id]| == k.boxes[id].numSlots
    case Receiving(_, id, max) =>
      && 0 <= id < |k.boxes| && k.boxes[id].isActive && max >= 0
      && if k.boxes[id].numSlots == 0 then k.producers[id] == [] else k.rings[id] == []
    case _ => false
  }

  lemma BlocksExactly(k: Kernel, slice: Slice)
    requires Inv(k) && Runnable(k, slice)
    ensures Execute(k, slice).out.Blocked? <==> HasToWait(k, slice)
  {
    hide Balanced, Marked;
    if slice.Sending? || slice.SendResuming? || slice.Receiving? {
      if 0 <= slice.id < |k.boxes| {
        assert BoxOk(k.boxes[slice.id], k.rings[slice.id], k.producers[slice.id], k.consumers[slice.id]);
      }
    }
  }

  // --- what becomes of the waiting processes -----------------------------------------------------------

  function First(list: seq<int>): seq<int> {
    if list == [] then [] else [list[0]]
  }

  function Rest(list: seq<int>): seq<int> {
    if list == [] then [] else list[1..]
  }

  /** Nobody is unblocked. */
  ghost predicate Quiet(e: Effect) {
    e.producersWoken == [] && e.consumersWoken == []
  }

  /** The caller is recorded if the list has room, and if its shadow process is used, that has its pid now. */
  ghost predicate Waits(k: Kernel, slice: Slice, e: Effect, m: nat)
    requires SameEntries(k) && SameEntries(e.kernel) && m < |k.boxes| == |e.kernel.boxes| && |k.shadow| > 0
    requires e.out.Blocked? && (slice.Sending? || slice.SendResuming? || slice.Receiving?)
  {
    var s, s', pid, own := SideOf(k, m), SideOf(e.kernel, m), slice.pid, slice.pid % |k.shadow|;
    var added := if e.out.recorded then [pid] else [];
    && Quiet(e)
    && if slice.Receiving? then
         && (e.out.recorded <==> |s.receivers| < 10)
         && s' == s.(receivers := s.receivers + added, receiver := Some(own)) && e.kernel.shadow == k.shadow[own := pid]
       else if k.boxes[m].numSlots == 0 then
         && (e.out.recorded <==> |s.senders| < 10)
         && s' == s.(senders := s.senders + added, sender := Some(own)) && e.kernel.shadow == k.shadow[own := pid]
       else
         && (e.out.recorded <==> |s.senders| < 10 && pid !in s.senders)
         && s' == s.(senders := s.senders + added) && e.kernel.shadow == k.shadow
  }

  /** The mailbox is told of a waiting receiver, and one is recorded. */
  ghost predicate ReceiverWaits(s: Side) {
    s.receiver.Some? && s.receivers != []
  }

  /** A call that returns: who is unblocked, and who is still recorded. */
  ghost predicate Returns(k: Kernel, slice: Slice, e: Effect, m: nat)
    requires SameEntries(k) && SameEntries(e.kernel) && m < |k.boxes| == |e.kernel.boxes|
    requires SideOf(k, m).receiver.Some? ==> SideOf(k, m).receiver.value < |k.shadow|
    requires !e.out.Blocked?
  {
    var s, s' := SideOf(k, m), SideOf(e.kernel, m);
    var told := if slice.RecvResuming? && k.boxes[m].isActive then s.(receiver := None) else s;
    var pointed := if s.receiver.Some? then [k.shadow[s.receiver.value]] else [];
    && e.kernel.shadow == k.shadow
    && match e.out
       case Rendezvous =>
         if slice.Sending? then
           s.receiver.Some? && s' == s.(receiver := None) && e.consumersWoken == pointed && e.producersWoken == []
         else if slice.Receiving? then
           && s.senders != [] && s' == s.(senders := Rest(s.senders))
           && e.producersWoken == First(s.senders) && e.consumersWoken == []
         else s' == s && Quiet(e)
       case Accepted =>
         && s' == (if ReceiverWaits(s) then s.(receivers := Rest(s.receivers)) else s)
         && e.consumersWoken == (if ReceiverWaits(s) then First(s.receivers) else []) && e.producersWoken == []
       case Delivered(_) =>
         && s' == told.(senders := Rest(s.senders))
         && e.producersWoken == First(s.senders) && e.consumersWoken == []
       case Created(_) => s' == s.(receiver := None, sender := None) && Quiet(e)
       case Released =>
         && e.producersWoken == s.senders
         && if k.boxes[m].numSlots == 0 then s' == s.(senders := [], receivers := []) && e.consumersWoken == s.receivers
            else s' == s.(senders := [], receiver := None) && e.consumersWoken == pointed
       case _ => s' == told && Quiet(e)
  }

  /** A slice touches only the mailbox it is about, and that one in this way. */
  ghost predicate WaitersMove(k: Kernel, slice: Slice, e: Effect)
    requires Shape(k)
  {
    var m := Subject(slice, e.out);
    && SameEntries(e.kernel) && |e.kernel.boxes| == |k.boxes|
    && (forall n :: 0 <= n < |k.boxes| && n != m ==> SideOf(e.kernel, n) == SideOf(k, n))
    && (e.out.Blocked? ==> (slice.Sending? || slice.SendResuming? || slice.Receiving?) && 0 <= m < |k.boxes|)
    && (0 <= m < |k.boxes| ==> if e.out.Blocked? then Waits(k, slice, e, m) else Returns(k, slice, e, m))
    && (!(0 <= m < |k.boxes|) ==> Quiet(e) && e.kernel.shadow == k.shadow)
  }

  lemma SendWaiters(k: Kernel, slice: Slice)
    requires Inv(k) && Runnable(k, slice) && slice.Sending?
    ensures WaitersMove(k, slice, Execute(k, slice))
  {
    hide Balanced, Marked, BoxOk, SlotShape, Below;
  }

  lemma ResumedSendWaiters(k: Kernel, slice: Slice)
    requires Inv(k) && Runnable(k, slice) && slice.SendResuming?
    ensures WaitersMove(k, slice, Execute(k, slice))
  {
    hide Balanced, Marked, BoxOk, SlotShape, Below;
  }

  lemma CondSendWaiters(k: Kernel, slice: Slice)
    requires Inv(k) && Runnable(k, slice) && slice.TrySending?
    ensures WaitersMove(k, slice, Execute(k, slice))
  {
    hide Balanced, Marked, BoxOk, SlotShape, Below;
  }

  lemma ReceiveWaiters(k: Kernel, slice: Slice)
    requires Inv(k) && Runnable(k, slice) && slice.Receiving?
    ensures WaitersMove(k, slice, Execute(k, slice))
  {
    hide Balanced, Marked, BoxOk, SlotShape, Below;
  }

  lemma ResumedReceiveWaiters(k: Kernel, slice: Slice)
    requires Inv(k) && Runnable(k, slice) && slice.RecvResuming?
    ensures WaitersMove(k, slice, Execute(k, slice))
  {
    hide Balanced, Marked, BoxOk, SlotShape, Below;
  }

  lemma CondReceiveWaiters(k: Kernel, slice: Slice)
    requires Inv(k) && Runnable(k, slice) && slice.TryReceiving?
    ensures WaitersMove(k, slice, Execute(k, slice))
  {
    hide Balanced, Marked, BoxOk, SlotShape, Below;
  }

  lemma OtherWaiters(k: Kernel, slice: Slice)
    requires Inv(k) && Runnable(k, slice) && (slice.MeetingResuming? || slice.Creating? || slice.Releasing?)
    ensures WaitersMove(k, slice, Execute(k, slice))
  {
    hide Balanced, Marked, BoxOk, SlotShape, Below;
  }

  lemma WaitersExactly(k: Kernel, slice: Slice)
    requires Inv(k) && Runnable(k, slice)
    ensures WaitersMove(k, slice, Execute(k, slice))
  {
    hide Balanced, Marked, WaitersMove, Execute;
    if slice.Sending? {
      SendWaiters(k, slice);
    } else if slice.SendResuming? {
      ResumedSendWaiters(k, slice);
    } else if slice.TrySending? {
      CondSendWaiters(k, slice);
    } else if slice.Receiving? {
      ReceiveWaiters(k, slice);
    } else if slice.RecvResuming? {
      ResumedReceiveWaiters(k, slice);
    } else if slice.TryReceiving? {
      CondReceiveWaiters(k, slice);
    } else {
      OtherWaiters(k, slice);
    }
  }

  // --- creation -----------------------------------------------------------------------------------------

  /** MboxCreate succeeds exactly on these arguments, and opens the first closed entry. */
  ghost predicate Creates(k: Kernel, slice: Slice, out: Outcome) {
    slice.Creating? ==>
      && (out.Created? <==>
           && 0 <= slice.numSlots <= |k.slots| && 0 <= slice.slotSize <= 150
           && exists m :: 0 <= m < |k.boxes| && !k.boxes[m].isActive)
      && (out.Created? ==>
           && out.id < |k.boxes| && !k.boxes[out.id].isActive
           && forall m :: 0 <= m < out.id ==> k.boxes[m].isActive)
  }

  lemma CreatesExactly(k: Kernel, slice: Slice)
    requires Shape(k) && Runnable(k, slice)
    ensures Creates(k, slice, Execute(k, slice).out)
  {
    if slice.Creating? {
      var id := FirstInactive(k.boxes);
      assert id < |k.boxes| ==> !k.boxes[id].isActive;
    }
  }

  // --- the whole answer -----------------------------------------------------------------------------------

  /** What is promised of a slice: its answer, the queues of messages, and the waiting processes. */
  ghost predicate Promised(k: Kernel, slice: Slice, e: Effect)
    requires Shape(k) && Runnable(k, slice)
  {
    && Inv(e.kernel) && Allowed(View(k), slice, e.out) && View(e.kernel) == Next(View(k), slice, e.out)
    && (e.out.Blocked? <==> HasToWait(k, slice))
    && Creates(k, slice, e.out)
    && WaitersMove(k, slice, e)
  }

  lemma KeepsPromise(k: Kernel, slice: Slice)
    requires Inv(k) && Runnable(k, slice)
    ensures Promised(k, slice, Execute(k, slice))
  {
    hide Balanced, Marked, Execute, Creates, WaitersMove, HasToWait, Allowed, Next;
    Refines(k, slice);
    BlocksExactly(k, slice);
    CreatesExactly(k, slice);
    WaitersExactly(k, slice);
  }

  lemma PromiseDecidesAnswer(k: Kernel, slice: Slice, e: Effect, d: Effect)
    requires Inv(k) && Runnable(k, slice) && Promised(k, slice, e) && Promised(k, slice, d)
    ensures e.out == d.out
  {
    hide Balanced, Marked, Next, View;
  }

  lemma WaitsDecide(k: Kernel, slice: Slice, e: Effect, d: Effect, m: nat)
    requires SameEntries(k) && SameEntries(e.kernel) && SameEntries(d.kernel)
    requires m < |k.boxes| == |e.kernel.boxes| == |d.kernel.boxes| && |k.shadow| > 0
    requires e.out == d.out && e.out.Blocked? && (slice.Sending? || slice.SendResuming? || slice.Receiving?)
    requires Waits(k, slice, e, m) && Waits(k, slice, d, m)
    ensures SideOf(e.kernel, m) == SideOf(d.kernel, m) && e.kernel.shadow == d.kernel.shadow
    ensures e.producersWoken == d.producersWoken && e.consumersWoken == d.consumersWoken
  {}

  lemma ReturnsDecide(k: Kernel, slice: Slice, e: Effect, d: Effect, m: nat)
    requires SameEntries(k) && SameEntries(e.kernel) && SameEntries(d.kernel)
    requires m < |k.boxes| == |e.kernel.boxes| == |d.kernel.boxes|
    requires SideOf(k, m).receiver.Some? ==> SideOf(k, m).receiver.value < |k.shadow|
    requires e.out == d.out && !e.out.Blocked? && Returns(k, slice, e, m) && Returns(k, slice, d, m)
    ensures SideOf(e.kernel, m) == SideOf(d.kernel, m) && e.kernel.shadow == d.kernel.shadow
    ensures e.producersWoken == d.producersWoken && e.consumersWoken == d.consumersWoken
  {}

  ghost predicate SameSides(a: Kernel, b: Kernel) {
    && SameEntries(a) && SameEntries(b) && |a.boxes| == |b.boxes|
    && forall m :: 0 <= m < |a.boxes| ==> SideOf(a, m) == SideOf(b, m)
  }

  lemma SidesDecide(k: Kernel, slice: Slice, e: Effect, d: Effect)
    requires Shape(k) && WaitersMove(k, slice, e) && WaitersMove(k, slice, d) && e.out == d.out
    ensures e.producersWoken == d.producersWoken && e.consumersWoken == d.consumersWoken
    ensures e.kernel.shadow == d.kernel.shadow
    ensures SameSides(e.kernel, d.kernel)
  {
    hide SlotShape, Below, Waits, Returns;
    var m := Subject(slice, e.out);
    if 0 <= m < |k.boxes| {
      if e.out.Blocked? { WaitsDecide(k, slice, e, d, m); } else { ReturnsDecide(k, slice, e, d, m); }
    }
  }

  /** The promise leaves no choice: two effects that keep it differ at most in which slots hold the messages. */
  lemma PromiseDecides(k: Kernel, slice: Slice, e: Effect, d: Effect)
    requires Inv(k) && Runnable(k, slice) && Promised(k, slice, e) && Promised(k, slice, d)
    ensures e.out == d.out && View(e.kernel) == View(d.kernel)
    ensures e.producersWoken == d.producersWoken && e.consumersWoken == d.consumersWoken
    ensures e.kernel.shadow == d.kernel.shadow
    ensures SameSides(e.kernel, d.kernel)
  {
    hide Balanced, Marked, Next, View, Allowed, HasToWait, Creates;
    hide WaitersMove, BoxOk;
    PromiseDecidesAnswer(k, slice, e, d);
    SidesDecide(k, slice, e, d);
  }

  /** What is left of a call that blocked: the rest of the same call, with the same message or buffer. */
  function RestOf(k: Kernel, slice: Slice): Slice
    requires (slice.Sending? || slice.SendResuming? || slice.Receiving?) && 0 <= slice.id < |k.boxes|
    requires slice.Sending? ==> Readable(slice.msg, slice.size)
  {
    match slice
    case Receiving(_, id, max) =>
      if k.boxes[id].numSlots == 0 then MeetingResuming(id) else RecvResuming(id, max)
    case Sending(pid, id, msg, size) =>
      if k.boxes[id].numSlots == 0 then MeetingResuming(id) else SendResuming(pid, id, FirstBytes(msg, size))
    case _ => slice
  }

  /** A process whose call blocks does the rest of it when it is resumed, and not before it is unblocked. */
  lemma BlockedCallGoesOn(s: System, a: Action)
    requires SystemOk(s) && Enabled(s, a) && EffectOf(s, a).out.Blocked?
    ensures var slice, t := SliceOf(s, a), After(s, a);
      && (slice.Sending? || slice.SendResuming? || slice.Receiving?) && 0 <= slice.id < |s.kernel.boxes|
      && slice.pid in t.procs && !Enabled(t, Resume(slice.pid))
      && SliceOf(t, Resume(slice.pid)) == RestOf(s.kernel, slice)
  {
    hide Balanced, Marked, Execute, After, Payload, FirstBytes;
    var slice := SliceOf(s, a);
    BlockedSender(s, a);
    ProcsAfter(s, a, slice.pid);
    BlocksExactly(s.kernel, slice);
    if slice.Sending? { PayloadIsFirstBytes(slice.msg, slice.size); }
  }

  // --- meetings, over runs ----------------------------------------------------------------------------------

  /** m is open without slots, and is not released. */
  ghost predicate StaysMeeting(s: System, actions: seq<Action>, m: nat)
    requires SystemOk(s) && IsRun(s, actions)
    decreases |actions|
  {
    && m < |s.kernel.boxes| && s.kernel.boxes[m].isActive && s.kernel.boxes[m].numSlots == 0
    && (actions == [] || (AfterOk(s, actions[0]); StaysMeeting(After(s, actions[0]), actions[1..], m)))
  }

  /** The senders that receives from m found waiting, in the order of those receives. */
  ghost function Met(s: System, actions: seq<Action>, m: nat): seq<int>
    requires SystemOk(s) && IsRun(s, actions) && m < |s.kernel.producers|
    decreases |actions|
  {
    if actions == [] then []
    else
      AfterOk(s, actions[0]);
      var slice, t := SliceOf(s, actions[0]), After(s, actions[0]);
      SameMailboxes(s.kernel, slice);
      (if slice.Receiving? && slice.id == m && slice.max >= 0 then First(s.kernel.producers[m]) else []) +
      Met(t, actions[1..], m)
  }

  lemma MeetingWakes(k: Kernel, slice: Slice, m: nat)
    requires Inv(k) && Runnable(k, slice) && m < |k.boxes| && k.boxes[m].isActive && k.boxes[m].numSlots == 0
    requires m == Subject(slice, Execute(k, slice).out)
    requires m < |Execute(k, slice).kernel.boxes| && Execute(k, slice).kernel.boxes[m].isActive
    ensures Execute(k, slice).producersWoken == if slice.Receiving? && slice.max >= 0 then First(k.producers[m]) else []
  {
    hide Balanced, Marked, Execute;
    WaitersExactly(k, slice);
    BlocksExactly(k, slice);
    Refines(k, slice);
    var k' := Execute(k, slice).kernel;
    assert View(k).boxes[m] == BoxView(k, m) && View(k').boxes[m] == BoxView(k', m);
    assert BoxOk(k.boxes[m], k.rings[m], k.producers[m], k.consumers[m]);
    assert |BoxView(k, m).queue| == |k.rings[m]| == 0;
  }

  lemma MeetingStep(s: System, a: Action, m: nat)
    requires SystemOk(s) && Enabled(s, a) && m < |s.kernel.boxes|
    requires s.kernel.boxes[m].isActive && s.kernel.boxes[m].numSlots == 0
    requires m < |After(s, a).kernel.boxes| && After(s, a).kernel.boxes[m].isActive
    ensures var slice, t := SliceOf(s, a), After(s, a);
      var met := if slice.Receiving? && slice.id == m && slice.max >= 0 then First(s.kernel.producers[m]) else [];
      |t.logs| == |s.logs| && t.logs[m].woken == s.logs[m].woken + met
  {
    hide Balanced, Marked, Execute, After;
    LogAfter(s, a, m);
    if m == Subject(SliceOf(s, a), EffectOf(s, a).out) {
      MeetingWakes(s.kernel, SliceOf(s, a), m);
    } else {
      assert s.logs[m].woken + [] == s.logs[m].woken;
    }
  }

  lemma {:induction false} WokenAreMet(s: System, actions: seq<Action>, m: nat)
    requires SystemOk(s) && IsRun(s, actions) && StaysMeeting(s, actions, m) && OrderLaw(s, m)
    ensures var t := Run(s, actions);
      SystemOk(t) && m < |t.logs| && OrderLaw(t, m) && t.logs[m].woken == s.logs[m].woken + Met(s, actions, m)
    decreases |actions|
  {
    hide Enabled, After, Inv, OrderLaw, SliceOf, EffectOf;
    if actions != [] {
      var a := actions[0];
      OrderLawStep(s, a, m);
      MeetingStep(s, a, m);
      WokenAreMet(After(s, a), actions[1..], m);
    }
  }

  /**
    Meetings at a zero-slot mailbox: each receive that finds senders recorded lets exactly the
    first of them go, and nothing else lets one go; so senders are met in the order they came.
   */
  lemma SendersMetInOrder(s: System, actions: seq<Action>, m: nat)
    requires SystemOk(s) && IsRun(s, actions) && StaysMeeting(s, actions, m) && OrderLaw(s, m)
    ensures var t := Run(s, actions);
      && SystemOk(t) && m < |t.logs|
      && t.logs[m].woken == s.logs[m].woken + Met(s, actions, m)
      && t.logs[m].recorded == s.logs[m].woken + Met(s, actions, m) + t.kernel.producers[m]
  {
    hide Inv, CallOk, Met, StaysMeeting, Run, IsRun;
    WokenAreMet(s, actions, m);
  }
}
