/**
  Runs in which no wake-up of a sender is lost.  The hypothesis is on each action, in the
  state it starts in: which mailboxes are created and released, how large the receive
  buffers are, and which processes are inside blocked calls at the same time.
 */
module CarefulRuns {
  import opened Wrappers
  import opened Sequences
  import opened Mailboxes
  import opened SlotLedger
  import opened MailboxFifo
  import opened MailboxRuns
  import opened PoolSufficiency
  import opened ProducerWakeups
  import opened ReceiverWakes

  // --- receivers stay where they are recorded ---------------------------------------------------

  /** p is blocked in a receive from slot mailbox m. */
  ghost predicate WaitsIn(procs: map<nat, Proc>, p: int, m: nat) {
    p >= 0 && p in procs && !procs[p].runnable && procs[p].call.RecvCall? && procs[p].call.id == m
  }

  /** The shadow process that m points at carries the pid of a process inside a receive from m. */
  ghost predicate Pointed(s: System, m: nat)
    requires SystemOk(s) && m < |s.kernel.boxes|
  {
    var k, box := s.kernel, s.kernel.boxes[m];
    box.consumers.Some? ==>
      var p := k.shadow[box.consumers.value];
      && p >= 0 && p in s.procs && p % |k.shadow| == box.consumers.value
      && s.procs[p].call.id == m
      && (if box.numSlots == 0 then s.procs[p].call.MeetRecv? && !s.procs[p].runnable else s.procs[p].call.RecvCall?)
  }

  ghost predicate Receivers(s: System, m: nat)
    requires SystemOk(s) && m < |s.kernel.boxes|
  {
    s.kernel.boxes[m].isActive ==>
      && Pointed(s, m)
      && (s.kernel.boxes[m].numSlots > 0 ==>
        Distinct(s.kernel.consumers[m]) && forall p :: p in s.kernel.consumers[m] ==> WaitsIn(s.procs, p, m))
  }

  ghost predicate AllReceivers(s: System)
    requires SystemOk(s)
  {
    forall m :: 0 <= m < |s.kernel.boxes| ==> Receivers(s, m)
  }

  // --- what an action has to respect -------------------------------------------------------------

  /** The shadow process of pid is not that of a process inside a blocked call. */
  ghost predicate OwnShadow(s: System, pid: nat)
    requires SystemOk(s)
  {
    forall p :: p in s.procs ==> p % |s.kernel.shadow| != pid % |s.kernel.shadow|
  }

  predicate RoomFor(k: Kernel, id: int, max: int) {
    IsOpen(k, id) && k.boxes[id].numSlots > 0 && max >= 0 ==> max >= k.boxes[id].slotSize
  }

  /** The call gives the shadow process of its caller a new pid: it blocks, and not for a slot. */
  ghost predicate Marks(k: Kernel, slice: Slice)
    requires Shape(k)
  {
    match slice
    case Sending(_, id, msg, size) =>
      SendIsValid(k, id, msg, size) && k.boxes[id].numSlots == 0 && k.boxes[id].consumers.None?
    case Receiving(_, id, max) =>
      IsOpen(k, id) && max >= 0 && if k.boxes[id].numSlots == 0 then k.producers[id] == [] else k.rings[id] == []
    case _ => false
  }

  /** A mailbox may be created if the pool can serve it and nothing is left over from an earlier mailbox of that id. */
  ghost predicate MayCreate(s: System, numSlots: int)
    requires SystemOk(s)
  {
    var k, id := s.kernel, FirstInactive(s.kernel.boxes);
    && SumCapacities(k.boxes) + numSlots + |k.lost| <= |k.slots|
    && (id < |k.boxes| ==> k.consumers[id] == [] && forall p :: p in s.procs ==> s.procs[p].call.id != id)
  }

  /** p is inside a receive from zero-slot mailbox id. */
  ghost predicate Meets(procs: map<nat, Proc>, p: int, id: nat) {
    p >= 0 && p in procs && procs[p].call == MeetRecv(id)
  }

  ghost predicate Careful(s: System, a: Action)
    requires SystemOk(s) && Enabled(s, a)
  {
    match a
    case Resume(_) => true
    case Start(slice) =>
      match slice
      case Sending(pid, _, _, _) => Marks(s.kernel, slice) ==> OwnShadow(s, pid)
      case Receiving(pid, id, max) => RoomFor(s.kernel, id, max) && (Marks(s.kernel, slice) ==> OwnShadow(s, pid))
      case TryReceiving(id, max) => RoomFor(s.kernel, id, max)
      case Creating(numSlots, _) => MayCreate(s, numSlots)
      case Releasing(id) =>
        IsOpen(s.kernel, id) && s.kernel.boxes[id].numSlots == 0 ==>
          forall p :: p in s.kernel.consumers[id] ==> Meets(s.procs, p, id)
      case _ => true
  }

  /** Nobody unblocked as a receiver is in a send. */
  lemma TargetsReceive(s: System, a: Action, p: int)
    requires SystemOk(s) && Enabled(s, a) && AllReceivers(s) && Careful(s, a) && p in Targets(s.kernel, SliceOf(s, a))
    ensures var m := SliceOf(s, a).id;
      && (SliceOf(s, a).Sending? || SliceOf(s, a).TrySending? || SliceOf(s, a).SendResuming?
         || SliceOf(s, a).Releasing?)
      && 0 <= m < |s.kernel.boxes| && p >= 0 && p in s.procs && !IsSender(s.procs[p].call) && s.procs[p].call.id == m
  {
    hide Balanced, Marked;
    var k, slice := s.kernel, SliceOf(s, a);
    assert Receivers(s, slice.id);
    assert k.consumers[slice.id] != [] ==> k.consumers[slice.id][0] in k.consumers[slice.id];
  }

  lemma NobodyAstray(s: System, a: Action)
    requires SystemOk(s) && Enabled(s, a) && AllReceivers(s) && AllRecording(s) && Careful(s, a)
    ensures !Misdirected(s.kernel, SliceOf(s, a))
  {
    hide Balanced, Marked, Targets, Careful, Receivers;
    var k, slice := s.kernel, SliceOf(s, a);
    forall n, p | 0 <= n < |k.producers| && p in k.producers[n] ensures p !in Targets(k, slice) {
      assert Recording(s, n) && BlockedIn(s.procs, p, n, Slotted(k, n));
      if p in Targets(k, slice) { TargetsReceive(s, a, p); }
    }
  }

  // --- receivers, step by step -----------------------------------------------------------------------

  /** What a slice does to the records of receivers of its own mailbox, and to the shadow processes. */
  ghost predicate RecordsAfter(k: Kernel, slice: Slice, m: nat)
    requires Shape(k) && Runnable(k, slice) && m < |k.boxes|
  {
    var e := Execute(k, slice);
    && |e.kernel.boxes| == |e.kernel.consumers| == |k.boxes| && |e.kernel.shadow| == |k.shadow|
    && (m != Subject(slice, e.out) ==> e.kernel.boxes[m] == k.boxes[m] && e.kernel.consumers[m] == k.consumers[m])
    && (m == Subject(slice, e.out) ==>
      match e.out
      case Created(_) => e.kernel.consumers[m] == k.consumers[m] && e.kernel.boxes[m].consumers.None?
      case Released => !e.kernel.boxes[m].isActive
      case Blocked(recorded) =>
        && !slice.RecvResuming? && !slice.MeetingResuming?
        && e.kernel.boxes[m].isActive == k.boxes[m].isActive && e.kernel.boxes[m].numSlots == k.boxes[m].numSlots
        && (if slice.Receiving? then
              && e.kernel.boxes[m].consumers == Some(slice.pid % |k.shadow|)
              && e.kernel.shadow[slice.pid % |k.shadow|] == slice.pid
              && e.kernel.consumers[m] == (if recorded then k.consumers[m] + [slice.pid] else k.consumers[m])
            else e.kernel.boxes[m].consumers == k.boxes[m].consumers && e.kernel.consumers[m] == k.consumers[m])
      case _ =>
        && e.kernel.boxes[m].isActive == k.boxes[m].isActive && e.kernel.boxes[m].numSlots == k.boxes[m].numSlots
        && (e.kernel.boxes[m].consumers == k.boxes[m].consumers || e.kernel.boxes[m].consumers.None?)
        && (slice.RecvResuming? || (k.boxes[m].numSlots == 0 && e.consumersWoken != []) ==> k.boxes[m].isActive ==>
           e.kernel.boxes[m].consumers.None?)
        && (k.boxes[m].numSlots > 0 ==> e.consumersWoken + e.kernel.consumers[m] == k.consumers[m]))
  }

  lemma SliceRecords(k: Kernel, slice: Slice, m: nat)
    requires Inv(k) && Runnable(k, slice) && m < |k.boxes|
    ensures RecordsAfter(k, slice, m)
  {
    hide Balanced, Marked, BoxOk, RecordsAfter;
    if slice.Sending? {
      SendRecords(k, slice, m);
    } else if slice.Receiving? {
      ReceiveRecords(k, slice, m);
    } else if slice.SendResuming? || slice.TrySending? {
      OtherSendRecords(k, slice, m);
    } else if slice.RecvResuming? || slice.TryReceiving? {
      OtherReceiveRecords(k, slice, m);
    } else {
      OtherRecords(k, slice, m);
    }
  }

  lemma SendRecords(k: Kernel, slice: Slice, m: nat)
    requires Inv(k) && Runnable(k, slice) && m < |k.boxes| && slice.Sending?
    ensures RecordsAfter(k, slice, m)
  {
    hide Balanced, Marked, BoxOk, Deposit, SlotShape, Below;
    if SendIsValid(k, slice.id, slice.msg, slice.size) && k.free != [] {
      DepositRecords(k, slice.id, Sent(slice));
    }
  }

  lemma OtherSendRecords(k: Kernel, slice: Slice, m: nat)
    requires Inv(k) && Runnable(k, slice) && m < |k.boxes| && (slice.SendResuming? || slice.TrySending?)
    ensures RecordsAfter(k, slice, m)
  {
    hide Balanced, Marked, BoxOk, Deposit, SlotShape, Below;
    if 0 <= slice.id < |k.boxes| && k.free != [] && |Sent(slice)| <= MAX_MESSAGE {
      DepositRecords(k, slice.id, Sent(slice));
    }
  }

  lemma DepositRecords(k: Kernel, id: nat, data: Message)
    requires Shape(k) && id < |k.boxes| && k.free != [] && |data| <= MAX_MESSAGE
    ensures var e := Deposit(k, id, data);
      && e.out == Accepted && e.kernel.boxes == k.boxes && e.kernel.shadow == k.shadow
      && |e.kernel.consumers| == |k.consumers| && e.consumersWoken + e.kernel.consumers[id] == k.consumers[id]
      && forall m :: 0 <= m < |k.boxes| && m != id ==> e.kernel.consumers[m] == k.consumers[m]
  {}

  lemma ReceiveRecords(k: Kernel, slice: Slice, m: nat)
    requires Inv(k) && Runnable(k, slice) && m < |k.boxes| && slice.Receiving?
    ensures RecordsAfter(k, slice, m)
  {
    hide Balanced, Marked, BoxOk, Take, SlotShape, Below;
    if 0 <= slice.id < |k.boxes| && k.rings[slice.id] != [] { TakeRecords(k, slice.id, slice.max); }
  }

  lemma OtherReceiveRecords(k: Kernel, slice: Slice, m: nat)
    requires Inv(k) && Runnable(k, slice) && m < |k.boxes| && (slice.RecvResuming? || slice.TryReceiving?)
    ensures RecordsAfter(k, slice, m)
  {
    hide Balanced, Marked, BoxOk, Take, SlotShape, Below;
    if 0 <= slice.id < |k.boxes| && k.rings[slice.id] != [] {
      TakeRecords(k, slice.id, slice.max);
      TakeRecords(k.(boxes := k.boxes[slice.id := k.boxes[slice.id].(consumers := None)]), slice.id, slice.max);
    }
  }

  lemma TakeRecords(k: Kernel, id: nat, max: int)
    requires Shape(k) && id < |k.boxes| && k.rings[id] != []
    ensures var e := Take(k, id, max);
      && (e.out.Delivered? || e.out.Truncated?) && e.consumersWoken == []
      && e.kernel.boxes == k.boxes && e.kernel.shadow == k.shadow && e.kernel.consumers == k.consumers
  {}

  lemma OtherRecords(k: Kernel, slice: Slice, m: nat)
    requires Inv(k) && Runnable(k, slice) && m < |k.boxes|
    requires slice.MeetingResuming? || slice.Creating? || slice.Releasing?
    ensures RecordsAfter(k, slice, m)
  {
    hide Balanced, Marked, BoxOk;
  }

  /** Only the shadow process of a caller that blocks is given a new pid. */
  lemma ShadowAfter(k: Kernel, slice: Slice, i: nat)
    requires Inv(k) && Runnable(k, slice) && i < |k.shadow|
    ensures var e := Execute(k, slice);
      |e.kernel.shadow| == |k.shadow| &&
      (e.kernel.shadow[i] == k.shadow[i] || (Marks(k, slice) && i == slice.pid % |k.shadow|))
  {
    hide Balanced, Marked;
  }

  /** A process inside a receive, neither resumed nor unblocked as a receiver, stays as it is. */
  lemma ReceiverStays(s: System, a: Action, p: nat)
    requires SystemOk(s) && Enabled(s, a) && AllRecording(s)
    requires p in s.procs && !IsSender(s.procs[p].call) && a != Resume(p)
    ensures p in After(s, a).procs && After(s, a).procs[p].call == s.procs[p].call
    ensures p !in EffectOf(s, a).consumersWoken ==> After(s, a).procs[p].runnable == s.procs[p].runnable
    ensures p !in Caller(a)
  {
    hide Balanced, Marked, Execute, After, Recording;
    ProcsAfter(s, a, p);
    WokenWereRecorded(s, a);
    var m := Subject(SliceOf(s, a), EffectOf(s, a).out);
    if 0 <= m < |s.kernel.boxes| { RecordedSend(s, m); }
  }

  lemma RecordedSend(s: System, m: nat)
    requires SystemOk(s) && AllRecording(s) && m < |s.kernel.boxes|
    ensures forall p: nat :: p in s.kernel.producers[m] ==> p in s.procs && IsSender(s.procs[p].call)
  {
    hide Balanced, Marked;
    assert Recording(s, m);
  }

  /** Whoever is resumed acts on the mailbox of its call. */
  lemma ResumedSubject(s: System, a: Action)
    requires SystemOk(s) && Enabled(s, a)
    ensures a.Resume? ==>
      Subject(SliceOf(s, a), EffectOf(s, a).out) == s.procs[a.pid].call.id && s.procs[a.pid].runnable
  {
    hide Balanced, Marked, Execute;
  }

  lemma PointedElsewhere(s: System, a: Action, m: nat)
    requires SystemOk(s) && Enabled(s, a) && AllReceivers(s) && AllRecording(s) && Careful(s, a) && m < |s.kernel.boxes|
    requires s.kernel.boxes[m].isActive && m != Subject(SliceOf(s, a), EffectOf(s, a).out)
    ensures SystemOk(After(s, a)) && m < |After(s, a).kernel.boxes| && Pointed(After(s, a), m)
  {
    hide Balanced, Marked, Execute, After, Recording;
    AfterOk(s, a);
    AfterKernel(s, a);
    SliceRecords(s.kernel, SliceOf(s, a), m);
    assert Receivers(s, m);
    var box := s.kernel.boxes[m];
    if box.consumers.Some? {
      ShadowAfter(s.kernel, SliceOf(s, a), box.consumers.value);
      ResumedSubject(s, a);
      var p := s.kernel.shadow[box.consumers.value];
      ReceiverStays(s, a, p);
      TargetsAreWoken(s.kernel, SliceOf(s, a));
      if p in Targets(s.kernel, SliceOf(s, a)) { TargetsReceive(s, a, p); }
    }
  }

  lemma PointedHere(s: System, a: Action, m: nat)
    requires SystemOk(s) && Enabled(s, a) && AllReceivers(s) && AllRecording(s) && Careful(s, a) && m < |s.kernel.boxes|
    requires s.kernel.boxes[m].isActive && m == Subject(SliceOf(s, a), EffectOf(s, a).out)
    requires !EffectOf(s, a).out.Released? && !EffectOf(s, a).out.Created?
    ensures SystemOk(After(s, a)) && m < |After(s, a).kernel.boxes| && Pointed(After(s, a), m)
  {
    hide Balanced, Marked, Execute, After, Recording;
    AfterOk(s, a);
    AfterKernel(s, a);
    var slice, e, box := SliceOf(s, a), EffectOf(s, a), s.kernel.boxes[m];
    SliceRecords(s.kernel, slice, m);
    SliceWakes(s.kernel, slice);
    assert Receivers(s, m);
    if e.out.Blocked? && slice.Receiving? {
      ProcsAfter(s, a, slice.pid);
    } else if e.kernel.boxes[m].consumers.Some? {
      ShadowAfter(s.kernel, slice, box.consumers.value);
      ResumedSubject(s, a);
      var p := s.kernel.shadow[box.consumers.value];
      ReceiverStays(s, a, p);
    }
  }

  lemma ListElsewhere(s: System, a: Action, m: nat, p: int)
    requires SystemOk(s) && Enabled(s, a) && AllReceivers(s) && AllRecording(s) && Careful(s, a) && m < |s.kernel.boxes|
    requires m != Subject(SliceOf(s, a), EffectOf(s, a).out) && WaitsIn(s.procs, p, m)
    ensures WaitsIn(After(s, a).procs, p, m)
  {
    hide Balanced, Marked, Execute, After, Recording, AllReceivers;
    ResumedSubject(s, a);
    ReceiverStays(s, a, p);
    TargetsAreWoken(s.kernel, SliceOf(s, a));
    if p in Targets(s.kernel, SliceOf(s, a)) { TargetsReceive(s, a, p); }
  }

  /** The list of a slot mailbox after a step about it. */
  lemma ListHere(s: System, a: Action, m: nat)
    requires SystemOk(s) && Enabled(s, a) && AllReceivers(s) && AllRecording(s) && Careful(s, a) && m < |s.kernel.boxes|
    requires s.kernel.boxes[m].isActive && Slotted(s.kernel, m) && m == Subject(SliceOf(s, a), EffectOf(s, a).out)
    requires !EffectOf(s, a).out.Released? && !EffectOf(s, a).out.Created?
    ensures var list := EffectOf(s, a).kernel.consumers;
      m < |list| && Distinct(list[m]) && forall p :: p in list[m] ==> WaitsIn(After(s, a).procs, p, m)
  {
    hide Balanced, Marked, Execute, After, Recording;
    var slice, e := SliceOf(s, a), EffectOf(s, a);
    SliceRecords(s.kernel, slice, m);
    assert Receivers(s, m);
    var list, list' := s.kernel.consumers[m], e.kernel.consumers[m];
    if e.out.Blocked? {
      SliceWakes(s.kernel, slice);
      if slice.Receiving? { DistinctAppend(list, slice.pid); }
    } else {
      DistinctSuffix(e.consumersWoken, list');
    }
    forall p | p in list' ensures WaitsIn(After(s, a).procs, p, m) {
      if p in list {
        ResumedSubject(s, a);
        ReceiverStays(s, a, p);
      } else {
        ProcsAfter(s, a, slice.pid);
      }
    }
  }

  lemma DistinctAppend(list: seq<int>, p: int)
    requires Distinct(list) && p !in list
    ensures Distinct(list + [p])
  {
    assert forall i :: 0 <= i < |list| ==> list[i] in list;
  }

  lemma ReceiversStep(s: System, a: Action, m: nat)
    requires SystemOk(s) && Enabled(s, a) && AllReceivers(s) && AllRecording(s) && Careful(s, a) && m < |s.kernel.boxes|
    ensures SystemOk(After(s, a)) && |After(s, a).kernel.boxes| == |s.kernel.boxes| && Receivers(After(s, a), m)
  {
    hide Balanced, Marked, Execute, After, Recording, AllReceivers;
    AfterOk(s, a);
    AfterKernel(s, a);
    var slice, e, s' := SliceOf(s, a), EffectOf(s, a), After(s, a);
    SameMailboxes(s.kernel, slice);
    SliceRecords(s.kernel, slice, m);
    if e.kernel.boxes[m].isActive {
      if m != Subject(slice, e.out) {
        assert AllReceivers(s) ==> Receivers(s, m) by { ReceiversAt(s, m); }
        PointedElsewhere(s, a, m);
        forall p | s.kernel.boxes[m].numSlots > 0 && p in s.kernel.consumers[m] ensures WaitsIn(s'.procs, p, m) {
          ListElsewhere(s, a, m, p);
        }
      } else if e.out.Created? {
        CreatedEmpty(s, a);
      } else {
        PointedHere(s, a, m);
        if s.kernel.boxes[m].numSlots > 0 { ListHere(s, a, m); }
      }
    }
  }

  lemma ReceiversAt(s: System, m: nat)
    requires SystemOk(s) && m < |s.kernel.boxes|
    ensures AllReceivers(s) ==> Receivers(s, m)
  {}

  lemma CreatedEmpty(s: System, a: Action)
    requires SystemOk(s) && Enabled(s, a) && Careful(s, a) && EffectOf(s, a).out.Created?
    ensures var id, k := EffectOf(s, a).out.id, s.kernel;
      && SliceOf(s, a).Creating? && 0 <= id < |k.boxes| && id == FirstInactive(k.boxes) && k.consumers[id] == []
      && forall p :: p in s.procs ==> s.procs[p].call.id != id
  {
    hide Balanced, Marked;
    Refines(s.kernel, SliceOf(s, a));
    hide Next;
  }

  // --- sizes ---------------------------------------------------------------------------------------------

  /** Every queued message fits its mailbox. */
  ghost predicate BoxFits(box: Box) {
    box.isActive ==> forall i :: 0 <= i < |box.queue| ==> |box.queue[i]| <= box.slotSize
  }

  /** A pending call of an open mailbox: a send fits and waits for a slot, a receive has room for any message. */
  ghost predicate CallFits(k: Kernel, call: Call) {
    0 <= call.id < |k.boxes| && k.boxes[call.id].isActive ==>
      && (call.SendCall? ==> k.boxes[call.id].numSlots > 0 && |call.data| <= k.boxes[call.id].slotSize)
      && (call.RecvCall? ==> call.max >= k.boxes[call.id].slotSize)
  }

  ghost predicate Fitting(s: System)
    requires SystemOk(s)
  {
    && (forall m :: 0 <= m < |s.kernel.boxes| ==> BoxFits(BoxView(s.kernel, m)))
    && (forall p :: p in s.procs ==> CallFits(s.kernel, s.procs[p].call))
  }

  lemma SpecFits(f: Fifo, slice: Slice, out: Outcome, m: nat)
    requires Allowed(f, slice, out) && m < |f.boxes| && BoxFits(f.boxes[m])
    requires slice.Sending? ==> Readable(slice.msg, slice.size)
    requires slice.TrySending? ==> Readable(slice.msg, slice.size)
    requires slice.SendResuming? && slice.id == m && f.boxes[m].isActive ==> |slice.data| <= f.boxes[m].slotSize
    ensures m < |Next(f, slice, out).boxes| && BoxFits(Next(f, slice, out).boxes[m])
    ensures Configured(f.boxes[m], Next(f, slice, out).boxes[m], slice, out, m)
  {}

  /** Only a create and a release of m change whether m is open, and only a create its configuration. */
  ghost predicate Configured(box: Box, box': Box, slice: Slice, out: Outcome, m: nat) {
    out != Created(m) ==>
      && box'.numSlots == box.numSlots && box'.slotSize == box.slotSize
      && box'.isActive == (box.isActive && !(out.Released? && m == Subject(slice, out)))
  }

  lemma BoxFitsStep(s: System, a: Action, m: nat)
    requires SystemOk(s) && Enabled(s, a) && Fitting(s) && m < |s.kernel.boxes|
    ensures SystemOk(After(s, a)) && |After(s, a).kernel.boxes| == |s.kernel.boxes|
      && BoxFits(BoxView(After(s, a).kernel, m))
    ensures Configured(BoxView(s.kernel, m), BoxView(After(s, a).kernel, m), SliceOf(s, a), EffectOf(s, a).out, m)
  {
    hide Balanced, Marked, Execute, After, Allowed, Next, BoxFits, Configured;
    AfterOk(s, a);
    AfterKernel(s, a);
    var slice, e := SliceOf(s, a), EffectOf(s, a);
    SameMailboxes(s.kernel, slice);
    Refines(s.kernel, slice);
    var f, f' := View(s.kernel), View(e.kernel);
    assert f.boxes[m] == BoxView(s.kernel, m) && f'.boxes[m] == BoxView(e.kernel, m);
    assert slice.SendResuming? ==> CallFits(s.kernel, s.procs[a.pid].call);
    SpecFits(f, slice, e.out, m);
  }

  lemma PendingFits(s: System, a: Action)
    requires SystemOk(s) && Enabled(s, a) && Fitting(s) && Careful(s, a) && EffectOf(s, a).out.Blocked?
    ensures CallFits(EffectOf(s, a).kernel, PendingCall(s.kernel, SliceOf(s, a)))
  {
    hide Balanced, Marked;
    assert a.Resume? ==> CallFits(s.kernel, s.procs[a.pid].call);
  }

  lemma FittingStep(s: System, a: Action)
    requires SystemOk(s) && Enabled(s, a) && Fitting(s) && Careful(s, a)
    ensures SystemOk(After(s, a)) && Fitting(After(s, a))
  {
    hide Balanced, Marked, Execute, After, BoxFits, Careful;
    AfterOk(s, a);
    AfterKernel(s, a);
    var e, s' := EffectOf(s, a), After(s, a);
    SameMailboxes(s.kernel, SliceOf(s, a));
    forall m | 0 <= m < |s'.kernel.boxes| ensures BoxFits(BoxView(s'.kernel, m)) {
      BoxFitsStep(s, a, m);
    }
    if e.out.Created? { CreatedEmpty(s, a); }
    forall p | p in s'.procs ensures CallFits(s'.kernel, s'.procs[p].call) {
      ProcsAfter(s, a, p);
      if p in Caller(a) && e.out.Blocked? {
        PendingFits(s, a);
      } else {
        assert CallFits(s.kernel, s.procs[p].call) && CallOk(s.kernel, s.procs[p].call);
        BoxFitsStep(s, a, s.procs[p].call.id);
      }
    }
  }

  /** A receive with room for any message cuts none off. */
  lemma NothingCut(s: System, a: Action)
    requires SystemOk(s) && Enabled(s, a) && Fitting(s) && Careful(s, a)
    ensures !Cuts(View(s.kernel), SliceOf(s, a))
  {
    hide Balanced, Marked;
    var slice, f := SliceOf(s, a), View(s.kernel);
    if (slice.Receiving? || slice.TryReceiving? || slice.RecvResuming?) && 0 <= slice.id < |s.kernel.boxes| {
      assert f.boxes[slice.id] == BoxView(s.kernel, slice.id) && BoxFits(BoxView(s.kernel, slice.id));
      assert a.Resume? ==> CallFits(s.kernel, s.procs[a.pid].call);
    }
  }

  // --- the pool ----------------------------------------------------------------------------------------

  ghost function Capacity(box: Mbox): nat {
    if box.isActive then box.numSlots else 0
  }

  lemma {:induction false} SumUpdate(boxes: seq<Mbox>, boxes': seq<Mbox>, m: nat)
    requires |boxes'| == |boxes| && m < |boxes|
    requires forall i :: 0 <= i < |boxes| && i != m ==> Capacity(boxes'[i]) == Capacity(boxes[i])
    ensures SumCapacities(boxes') == SumCapacities(boxes) - Capacity(boxes[m]) + Capacity(boxes'[m])
  {
    if m == 0 {
      SumSame(boxes[1..], boxes'[1..]);
    } else {
      SumUpdate(boxes[1..], boxes'[1..], m - 1);
      assert Capacity(boxes'[0]) == Capacity(boxes[0]);
    }
  }

  lemma {:induction false} SumSame(boxes: seq<Mbox>, boxes': seq<Mbox>)
    requires |boxes'| == |boxes| && forall i :: 0 <= i < |boxes| ==> Capacity(boxes'[i]) == Capacity(boxes[i])
    ensures SumCapacities(boxes') == SumCapacities(boxes)
  {
    if boxes != [] {
      assert Capacity(boxes'[0]) == Capacity(boxes[0]);
      SumSame(boxes[1..], boxes'[1..]);
    }
  }

  lemma ProvisionedStep(s: System, a: Action)
    requires SystemOk(s) && Enabled(s, a) && Fitting(s) && Careful(s, a) && Provisioned(s.kernel, 0)
    ensures Provisioned(After(s, a).kernel, 0)
  {
    hide Balanced, Marked, Execute, After, BoxFits, BoxView, Careful, SumCapacities;
    var slice, e := SliceOf(s, a), EffectOf(s, a);
    AfterOk(s, a);
    AfterKernel(s, a);
    LossStep(s, a);
    NotTruncated(s, a);
    SameMailboxes(s.kernel, slice);
    forall m | 0 <= m < |s.kernel.boxes|
      ensures ((e.out.Created? || e.out.Released?) && m == Subject(slice, e.out))
        || Capacity(e.kernel.boxes[m]) == Capacity(s.kernel.boxes[m])
    {
      CapacityStep(s, a, m);
    }
    hide SystemOk;
    if e.out.Created? {
      CreatedEmpty(s, a);
      CreatedProvision(s, a);
      SumUpdate(s.kernel.boxes, e.kernel.boxes, e.out.id);
    } else if e.out.Released? {
      ReleasedBox(s.kernel, slice);
      SumUpdate(s.kernel.boxes, e.kernel.boxes, slice.id);
    } else {
      SumSame(s.kernel.boxes, e.kernel.boxes);
    }
  }

  lemma CapacityStep(s: System, a: Action, m: nat)
    requires SystemOk(s) && Enabled(s, a) && Fitting(s) && Careful(s, a) && m < |s.kernel.boxes|
    ensures var slice, e := SliceOf(s, a), EffectOf(s, a);
      m < |e.kernel.boxes| &&
      (((e.out.Created? || e.out.Released?) && m == Subject(slice, e.out))
        || Capacity(e.kernel.boxes[m]) == Capacity(s.kernel.boxes[m]))
  {
    hide Balanced, Marked, Execute, After, BoxFits, BoxView, Careful;
    var slice, e := SliceOf(s, a), EffectOf(s, a);
    SameMailboxes(s.kernel, slice);
    AfterKernel(s, a);
    BoxFitsStep(s, a, m);
    ViewConfig(s.kernel, m);
    ViewConfig(e.kernel, m);
    if e.out.Created? { CreatedEmpty(s, a); }
  }

  lemma ViewConfig(k: Kernel, m: nat)
    requires Shape(k) && m < |k.boxes|
    ensures BoxView(k, m).isActive == k.boxes[m].isActive && BoxView(k, m).numSlots == k.boxes[m].numSlots
  {}

  lemma NotTruncated(s: System, a: Action)
    requires SystemOk(s) && Enabled(s, a) && Fitting(s) && Careful(s, a)
    ensures !EffectOf(s, a).out.Truncated?
  {
    hide Balanced, Marked, Execute, Careful, Fitting;
    NothingCut(s, a);
    Refines(s.kernel, SliceOf(s, a));
    CutsExactly(View(s.kernel), SliceOf(s, a), EffectOf(s, a).out);
  }

  lemma CreatedProvision(s: System, a: Action)
    requires SystemOk(s) && Enabled(s, a) && Careful(s, a) && EffectOf(s, a).out.Created?
    ensures var id, k, k' := EffectOf(s, a).out.id, s.kernel, EffectOf(s, a).kernel;
      && id < |k.boxes| && id < |k'.boxes| && Capacity(k.boxes[id]) == 0
      && SumCapacities(k.boxes) + Capacity(k'.boxes[id]) + |k.lost| <= |k.slots|
  {
    CreatedEmpty(s, a);
    hide Inv, SumCapacities, SendEnter, SlotSendResume, RecvEnter, SlotRecvResume, RendezvousResume, CondSend,
      CondRecv, Release;
  }

  lemma ReleasedBox(k: Kernel, slice: Slice)
    requires Inv(k) && Runnable(k, slice) && Execute(k, slice).out.Released?
    ensures slice.Releasing? && 0 <= slice.id < |k.boxes| && |Execute(k, slice).kernel.boxes| == |k.boxes|
    ensures Capacity(k.boxes[slice.id]) >= |k.rings[slice.id]|
      && Capacity(Execute(k, slice).kernel.boxes[slice.id]) == 0
  {
    hide Balanced, Marked;
  }

  lemma NoUnderflow(s: System, a: Action)
    requires SystemOk(s) && Enabled(s, a) && Fitting(s) && Provisioned(s.kernel, 0)
    ensures !Underflows(View(s.kernel), SliceOf(s, a))
  {
    hide Balanced, Marked;
    RoomMeansFreeSlot(s.kernel, 0);
    var slice := SliceOf(s, a);
    if slice.SendResuming? {
      assert CallFits(s.kernel, s.procs[a.pid].call) && View(s.kernel).boxes[slice.id] == BoxView(s.kernel, slice.id);
    }
  }

  // --- every careful run ----------------------------------------------------------------------------------

  ghost predicate Steady(s: System)
    requires SystemOk(s)
  {
    Protocol(s) && AllReceivers(s) && Fitting(s) && Provisioned(s.kernel, 0)
  }

  lemma SteadyStep(s: System, a: Action)
    requires SystemOk(s) && Enabled(s, a) && Steady(s) && Careful(s, a)
    ensures SystemOk(After(s, a)) && Steady(After(s, a)) && |After(s, a).kernel.boxes| == |s.kernel.boxes|
    ensures !Misdirected(s.kernel, SliceOf(s, a)) && forall m :: 0 <= m < |s.kernel.boxes| ==> !Strands(s, a, m)
    ensures !EffectOf(s, a).out.Fault? && !EffectOf(s, a).out.Truncated?
  {
    hide Balanced, Marked, Execute, After, Misdirected, Receivers, Recording, NoLostWakeup, Fitting, Provisioned,
      Careful, Cuts, Underflows, Strands;
    AfterOk(s, a);
    NothingCut(s, a);
    NoUnderflow(s, a);
    NobodyAstray(s, a);
    RecordsExactly(s, a);
    FreeingOutcome(s, a);
    FittingStep(s, a);
    ProvisionedStep(s, a);
    AfterKernel(s, a);
    SameMailboxes(s.kernel, SliceOf(s, a));
    forall m | 0 <= m < |s.kernel.boxes|
      ensures Receivers(After(s, a), m) && !Strands(s, a, m) && NoLostWakeup(After(s, a), m)
    {
      ReceiversStep(s, a, m);
      FirstIsBlocked(s, a, m);
      StrandsExactly(s, a, m);
    }
  }

  /** With exact records, a whole receive wakes a process that is blocked in that mailbox. */
  lemma FirstIsBlocked(s: System, a: Action, m: nat)
    requires SystemOk(s) && Enabled(s, a) && Protocol(s) && m < |s.kernel.boxes|
    requires !Cuts(View(s.kernel), SliceOf(s, a)) && !Underflows(View(s.kernel), SliceOf(s, a))
    ensures !Strands(s, a, m)
  {
    hide Balanced, Marked, Cuts, Underflows, TakesWhole, InTransit;
    var list := s.kernel.producers[m];
    assert Recording(s, m);
    if list != [] { assert list[0] in list; }
  }

  ghost predicate CarefulRun(s: System, actions: seq<Action>)
    requires SystemOk(s) && IsRun(s, actions)
    decreases |actions|
  {
    actions == []
      || (Careful(s, actions[0]) && (AfterOk(s, actions[0]); CarefulRun(After(s, actions[0]), actions[1..])))
  }

  /** No slice of the run underflows the pool or cuts a message off. */
  ghost predicate NothingLost(s: System, actions: seq<Action>)
    requires SystemOk(s) && IsRun(s, actions)
    decreases |actions|
  {
    actions == [] || (
      && !EffectOf(s, actions[0]).out.Fault? && !EffectOf(s, actions[0]).out.Truncated?
      && (AfterOk(s, actions[0]); NothingLost(After(s, actions[0]), actions[1..])))
  }

  lemma {:induction false} CarefulRunsKeep(s: System, actions: seq<Action>)
    requires SystemOk(s) && IsRun(s, actions) && CarefulRun(s, actions) && Steady(s)
    ensures SystemOk(Run(s, actions)) && Steady(Run(s, actions)) && NobodyMisdirected(s, actions)
      && NothingLost(s, actions)
    ensures forall m :: 0 <= m < |s.kernel.boxes| ==> NoneStranded(s, actions, m)
    decreases |actions|
  {
    hide Steady, SystemOk, After, Enabled, Careful, Misdirected, Strands, EffectOf, SliceOf;
    if actions != [] {
      SteadyStep(s, actions[0]);
      CarefulRunsKeep(After(s, actions[0]), actions[1..]);
    }
  }

  lemma BootedSteady(maxMbox: nat, maxSlots: nat, maxProc: nat)
    requires maxProc > 0
    ensures SystemOk(Booted(maxMbox, maxSlots, maxProc)) && Steady(Booted(maxMbox, maxSlots, maxProc))
  {
    BootedOk(maxMbox, maxSlots, maxProc);
    hide Inv, Laws;
    NoCapacity(Booted(maxMbox, maxSlots, maxProc).kernel.boxes);
  }

  lemma {:induction false} NoCapacity(boxes: seq<Mbox>)
    requires forall i :: 0 <= i < |boxes| ==> Capacity(boxes[i]) == 0
    ensures SumCapacities(boxes) == 0
  {
    if boxes != [] {
      NoCapacity(boxes[1..]);
      assert Capacity(boxes[0]) == 0;
    }
  }

  /**
    No lost wake-up, over every careful run from boot: everyone recorded is blocked there,
    once; no slice underflows the pool or cuts a message off; and when nobody is in transit,
    a recorded producer means that the mailbox is full.
   */
  lemma WaitersMeanFull(maxMbox: nat, maxSlots: nat, maxProc: nat, actions: seq<Action>, m: nat)
    requires maxProc > 0 && m < maxMbox && SystemOk(Booted(maxMbox, maxSlots, maxProc))
    requires IsRun(Booted(maxMbox, maxSlots, maxProc), actions)
      && CarefulRun(Booted(maxMbox, maxSlots, maxProc), actions)
    ensures var s := Run(Booted(maxMbox, maxSlots, maxProc), actions);
      && SystemOk(s) && Protocol(s)
      && LawThroughout(Booted(maxMbox, maxSlots, maxProc), actions, m)
      && NothingLost(Booted(maxMbox, maxSlots, maxProc), actions)
      && (IsOpen(s.kernel, m) && s.kernel.producers[m] != [] && InTransit(s.procs, m) == {} ==>
        |s.kernel.rings[m]| == s.kernel.boxes[m].numSlots)
  {
    hide Balanced, Marked, Careful, Enabled, After, Receivers, Fitting;
    var s0 := Booted(maxMbox, maxSlots, maxProc);
    BootedSteady(maxMbox, maxSlots, maxProc);
    CarefulRunsKeep(s0, actions);
    assert |s0.kernel.boxes| == maxMbox;
    hide Booted, NoneStranded, LawThroughout;
    NoWakeupLostExactly(maxMbox, maxSlots, maxProc, actions, m);
    var s := Run(s0, actions);
    hide Run, IsRun, CarefulRun, Recording, InTransit, NobodyMisdirected, NothingLost;
    if m < |s.kernel.boxes| {
      assert NoLostWakeup(s, m)
        && BoxOk(s.kernel.boxes[m], s.kernel.rings[m], s.kernel.producers[m], s.kernel.consumers[m]);
    }
  }
}
