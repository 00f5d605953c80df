/**
  Runs of the whole system: a kernel, the processes that are inside a blocked call,
  and a log per mailbox of what went in, what came out, who was recorded as a
  blocked producer and who was woken.
 */
module MailboxRuns {
  import opened Mailboxes
  import opened SlotLedger
  import opened MailboxFifo

  datatype Call = SendCall(id: int, data: Message) | RecvCall(id: int, max: int) | MeetSend(id: int) | MeetRecv(id: int)

  ghost predicate IsSender(call: Call) {
    call.SendCall? || call.MeetSend?
  }

  ghost predicate Slotted(k: Kernel, m: nat)
    requires m < |k.boxes|
  {
    k.boxes[m].numSlots > 0
  }

  /** A process inside a call: in blockMe, or unblocked and about to resume. */
  datatype Proc = Proc(call: Call, runnable: bool)

  datatype Log = Log(accepted: seq<Message>, removed: seq<Message>, recorded: seq<int>, woken: seq<int>)

  datatype System = System(kernel: Kernel, procs: map<nat, Proc>, logs: seq<Log>)

  datatype Action = Start(slice: Slice) | Resume(pid: nat)

  ghost predicate Enabled(s: System, a: Action) {
    match a
    case Resume(pid) => pid in s.procs && s.procs[pid].runnable
    case Start(slice) =>
      && !slice.SendResuming? && !slice.RecvResuming? && !slice.MeetingResuming?
      && Runnable(s.kernel, slice)
      && (slice.Sending? || slice.Receiving? ==> slice.pid !in s.procs)
  }

  ghost predicate CallOk(k: Kernel, call: Call) {
    0 <= call.id < |k.boxes| && (call.SendCall? ==> |call.data| <= MAX_MESSAGE)
  }

  ghost predicate SystemOk(s: System) {
    && Inv(s.kernel)
    && |s.logs| == |s.kernel.boxes|
    && forall p :: p in s.procs ==> CallOk(s.kernel, s.procs[p].call)
  }

  function SliceOf(s: System, a: Action): Slice
    requires a.Resume? ==> a.pid in s.procs
  {
    match a
    case Start(slice) => slice
    case Resume(pid) =>
      match s.procs[pid].call
      case SendCall(id, data) => SendResuming(pid, id, data)
      case RecvCall(id, max) => RecvResuming(id, max)
      case MeetSend(id) => MeetingResuming(id)
      case MeetRecv(id) => MeetingResuming(id)
  }

  ghost function EffectOf(s: System, a: Action): Effect
    requires SystemOk(s) && Enabled(s, a)
  {
    Execute(s.kernel, SliceOf(s, a))
  }

  /** The call a process is left in when its slice ends in blockMe. */
  function PendingCall(k: Kernel, slice: Slice): Call
    requires Shape(k) && Runnable(k, slice)
    requires slice.Sending? || slice.Receiving? ==> 0 <= slice.id < |k.boxes|
  {
    match slice
    case Sending(_, id, msg, size) =>
      if k.boxes[id].numSlots == 0 then MeetSend(id) else SendCall(id, Payload(msg, size))
    case Receiving(_, id, max) => if k.boxes[id].numSlots == 0 then MeetRecv(id) else RecvCall(id, max)
    case SendResuming(_, id, data) => SendCall(id, data)
    case _ => MeetRecv(0)
  }

  /** `unblockProc` on each pid: it has no effect on a process that is not blocked. */
  function Unblock(procs: map<nat, Proc>, pids: seq<int>): map<nat, Proc> {
    map p | p in procs :: if p in pids then procs[p].(runnable := true) else procs[p]
  }

  function Caller(a: Action): set<nat> {
    match a
    case Resume(pid) => {pid}
    case Start(slice) => if slice.Sending? || slice.Receiving? then {slice.pid} else {}
  }

  function Settled(s: System, a: Action, e: Effect): map<nat, Proc>
    requires SystemOk(s) && Enabled(s, a) && e == Execute(s.kernel, SliceOf(s, a))
  {
    if e.out.Blocked? then
      var slice := SliceOf(s, a);
      s.procs[slice.pid := Proc(PendingCall(s.kernel, slice), false)]
    else s.procs - Caller(a)
  }

  /** The producer a slice adds to the list of its mailbox, if any. */
  function Recorded(slice: Slice, out: Outcome): seq<int> {
    if out == Blocked(true) && (slice.Sending? || slice.SendResuming?) then [slice.pid] else []
  }

  function Logged(log: Log, slice: Slice, e: Effect): Log
    requires slice.Sending? ==> Readable(slice.msg, slice.size)
    requires slice.TrySending? ==> Readable(slice.msg, slice.size)
    requires e.out == Accepted ==> slice.Sending? || slice.TrySending? || slice.SendResuming?
  {
    var moved :=
      match e.out
      case Accepted => log.(accepted := log.accepted + [Sent(slice)])
      case Delivered(data) => log.(removed := log.removed + [data])
      case Truncated(data) => log.(removed := log.removed + [data])
      case Created(_) => log.(accepted := [], removed := [])
      case _ => log;
    moved.(recorded := moved.recorded + Recorded(slice, e.out),
           woken := moved.woken + e.producersWoken)
  }

  /** The mailbox a slice is about, if there is one. */
  function Subject(slice: Slice, out: Outcome): int {
    if slice.Creating? then (if out.Created? then out.id else -1) else slice.id
  }

  ghost function After(s: System, a: Action): System
    requires SystemOk(s) && Enabled(s, a)
  {
    var slice, e := SliceOf(s, a), EffectOf(s, a);
    var m := Subject(slice, e.out);
    System(e.kernel,
           Unblock(Settled(s, a, e), e.producersWoken + e.consumersWoken),
           if 0 <= m < |s.logs| then s.logs[m := Logged(s.logs[m], slice, e)] else s.logs)
  }

  // --- runs -----------------------------------------------------------------------

  /** Every action that the processes can take is possible in the model. */
  lemma AfterOk(s: System, a: Action)
    requires SystemOk(s) && Enabled(s, a)
    ensures SystemOk(After(s, a)) && |After(s, a).kernel.slots| == |s.kernel.slots|
  {
    hide Balanced, Marked;
    var slice, e, s' := SliceOf(s, a), EffectOf(s, a), After(s, a);
    Refines(s.kernel, slice);
    SameMailboxes(s.kernel, slice);
    forall p | p in s'.procs ensures CallOk(e.kernel, s'.procs[p].call) {
      if p in s.procs {
        assert CallOk(s.kernel, s.procs[p].call);
      }
    }
  }

  lemma SameMailboxes(k: Kernel, slice: Slice)
    requires Inv(k) && Runnable(k, slice)
    ensures |Execute(k, slice).kernel.boxes| == |k.boxes| && |Execute(k, slice).kernel.slots| == |k.slots|
  {
    hide Balanced, Marked, BoxOk;
  }

  ghost predicate IsRun(s: System, actions: seq<Action>)
    requires SystemOk(s)
    decreases |actions|
  {
    actions == [] || (Enabled(s, actions[0]) && (AfterOk(s, actions[0]); IsRun(After(s, actions[0]), actions[1..])))
  }

  ghost function Run(s: System, actions: seq<Action>): System
    requires SystemOk(s) && IsRun(s, actions)
    decreases |actions|
  {
    if actions == [] then s
    else
      AfterOk(s, actions[0]);
      Run(After(s, actions[0]), actions[1..])
  }

  ghost function Booted(maxMbox: nat, maxSlots: nat, maxProc: nat): System
    requires maxProc > 0
  {
    System(Initial(maxMbox, maxSlots, maxProc), map[], seq(maxMbox, i => Log([], [], [], [])))
  }

  // --- the queue law ----------------------------------------------------------------

  /** What went into an open mailbox since it was created is what came out, then what is in it. */
  ghost predicate Fits(log: Log, box: Box) {
    box.isActive ==> log.accepted == log.removed + box.queue
  }

  ghost predicate QueueLaw(s: System, m: nat)
    requires SystemOk(s) && m < |s.logs|
  {
    Fits(s.logs[m], BoxView(s.kernel, m))
  }

  /** The law is kept by every step of the specification, so by every slice. */
  lemma FitsStep(f: Fifo, slice: Slice, e: Effect, log: Log)
    requires Allowed(f, slice, e.out) && 0 <= Subject(slice, e.out) < |f.boxes|
    requires slice.Sending? ==> Readable(slice.msg, slice.size)
    requires slice.TrySending? ==> Readable(slice.msg, slice.size)
    requires Fits(log, f.boxes[Subject(slice, e.out)])
    ensures Fits(Logged(log, slice, e), Next(f, slice, e.out).boxes[Subject(slice, e.out)])
  {
    var m := Subject(slice, e.out);
    if e.out == Accepted {
      assert log.accepted + [Sent(slice)] == log.removed + (f.boxes[m].queue + [Sent(slice)]);
    } else if e.out.Delivered? || e.out.Truncated? {
      assert f.boxes[m].queue == [e.out.data] + f.boxes[m].queue[1..];
    }
  }

  lemma OtherBoxesStay(f: Fifo, slice: Slice, out: Outcome, m: nat)
    requires Allowed(f, slice, out) && m < |f.boxes| && m != Subject(slice, out)
    requires slice.Sending? ==> Readable(slice.msg, slice.size)
    requires slice.TrySending? ==> Readable(slice.msg, slice.size)
    ensures m < |Next(f, slice, out).boxes| && Next(f, slice, out).boxes[m] == f.boxes[m]
  {}

  /** An action about another mailbox leaves mailbox m as it was. */
  lemma BoxUntouched(s: System, a: Action, m: nat)
    requires SystemOk(s) && Enabled(s, a) && m < |s.kernel.boxes|
    requires Subject(SliceOf(s, a), EffectOf(s, a).out) != m
    ensures SystemOk(After(s, a)) && m < |After(s, a).kernel.boxes|
      && BoxView(After(s, a).kernel, m) == BoxView(s.kernel, m)
  {
    hide Balanced, Marked, Execute, Logged;
    AfterOk(s, a);
    var slice, e := SliceOf(s, a), EffectOf(s, a);
    Refines(s.kernel, slice);
    SameMailboxes(s.kernel, slice);
    assert View(s.kernel).boxes[m] == BoxView(s.kernel, m) && View(e.kernel).boxes[m] == BoxView(e.kernel, m);
    OtherBoxesStay(View(s.kernel), slice, e.out, m);
  }

  /** The action is not a call on mailbox m, nor the rest of one. */
  ghost predicate Elsewhere(s: System, a: Action, m: nat) {
    && (a.Start? && !a.slice.Creating? ==> a.slice.id != m)
    && (a.Resume? ==> a.pid in s.procs && s.procs[a.pid].call.id != m)
  }

  /** An open mailbox is not created again, so only calls on it are about it. */
  lemma ElsewhereIs(s: System, a: Action, m: nat)
    requires SystemOk(s) && Enabled(s, a) && m < |s.kernel.boxes| && BoxView(s.kernel, m).isActive && Elsewhere(s, a, m)
    ensures Subject(SliceOf(s, a), EffectOf(s, a).out) != m && (!SliceOf(s, a).Creating? ==> SliceOf(s, a).id != m)
  {
    hide Balanced, Marked, Execute;
    var slice := SliceOf(s, a);
    if slice.Creating? {
      Refines(s.kernel, slice);
      assert View(s.kernel).boxes[m] == BoxView(s.kernel, m);
    }
  }

  lemma QueueLawStep(s: System, a: Action, m: nat)
    requires SystemOk(s) && Enabled(s, a) && m < |s.logs| && QueueLaw(s, m)
    ensures SystemOk(After(s, a)) && QueueLaw(After(s, a), m)
  {
    hide Balanced, Marked;
    AfterOk(s, a);
    var slice, e := SliceOf(s, a), EffectOf(s, a);
    Refines(s.kernel, slice);
    var f := View(s.kernel);
    assert f.boxes[m] == BoxView(s.kernel, m) && View(e.kernel).boxes[m] == BoxView(e.kernel, m);
    if m == Subject(slice, e.out) {
      FitsStep(f, slice, e, s.logs[m]);
    } else {
      OtherBoxesStay(f, slice, e.out, m);
    }
  }

  // --- the order of wake-ups -----------------------------------------------------------

  /** Producers recorded in m, in order, are those woken so far and then those still waiting. */
  ghost predicate OrderLaw(s: System, m: nat)
    requires SystemOk(s) && m < |s.logs|
  {
    s.logs[m].recorded == s.logs[m].woken + s.kernel.producers[m]
  }

  /** A slice appends to the list of its own mailbox and wakes from the front. */
  ghost predicate ListMoves(k: Kernel, slice: Slice, m: nat)
    requires Shape(k) && Runnable(k, slice) && m < |k.boxes|
  {
    var e := Execute(k, slice);
    && |e.kernel.producers| == |k.producers|
    && (m != Subject(slice, e.out) ==> e.kernel.producers[m] == k.producers[m])
    && (m == Subject(slice, e.out) ==>
       e.producersWoken + e.kernel.producers[m] == k.producers[m] + Recorded(slice, e.out))
  }

  lemma DepositKeepsLists(k: Kernel, id: nat, data: Message)
    requires Shape(k) && id < |k.boxes| && k.free != [] && |data| <= MAX_MESSAGE
    ensures var e := Deposit(k, id, data);
      e.kernel.producers == k.producers && e.producersWoken == [] && e.out == Accepted
  {}

  lemma SendMovesList(k: Kernel, slice: Slice, m: nat)
    requires Inv(k) && Runnable(k, slice) && m < |k.boxes|
    requires slice.Sending? || slice.SendResuming? || slice.TrySending?
    ensures ListMoves(k, slice, m)
  {
    hide Balanced, Marked, BoxOk, Deposit, SlotShape, Payload, FirstBytes;
    assert |k.producers| == |k.boxes|;
    if !slice.SendResuming? { PayloadIsFirstBytes(slice.msg, slice.size); }
    if 0 <= slice.id < |k.boxes| && k.free != [] && |Sent(slice)| <= MAX_MESSAGE {
      DepositKeepsLists(k, slice.id, Sent(slice));
    }
  }

  lemma ReceiveMovesList(k: Kernel, slice: Slice, m: nat)
    requires Inv(k) && Runnable(k, slice) && m < |k.boxes|
    requires slice.Receiving? || slice.RecvResuming? || slice.TryReceiving?
    ensures ListMoves(k, slice, m)
  {
    hide Balanced, Marked;
    assert |k.producers| == |k.boxes|;
    hide Shape;
  }

  lemma ProducersStep(k: Kernel, slice: Slice, m: nat)
    requires Inv(k) && Runnable(k, slice) && m < |k.boxes|
    ensures ListMoves(k, slice, m)
  {
    hide Balanced, Marked;
    if slice.Sending? || slice.SendResuming? || slice.TrySending? {
      SendMovesList(k, slice, m);
    } else if slice.Receiving? || slice.RecvResuming? || slice.TryReceiving? {
      ReceiveMovesList(k, slice, m);
    }
  }

  lemma LogAfter(s: System, a: Action, m: nat)
    requires SystemOk(s) && Enabled(s, a) && m < |s.logs|
    ensures var slice, e := SliceOf(s, a), EffectOf(s, a);
      && After(s, a).kernel == e.kernel && |After(s, a).logs| == |s.logs|
      && (m != Subject(slice, e.out) ==> After(s, a).logs[m] == s.logs[m])
      && (m == Subject(slice, e.out) ==>
        && After(s, a).logs[m].recorded == s.logs[m].recorded + Recorded(slice, e.out)
        && After(s, a).logs[m].woken == s.logs[m].woken + e.producersWoken)
  {
    hide Balanced, Marked;
  }

  lemma OrderLawStep(s: System, a: Action, m: nat)
    requires SystemOk(s) && Enabled(s, a) && m < |s.logs| && OrderLaw(s, m)
    ensures SystemOk(After(s, a)) && OrderLaw(After(s, a), m)
  {
    hide Balanced, Marked, After, Execute, Logged;
    AfterOk(s, a);
    LogAfter(s, a, m);
    var slice, e, log := SliceOf(s, a), EffectOf(s, a), s.logs[m];
    ProducersStep(s.kernel, slice, m);
    if m == Subject(slice, e.out) {
      assert (log.woken + s.kernel.producers[m]) + Recorded(slice, e.out) ==
        log.woken + (e.producersWoken + e.kernel.producers[m]);
    }
  }

  /** Slots a slice loses: one if it cuts a message off, every queued one if it releases. */
  ghost function Loss(k: Kernel, slice: Slice, out: Outcome): int
    requires Shape(k) && (out.Released? ==> slice.Releasing? && 0 <= slice.id < |k.boxes|)
  {
    if out.Truncated? then 1 else if out.Released? then |k.rings[slice.id]| else 0
  }

  ghost predicate Loses(k: Kernel, slice: Slice)
    requires Shape(k) && Runnable(k, slice)
  {
    var e := Execute(k, slice);
    |e.kernel.lost| == |k.lost| + Loss(k, slice, e.out)
  }

  lemma SendLosesNothing(k: Kernel, slice: Slice)
    requires Inv(k) && Runnable(k, slice) && (slice.Sending? || slice.SendResuming? || slice.TrySending?)
    ensures Loses(k, slice)
  {
    hide Balanced, Marked;
  }

  /** A slot is lost exactly when a message is cut off, and with every message a release drops. */
  lemma LossStep(s: System, a: Action)
    requires SystemOk(s) && Enabled(s, a)
    ensures var e := EffectOf(s, a);
      |After(s, a).kernel.lost| == |s.kernel.lost| + Loss(s.kernel, SliceOf(s, a), e.out)
  {
    hide Balanced, Marked, Logged;
    var slice := SliceOf(s, a);
    if slice.Sending? || slice.SendResuming? || slice.TrySending? {
      SendLosesNothing(s.kernel, slice);
    }
  }

  // --- what a slice wakes ------------------------------------------------------------------

  /** A slice that blocks wakes nobody; a removal wakes the first recorded producer. */
  ghost predicate Wakes(k: Kernel, e: Effect, m: int)
    requires Shape(k)
  {
    && (e.out.Blocked? ==> e.producersWoken == [] && e.consumersWoken == [])
    && (e.out.Accepted? || e.out.Error? || e.out.WouldBlock? || e.out.Created? || e.out.Truncated? ==>
       e.producersWoken == [])
    && (e.out.Delivered? && 0 <= m < |k.boxes| ==> |e.producersWoken| == if k.producers[m] == [] then 0 else 1)
  }

  lemma SendWakes(k: Kernel, slice: Slice)
    requires Inv(k) && Runnable(k, slice)
    requires slice.Sending? || slice.SendResuming? || slice.TrySending?
    ensures Wakes(k, Execute(k, slice), slice.id)
  {
    hide Balanced, Marked;
    assert |k.producers| == |k.boxes|;
  }

  lemma ReceiveWakes(k: Kernel, slice: Slice)
    requires Inv(k) && Runnable(k, slice)
    requires slice.Receiving? || slice.RecvResuming? || slice.TryReceiving?
    ensures Wakes(k, Execute(k, slice), slice.id)
  {
    hide Balanced, Marked;
    assert |k.producers| == |k.boxes|;
  }

  lemma SliceWakes(k: Kernel, slice: Slice)
    requires Inv(k) && Runnable(k, slice)
    ensures Wakes(k, Execute(k, slice), Subject(slice, Execute(k, slice).out))
  {
    hide Balanced, Marked;
    if slice.Sending? || slice.SendResuming? || slice.TrySending? {
      SendWakes(k, slice);
    } else if slice.Receiving? || slice.RecvResuming? || slice.TryReceiving? {
      ReceiveWakes(k, slice);
    }
  }

  // --- what a slice does to the processes -----------------------------------------------------

  /** The caller leaves or blocks; everyone else keeps its call and may be unblocked. */
  lemma ProcsAfter(s: System, a: Action, p: nat)
    requires SystemOk(s) && Enabled(s, a)
    ensures var slice, e, procs' := SliceOf(s, a), EffectOf(s, a), After(s, a).procs;
      && (p in Caller(a) && !e.out.Blocked? ==> p !in procs')
      && (p in Caller(a) && e.out.Blocked? ==>
         p in procs' && !procs'[p].runnable && procs'[p].call == PendingCall(s.kernel, slice))
      && (p !in Caller(a) ==> (p in procs' <==> p in s.procs))
      && (p !in Caller(a) && p in s.procs ==>
        && procs'[p].call == s.procs[p].call
        && (procs'[p].runnable <==> s.procs[p].runnable || p in e.producersWoken || p in e.consumersWoken))
  {
    hide Balanced, Marked, Logged;
    var e := EffectOf(s, a);
    SliceWakes(s.kernel, SliceOf(s, a));
    hide Wakes;
    if e.out.Blocked? {
      assert e.producersWoken + e.consumersWoken == [];
    }
  }

  /** Who blocks in a send, and in which mailbox. */
  lemma BlockedSender(s: System, a: Action)
    requires SystemOk(s) && Enabled(s, a) && EffectOf(s, a).out.Blocked?
    ensures var slice := SliceOf(s, a);
      && Caller(a) == {slice.pid}
      && Subject(slice, EffectOf(s, a).out) == slice.id == PendingCall(s.kernel, slice).id
      && (IsSender(PendingCall(s.kernel, slice)) <==> !slice.Receiving?)
      && (slice.Sending? && Slotted(s.kernel, slice.id) ==> PendingCall(s.kernel, slice).SendCall?)
      && (PendingCall(s.kernel, slice).SendCall? ==>
           !slice.Receiving? && PendingCall(s.kernel, slice).data == Sent(slice))
      && 0 <= slice.id < |s.kernel.boxes|
  {
    hide Balanced, Marked, Logged;
  }

  // --- laws of whole runs -----------------------------------------------------------------

  ghost predicate Laws(s: System)
    requires SystemOk(s)
  {
    forall m :: 0 <= m < |s.logs| ==> QueueLaw(s, m) && OrderLaw(s, m)
  }

  lemma LawsStep(s: System, a: Action)
    requires SystemOk(s) && Enabled(s, a) && Laws(s)
    ensures SystemOk(After(s, a)) && Laws(After(s, a)) && |After(s, a).kernel.slots| == |s.kernel.slots|
  {
    hide Balanced, Marked, QueueLaw, OrderLaw, Execute, Logged;
    AfterOk(s, a);
    forall m | 0 <= m < |After(s, a).logs| ensures QueueLaw(After(s, a), m) && OrderLaw(After(s, a), m) {
      QueueLawStep(s, a, m);
      OrderLawStep(s, a, m);
    }
  }

  lemma {:induction false} LawsHold(s: System, actions: seq<Action>)
    requires SystemOk(s) && IsRun(s, actions) && Laws(s)
    ensures SystemOk(Run(s, actions)) && Laws(Run(s, actions)) && |Run(s, actions).kernel.slots| == |s.kernel.slots|
    decreases |actions|
  {
    hide Laws, SystemOk, After, Enabled;
    if actions != [] {
      LawsStep(s, actions[0]);
      LawsHold(After(s, actions[0]), actions[1..]);
    }
  }

  lemma BootedOk(maxMbox: nat, maxSlots: nat, maxProc: nat)
    requires maxProc > 0
    ensures SystemOk(Booted(maxMbox, maxSlots, maxProc)) && Laws(Booted(maxMbox, maxSlots, maxProc))
  {
    hide Balanced;
    InitialInv(maxMbox, maxSlots, maxProc);
  }

  /**
    Whatever the processes do, from the first call on: each open mailbox is a queue,
    its producers are woken in the order they were recorded, and every slot is free,
    in exactly one ring, or lost.
   */
  lemma EveryRun(maxMbox: nat, maxSlots: nat, maxProc: nat, actions: seq<Action>)
    requires maxProc > 0
    requires SystemOk(Booted(maxMbox, maxSlots, maxProc)) && IsRun(Booted(maxMbox, maxSlots, maxProc), actions)
    ensures var s := Run(Booted(maxMbox, maxSlots, maxProc), actions);
      && SystemOk(s)
      && (forall m :: 0 <= m < |s.logs| ==> QueueLaw(s, m) && OrderLaw(s, m))
      && |s.kernel.free| + SumLengths(s.kernel.rings) + |s.kernel.lost| == maxSlots
  {
    hide Balanced, QueueLaw, OrderLaw;
    BootedOk(maxMbox, maxSlots, maxProc);
    LawsHold(Booted(maxMbox, maxSlots, maxProc), actions);
    Conservation(Run(Booted(maxMbox, maxSlots, maxProc), actions).kernel);
  }
}
