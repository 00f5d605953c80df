/**
  The wake-up protocol of blocked senders.  A receive frees a slot and wakes one
  recorded producer, which competes for the slot when it resumes.
 */
module ProducerWakeups {
  import opened Sequences
  import opened Mailboxes
  import opened SlotLedger
  import opened MailboxFifo
  import opened MailboxRuns

  /** Producers of m that were woken and have not resumed yet. */
  ghost function InTransit(procs: map<nat, Proc>, m: nat): set<nat> {
    set p | p in procs && procs[p].runnable && procs[p].call.SendCall? && procs[p].call.id == m
  }

  /** p is blocked in a send to m, on the path for mailboxes with slots if `slotted`. */
  ghost predicate BlockedIn(procs: map<nat, Proc>, p: int, m: nat, slotted: bool) {
    && p >= 0 && p in procs && !procs[p].runnable
    && IsSender(procs[p].call) && procs[p].call.id == m
    && (slotted ==> procs[p].call.SendCall?)
  }

  /** Everyone recorded is blocked in a send to that mailbox, and recorded once. */
  ghost predicate Recording(s: System, m: nat)
    requires SystemOk(s) && m < |s.kernel.boxes|
  {
    && (forall p :: p in s.kernel.producers[m] ==> BlockedIn(s.procs, p, m, Slotted(s.kernel, m)))
    && Distinct(s.kernel.producers[m])
  }

  /** Every empty slot that a recorded producer could use is being chased by a woken one. */
  ghost predicate NoLostWakeup(s: System, m: nat)
    requires SystemOk(s) && m < |s.kernel.boxes|
  {
    var box := s.kernel.boxes[m];
    box.isActive && box.numSlots > 0 && s.kernel.producers[m] != [] ==>
      box.numSlots - |s.kernel.rings[m]| <= |InTransit(s.procs, m)|
  }

  ghost predicate Protocol(s: System)
    requires SystemOk(s)
  {
    forall m :: 0 <= m < |s.kernel.boxes| ==> Recording(s, m) && NoLostWakeup(s, m)
  }

  /** The wakes meant for receivers hit nobody who stays recorded as a producer. */
  ghost predicate ReceiversOnly(e: Effect) {
    forall n, p :: 0 <= n < |e.kernel.producers| && p in e.kernel.producers[n] ==> p !in e.consumersWoken
  }

  // --- recording -------------------------------------------------------------------------------

  /** The running process is not blocked, so it is on no list of blocked producers. */
  lemma CallerNotBlocked(s: System, a: Action, p: nat, m: nat)
    requires SystemOk(s) && Enabled(s, a) && p in Caller(a)
    ensures forall slotted :: !BlockedIn(s.procs, p, m, slotted)
  {}

  /** Whoever stays recorded stays blocked. */
  lemma StaysBlocked(s: System, a: Action, p: int, m: nat, slotted: bool)
    requires SystemOk(s) && Enabled(s, a)
    requires BlockedIn(s.procs, p, m, slotted) && p !in EffectOf(s, a).producersWoken
      && p !in EffectOf(s, a).consumersWoken
    ensures BlockedIn(After(s, a).procs, p, m, slotted)
  {
    hide Balanced, Marked, After, Execute;
    ProcsAfter(s, a, p);
    if p in Caller(a) {
      CallerNotBlocked(s, a, p, m);
    }
  }

  ghost predicate AllRecording(s: System)
    requires SystemOk(s)
  {
    forall n :: 0 <= n < |s.kernel.boxes| ==> Recording(s, n)
  }

  /** A woken producer was recorded in the mailbox the slice is about. */
  lemma WokenWereRecorded(s: System, a: Action)
    requires SystemOk(s) && Enabled(s, a)
    ensures var m, woken := Subject(SliceOf(s, a), EffectOf(s, a).out), EffectOf(s, a).producersWoken;
      woken != [] ==> 0 <= m < |s.kernel.boxes| && forall p :: p in woken ==> p in s.kernel.producers[m]
  {
    hide Balanced, Marked, After;
    var slice, e := SliceOf(s, a), EffectOf(s, a);
    if e.producersWoken != [] {
      WakesInRange(s.kernel, slice);
      var m := Subject(slice, e.out);
      ProducersStep(s.kernel, slice, m);
      SliceWakes(s.kernel, slice);
      assert forall p :: p in e.producersWoken ==> p in e.producersWoken + e.kernel.producers[m];
    }
  }

  lemma WakesInRange(k: Kernel, slice: Slice)
    requires Inv(k) && Runnable(k, slice) && Execute(k, slice).producersWoken != []
    ensures 0 <= Subject(slice, Execute(k, slice).out) < |k.boxes|
  {
    hide Balanced, Marked;
  }

  lemma DistinctSuffix(front: seq<int>, rest: seq<int>)
    requires Distinct(front + rest)
    ensures Distinct(rest) && forall p :: p in rest ==> p !in front
  {
    var list := front + rest;
    forall i, j | 0 <= i < |front| && 0 <= j < |rest| ensures front[i] != rest[j] {
      assert list[i] != list[|front| + j];
    }
    forall i, j | 0 <= i < j < |rest| ensures rest[i] != rest[j] {
      assert list[|front| + i] != list[|front| + j];
    }
  }

  lemma NewlyRecorded(s: System, a: Action, m: nat)
    requires SystemOk(s) && Enabled(s, a) && m < |s.kernel.boxes| && Recording(s, m)
    requires m == Subject(SliceOf(s, a), EffectOf(s, a).out)
    ensures forall p :: p in Recorded(SliceOf(s, a), EffectOf(s, a).out) ==>
      p !in s.kernel.producers[m] && BlockedIn(After(s, a).procs, p, m, Slotted(s.kernel, m))
  {
    hide Balanced, Marked, Execute, Logged, After;
    var slice, e := SliceOf(s, a), EffectOf(s, a);
    if Recorded(slice, e.out) != [] {
      BlockedSender(s, a);
      ProcsAfter(s, a, slice.pid);
      CallerNotBlocked(s, a, slice.pid, m);
    }
  }

  /** The list of m after a slice, in terms of the list before. */
  lemma ListAfter(s: System, a: Action, m: nat)
    requires SystemOk(s) && Enabled(s, a) && m < |s.kernel.boxes| && Recording(s, m)
    ensures var list, list', e := s.kernel.producers[m], EffectOf(s, a).kernel.producers, EffectOf(s, a);
      && m < |list'|
      && Distinct(list'[m])
      && (m == Subject(SliceOf(s, a), e.out) ==> forall p :: p in list'[m] && p in list ==> p !in e.producersWoken)
      && (forall p :: p in list'[m] ==>
         p in list || (m == Subject(SliceOf(s, a), e.out) && p in Recorded(SliceOf(s, a), e.out)))
  {
    hide Balanced, Marked, Logged, BlockedIn;
    var slice, e := SliceOf(s, a), EffectOf(s, a);
    ProducersStep(s.kernel, slice, m);
    SliceWakes(s.kernel, slice);
    assert |e.kernel.producers| == |s.kernel.producers|;
    var list, list' := s.kernel.producers[m], e.kernel.producers[m];
    if m == Subject(slice, e.out) {
      if e.out.Blocked? {
        NewlyRecorded(s, a, m);
        assert list' == list + Recorded(slice, e.out);
      } else {
        assert e.producersWoken + list' == list;
        DistinctSuffix(e.producersWoken, list');
      }
    }
  }

  /** How many messages mailbox m holds after a slice. */
  ghost predicate Moves(k: Kernel, slice: Slice, e: Effect, m: nat)
    requires Shape(k) && Shape(e.kernel) && m < |k.boxes| && m < |e.kernel.boxes|
  {
    var before, after := |k.rings[m]| as int, |e.kernel.rings[m]| as int;
    if m != Subject(slice, e.out) then after == before
    else
      match e.out
      case Accepted => after == before + 1
      case Delivered(_) => after == before - 1
      case Truncated(_) => after == before - 1
      case Created(_) => k.producers[m] == e.kernel.producers[m] == []
      case Released => !e.kernel.boxes[m].isActive
      case _ => after == before
  }

  /** The same of the specification, where only an entry that was closed is created. */
  lemma QueueMoves(f: Fifo, slice: Slice, out: Outcome, m: nat)
    requires Allowed(f, slice, out) && m < |f.boxes| && m == Subject(slice, out)
    requires slice.Sending? ==> Readable(slice.msg, slice.size)
    requires slice.TrySending? ==> Readable(slice.msg, slice.size)
    ensures var g := Next(f, slice, out);
      && |g.boxes| == |f.boxes| && (out.Created? <==> slice.Creating?)
      && (out.Created? ==> !f.boxes[m].isActive)
      && (!out.Created? ==> g.boxes[m].numSlots == f.boxes[m].numSlots && (g.boxes[m].isActive ==> f.boxes[m].isActive))
      && match out
         case Accepted => |g.boxes[m].queue| == |f.boxes[m].queue| + 1
         case Delivered(_) => |g.boxes[m].queue| == |f.boxes[m].queue| - 1
         case Truncated(_) => |g.boxes[m].queue| == |f.boxes[m].queue| - 1
         case Created(_) => true
         case Released => !g.boxes[m].isActive
         case _ => |g.boxes[m].queue| == |f.boxes[m].queue|
  {}

  lemma BoxAfter(k: Kernel, slice: Slice, m: nat)
    requires Inv(k) && Runnable(k, slice) && m < |k.boxes|
    ensures var e := Execute(k, slice);
      && Inv(e.kernel) && |e.kernel.boxes| == |k.boxes|
      && Moves(k, slice, e, m)
      && (e.kernel.producers[m] != [] ==> e.kernel.boxes[m].numSlots == k.boxes[m].numSlots)
      && (e.kernel.boxes[m].isActive && e.kernel.producers[m] != [] ==> k.boxes[m].isActive)
  {
    hide Balanced, Marked, Execute, Allowed, Next;
    var e := Execute(k, slice);
    Refines(k, slice);
    SameMailboxes(k, slice);
    ProducersStep(k, slice, m);
    SliceWakes(k, slice);
    var f, f' := View(k), View(e.kernel);
    assert f.boxes[m] == BoxView(k, m) && f'.boxes[m] == BoxView(e.kernel, m);
    if m != Subject(slice, e.out) {
      OtherBoxesStay(f, slice, e.out, m);
    } else {
      QueueMoves(f, slice, e.out, m);
      if e.out.Created? {
        assert BoxOk(k.boxes[m], k.rings[m], k.producers[m], k.consumers[m]);
        assert |e.producersWoken + e.kernel.producers[m]| == |k.producers[m] + Recorded(slice, e.out)|;
      }
    }
  }

  lemma RecordingStep(s: System, a: Action, m: nat)
    requires SystemOk(s) && Enabled(s, a) && AllRecording(s) && ReceiversOnly(EffectOf(s, a)) && m < |s.kernel.boxes|
    ensures SystemOk(After(s, a)) && |After(s, a).kernel.boxes| == |s.kernel.boxes| && Recording(After(s, a), m)
  {
    hide Balanced, Marked, Execute, Logged, Settled, Unblock;
    AfterOk(s, a);
    var slice, e, s' := SliceOf(s, a), EffectOf(s, a), After(s, a);
    SameMailboxes(s.kernel, slice);
    WokenWereRecorded(s, a);
    ListAfter(s, a, m);
    BoxAfter(s.kernel, slice, m);
    forall p | p in e.kernel.producers[m] ensures BlockedIn(s'.procs, p, m, Slotted(s'.kernel, m)) {
      if p !in s.kernel.producers[m] {
        NewlyRecorded(s, a, m);
      } else {
        assert Recording(s, m);
        assert e.producersWoken != [] ==> Recording(s, Subject(slice, e.out));
        StaysBlocked(s, a, p, m, Slotted(s.kernel, m));
      }
    }
  }

  /** A receiver-side wake of a producer that stays recorded leaves a record of a process that is not blocked. */
  lemma StaleRecord(s: System, a: Action, m: nat, p: int)
    requires SystemOk(s) && Enabled(s, a)
    requires m < |EffectOf(s, a).kernel.producers| && p in EffectOf(s, a).kernel.producers[m]
      && p in EffectOf(s, a).consumersWoken
    ensures SystemOk(After(s, a)) && m < |After(s, a).kernel.boxes| && !Recording(After(s, a), m)
  {
    hide Balanced, Marked, Execute, Logged, Settled, Unblock;
    AfterOk(s, a);
    SliceWakes(s.kernel, SliceOf(s, a));
    if p >= 0 { ProcsAfter(s, a, p); }
  }

  // --- no wake-up is lost -----------------------------------------------------------------

  /** Whoever is in transit and does not resume stays in transit. */
  lemma TransitGrows(s: System, a: Action, m: nat)
    requires SystemOk(s) && Enabled(s, a)
    ensures InTransit(s.procs, m) - Caller(a) <= InTransit(After(s, a).procs, m)
  {
    hide Balanced, Marked, After, Execute, Logged;
    forall p | p in InTransit(s.procs, m) - Caller(a) ensures p in InTransit(After(s, a).procs, m) {
      ProcsAfter(s, a, p);
    }
  }

  /** After a removal, or a send that underflows, these are in transit and no others. */
  lemma TransitIs(s: System, a: Action, m: nat)
    requires SystemOk(s) && Enabled(s, a) && !EffectOf(s, a).out.Blocked?
    requires EffectOf(s, a).consumersWoken == [] && |EffectOf(s, a).producersWoken| <= 1
    ensures var woken, later := EffectOf(s, a).producersWoken, InTransit(After(s, a).procs, m);
      if woken != [] && woken[0] !in Caller(a) && BlockedIn(s.procs, woken[0], m, true)
        then later == InTransit(s.procs, m) - Caller(a) + {woken[0]} && woken[0] !in InTransit(s.procs, m)
        else later == InTransit(s.procs, m) - Caller(a)
  {
    hide Balanced, Marked, After, Execute, Logged;
    var woken := EffectOf(s, a).producersWoken;
    forall p: nat ensures p in InTransit(After(s, a).procs, m) <==>
      (p in InTransit(s.procs, m) && p !in Caller(a))
        || (p in woken && p !in Caller(a) && BlockedIn(s.procs, p, m, true))
    {
      ProcsAfter(s, a, p);
    }
  }

  /** A sender that blocks found the mailbox full; one that resumes stores its message or blocks again. */
  lemma SenderOutcome(s: System, a: Action, m: nat)
    requires SystemOk(s) && Enabled(s, a) && m < |s.kernel.boxes| && s.kernel.boxes[m].isActive && Slotted(s.kernel, m)
    ensures var slice, e := SliceOf(s, a), EffectOf(s, a);
      && (m == Subject(slice, e.out) && e.out.Blocked? && !slice.Receiving? ==>
         |s.kernel.rings[m]| >= s.kernel.boxes[m].numSlots)
      && (Caller(a) * InTransit(s.procs, m) != {} ==>
        slice.SendResuming? && m == Subject(slice, e.out) && (e.out.Accepted? || e.out.Blocked? || e.out.Fault?))
  {
    hide Balanced, Marked, Execute, Next;
    Refines(s.kernel, SliceOf(s, a));
    assert View(s.kernel).boxes[m] == BoxView(s.kernel, m);
  }

  lemma CallerIsOne(a: Action, now: set<nat>)
    ensures |now - Caller(a)| >= |now| - 1
    ensures Caller(a) * now == {} ==> now - Caller(a) == now
    ensures Caller(a) * now != {} ==> |now - Caller(a)| == |now| - 1
  {
    if c :| c in Caller(a) * now {
      assert now - Caller(a) == now - {c};
    } else {
      assert now - Caller(a) == now;
    }
  }

  lemma {:induction false} SubsetSize(a: set<nat>, b: set<nat>)
    requires a <= b
    ensures |a| <= |b|
  {
    if x :| x in a {
      SubsetSize(a - {x}, b - {x});
    }
  }

  /** The steps that empty a slot of their mailbox, or leave an empty one to nobody. */
  ghost predicate Frees(e: Effect) {
    e.out.Delivered? || e.out.Truncated? || e.out.Fault?
  }

  ghost predicate FreesOne(k: Kernel, slice: Slice)
    requires Shape(k) && Runnable(k, slice)
  {
    var e := Execute(k, slice);
    && (slice.Receiving? || slice.RecvResuming? || slice.TryReceiving? || slice.SendResuming?)
    && (e.out.Fault? <==> slice.SendResuming?)
    && 0 <= slice.id < |k.boxes| == |k.producers| && k.boxes[slice.id].isActive
    && |e.kernel.boxes| == |e.kernel.rings| == |e.kernel.producers| == |k.boxes| && e.kernel.boxes[slice.id].isActive
    && e.kernel.boxes[slice.id].numSlots == k.boxes[slice.id].numSlots
    && |e.kernel.rings[slice.id]| == |k.rings[slice.id]| - (if e.out.Fault? then 0 else 1)
    && e.consumersWoken == []
    && e.producersWoken == (if e.out.Delivered? && k.producers[slice.id] != [] then [k.producers[slice.id][0]] else [])
    && (e.kernel.producers[slice.id] != [] <==> |k.producers[slice.id]| > if e.out.Delivered? then 1 else 0)
  }

  lemma FreeingReceive(k: Kernel, slice: Slice)
    requires Inv(k) && Runnable(k, slice) && Frees(Execute(k, slice))
    requires slice.Receiving? || slice.RecvResuming? || slice.TryReceiving?
    ensures FreesOne(k, slice)
  {
    hide Balanced, Marked, BoxOk, SlotShape;
  }

  lemma FreeingSend(k: Kernel, slice: Slice)
    requires Inv(k) && Runnable(k, slice) && Frees(Execute(k, slice))
    requires !slice.Receiving? && !slice.RecvResuming? && !slice.TryReceiving?
    ensures FreesOne(k, slice)
  {
    hide Balanced, Marked, BoxOk, SlotShape;
  }

  lemma FreeingSlice(k: Kernel, slice: Slice)
    requires Inv(k) && Runnable(k, slice) && Frees(Execute(k, slice))
    ensures FreesOne(k, slice)
  {
    hide Balanced, Marked, Execute, FreesOne;
    if slice.Receiving? || slice.RecvResuming? || slice.TryReceiving? {
      FreeingReceive(k, slice);
    } else {
      FreeingSend(k, slice);
    }
  }

  /**
    What strands a recorded producer of m, told before the step: there are no more senders in
    transit than empty slots in m, and the step cuts a message of m off, or underflows the
    pool, or wakes a process that is not blocked in a send to m while another is recorded.
   */
  ghost predicate Strands(s: System, a: Action, m: nat)
    requires SystemOk(s) && Enabled(s, a) && m < |s.kernel.boxes|
  {
    var k, f, slice := s.kernel, View(s.kernel), SliceOf(s, a);
    && k.boxes[m].isActive && k.boxes[m].numSlots > 0
    && k.boxes[m].numSlots - |k.rings[m]| >= |InTransit(s.procs, m)|
    && !slice.Creating? && slice.id == m
    && (|| ((Cuts(f, slice) || Underflows(f, slice)) && k.producers[m] != [])
        || (TakesWhole(f, slice) && |k.producers[m]| > 1 && !BlockedIn(s.procs, k.producers[m][0], m, true)))
  }

  /** The inequality after a step that frees a slot of m. */
  lemma FreeingExactly(s: System, a: Action)
    requires SystemOk(s) && Enabled(s, a) && Frees(EffectOf(s, a))
    ensures var m, s' := SliceOf(s, a).id, After(s, a);
      && 0 <= m < |s.kernel.boxes| && m == Subject(SliceOf(s, a), EffectOf(s, a).out)
      && SystemOk(s') && |s'.kernel.boxes| == |s.kernel.boxes|
      && (NoLostWakeup(s, m) ==> (NoLostWakeup(s', m) <==> !Strands(s, a, m)))
  {
    hide Balanced, Marked, Execute, Logged, Settled, Unblock, BlockedIn, Cuts, Underflows, TakesWhole;
    AfterOk(s, a);
    var slice, e := SliceOf(s, a), EffectOf(s, a);
    FreeingSlice(s.kernel, slice);
    FreeingOutcome(s, a);
    var m, now := slice.id, InTransit(s.procs, slice.id);
    if s.kernel.boxes[m].numSlots > 0 {
      SenderOutcome(s, a, m);
      TransitIs(s, a, m);
      CallerIsOne(a, now);
      if e.out.Fault? { FaultingCaller(s, a); }
      if e.producersWoken != [] { CallerNotWoken(s, a, e.producersWoken[0], m); }
    }
  }

  lemma FreeingOutcome(s: System, a: Action)
    requires SystemOk(s) && Enabled(s, a)
    ensures var f, slice, out := View(s.kernel), SliceOf(s, a), EffectOf(s, a).out;
      (out.Truncated? <==> Cuts(f, slice)) && (out.Fault? <==> Underflows(f, slice))
        && (out.Delivered? <==> TakesWhole(f, slice))
  {
    hide Balanced, Marked, Execute, Cuts, Underflows, TakesWhole, Allowed, Next;
    var f, slice, out := View(s.kernel), SliceOf(s, a), EffectOf(s, a).out;
    Refines(s.kernel, slice);
    CutsExactly(f, slice, out);
    UnderflowsExactly(f, slice, out);
    TakesExactly(f, slice, out);
  }

  lemma FaultingCaller(s: System, a: Action)
    requires SystemOk(s) && Enabled(s, a) && SliceOf(s, a).SendResuming?
    ensures Caller(a) * InTransit(s.procs, SliceOf(s, a).id) != {}
  {
    assert a.pid in Caller(a) * InTransit(s.procs, SliceOf(s, a).id);
  }

  lemma CallerNotWoken(s: System, a: Action, p: int, m: nat)
    requires SystemOk(s) && Enabled(s, a)
    ensures BlockedIn(s.procs, p, m, true) ==> p !in Caller(a)
  {}

  /** The wake-up law of mailbox m survives a step exactly if the step strands nobody; from any state. */
  lemma StrandsExactly(s: System, a: Action, m: nat)
    requires SystemOk(s) && Enabled(s, a) && m < |s.kernel.boxes| && NoLostWakeup(s, m)
    ensures SystemOk(After(s, a)) && m < |After(s, a).kernel.boxes|
    ensures NoLostWakeup(After(s, a), m) <==> !Strands(s, a, m)
  {
    hide Balanced, Marked, Execute, Logged, Settled, Unblock, InTransit, BlockedIn, Cuts, Underflows, TakesWhole;
    AfterOk(s, a);
    var slice, e := SliceOf(s, a), EffectOf(s, a);
    FreeingOutcome(s, a);
    BoxAfter(s.kernel, slice, m);
    if Frees(e) && m == Subject(slice, e.out) {
      FreeingExactly(s, a);
    } else {
      NotFreeing(s, a, m);
    }
  }

  /** A step that frees no slot of m loses no wake-up of m. */
  lemma NotFreeing(s: System, a: Action, m: nat)
    requires SystemOk(s) && Enabled(s, a) && m < |s.kernel.boxes| && NoLostWakeup(s, m)
    requires Frees(EffectOf(s, a)) ==> m != Subject(SliceOf(s, a), EffectOf(s, a).out)
    ensures SystemOk(After(s, a)) && m < |After(s, a).kernel.boxes| && NoLostWakeup(After(s, a), m)
  {
    hide Balanced, Marked, Execute, Logged, Settled, Unblock, InTransit, BoxOk;
    AfterOk(s, a);
    var slice, e := SliceOf(s, a), EffectOf(s, a);
    BoxAfter(s.kernel, slice, m);
    if e.kernel.boxes[m].isActive && e.kernel.boxes[m].numSlots > 0 && e.kernel.producers[m] != [] {
      var now, later := InTransit(s.procs, m), InTransit(After(s, a).procs, m);
      SenderOutcome(s, a, m);
      TransitGrows(s, a, m);
      CallerIsOne(a, now);
      SubsetSize(now - Caller(a), later);
      ProducersStep(s.kernel, slice, m);
      SliceWakes(s.kernel, slice);
    }
  }

  // --- over runs ------------------------------------------------------------------------------------

  ghost predicate NoneStranded(s: System, actions: seq<Action>, m: nat)
    requires SystemOk(s) && IsRun(s, actions) && m < |s.kernel.boxes|
    decreases |actions|
  {
    actions == [] || (
      AfterOk(s, actions[0]); SameMailboxes(s.kernel, SliceOf(s, actions[0]));
      !Strands(s, actions[0], m) && NoneStranded(After(s, actions[0]), actions[1..], m))
  }

  ghost predicate LawThroughout(s: System, actions: seq<Action>, m: nat)
    requires SystemOk(s) && IsRun(s, actions) && m < |s.kernel.boxes|
    decreases |actions|
  {
    NoLostWakeup(s, m) && (actions == [] || (
      AfterOk(s, actions[0]); SameMailboxes(s.kernel, SliceOf(s, actions[0]));
      LawThroughout(After(s, actions[0]), actions[1..], m)))
  }

  lemma {:induction false} LawThroughoutExactly(s: System, actions: seq<Action>, m: nat)
    requires SystemOk(s) && IsRun(s, actions) && m < |s.kernel.boxes| && NoLostWakeup(s, m)
    ensures LawThroughout(s, actions, m) <==> NoneStranded(s, actions, m)
    decreases |actions|
  {
    hide NoLostWakeup, SystemOk, After, Enabled, Strands, SliceOf;
    if actions != [] {
      StrandsExactly(s, actions[0], m);
      if !Strands(s, actions[0], m) {
        LawThroughoutExactly(After(s, actions[0]), actions[1..], m);
      } else {
        NotThroughout(After(s, actions[0]), actions[1..], m);
      }
    }
  }

  lemma NotThroughout(s: System, actions: seq<Action>, m: nat)
    requires SystemOk(s) && IsRun(s, actions) && m < |s.kernel.boxes| && !NoLostWakeup(s, m)
    ensures !LawThroughout(s, actions, m)
  {}

  /** From boot: no wake-up of m is ever lost exactly if no step of the run strands anybody. */
  lemma NoWakeupLostExactly(maxMbox: nat, maxSlots: nat, maxProc: nat, actions: seq<Action>, m: nat)
    requires maxProc > 0 && m < maxMbox
    requires SystemOk(Booted(maxMbox, maxSlots, maxProc)) && IsRun(Booted(maxMbox, maxSlots, maxProc), actions)
    ensures LawThroughout(Booted(maxMbox, maxSlots, maxProc), actions, m) <==>
      NoneStranded(Booted(maxMbox, maxSlots, maxProc), actions, m)
  {
    var s := Booted(maxMbox, maxSlots, maxProc);
    assert NoLostWakeup(s, m) by { assert s.kernel.producers[m] == []; }
    hide NoLostWakeup, LawThroughout, NoneStranded, SystemOk, IsRun, Booted;
    LawThroughoutExactly(s, actions, m);
  }

  // --- release ---------------------------------------------------------------------------------

  /** Release wakes every recorded producer, in order. */
  lemma ReleaseWakesAll(s: System, a: Action)
    requires SystemOk(s) && Enabled(s, a) && EffectOf(s, a).out.Released?
    ensures var m, e := SliceOf(s, a).id, EffectOf(s, a);
      && 0 <= m < |s.kernel.boxes| && |e.kernel.boxes| == |s.kernel.boxes| && |e.kernel.producers| == |s.kernel.boxes|
      && e.producersWoken == s.kernel.producers[m] && e.kernel.producers[m] == []
      && !e.kernel.boxes[m].isActive
  {
    hide Balanced, Marked, BoxOk, Below, BoxShape, SlotShape, Next, Create;
    hide SendEnter, SlotSendResume, RecvEnter, SlotRecvResume, RendezvousResume, CondSend, CondRecv;
    Refines(s.kernel, SliceOf(s, a));
  }

  ghost predicate NeverRecreated(s: System, actions: seq<Action>, m: nat)
    requires SystemOk(s) && IsRun(s, actions)
    decreases |actions|
  {
    actions == [] || (
      && EffectOf(s, actions[0]).out != Created(m)
      && (AfterOk(s, actions[0]); NeverRecreated(After(s, actions[0]), actions[1..], m)))
  }

  ghost predicate DeadSender(s: System, p: nat, m: nat)
    requires SystemOk(s)
  {
    && m < |s.kernel.boxes| && !s.kernel.boxes[m].isActive
    && p in s.procs && IsSender(s.procs[p].call) && s.procs[p].call.id == m
  }

  lemma DeadSenderStep(s: System, a: Action, p: nat, m: nat)
    requires SystemOk(s) && Enabled(s, a) && DeadSender(s, p, m) && a != Resume(p) && EffectOf(s, a).out != Created(m)
    ensures SystemOk(After(s, a)) && DeadSender(After(s, a), p, m)
  {
    hide Balanced, Marked, Logged, Settled, Unblock;
    AfterOk(s, a);
    ProcsAfter(s, a, p);
    StaysInactive(s.kernel, SliceOf(s, a), m);
  }

  lemma StaysInactive(k: Kernel, slice: Slice, m: nat)
    requires Inv(k) && Runnable(k, slice) && m < |k.boxes| && !k.boxes[m].isActive
    ensures var e := Execute(k, slice);
      Shape(e.kernel) && m < |e.kernel.boxes| && (e.out == Created(m) || !e.kernel.boxes[m].isActive)
  {
    hide Balanced, Marked, Execute;
    Refines(k, slice);
    SameMailboxes(k, slice);
    assert View(k).boxes[m] == BoxView(k, m)
      && View(Execute(k, slice).kernel).boxes[m] == BoxView(Execute(k, slice).kernel, m);
  }

  /** However late a sender of a released mailbox resumes, it gets -1 and changes nothing. */
  lemma {:induction false} ReleasedSendersFail(s: System, actions: seq<Action>, p: nat, m: nat)
    requires SystemOk(s) && IsRun(s, actions) && DeadSender(s, p, m)
    requires NeverRecreated(s, actions, m) && Resume(p) !in actions
    ensures var t := Run(s, actions);
      SystemOk(t) && DeadSender(t, p, m) &&
      (Enabled(t, Resume(p)) ==> EffectOf(t, Resume(p)) == Effect(t.kernel, Error, [], []))
    decreases |actions|
  {
    hide Balanced, Marked, After;
    if actions != [] {
      DeadSenderStep(s, actions[0], p, m);
      ReleasedSendersFail(After(s, actions[0]), actions[1..], p, m);
    }
  }
}
