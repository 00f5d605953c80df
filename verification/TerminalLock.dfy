/**
  TermWrite of phase 4: a one-slot mailbox used as a lock around the loop that writes
  a user buffer to the terminal, character by character.  Every other process may use
  every other mailbox meanwhile.
 */
module TerminalLock {
  import opened Wrappers
  import opened Sequences
  import opened Mailboxes
  import opened SlotLedger
  import opened MailboxFifo
  import opened MailboxRuns
  import opened PoolSufficiency

  /** Where a process is in sys_term_write, after the argument checks. */
  datatype Phase =
    | Locking(buf: Message)         // blocked in the send to the lock
    | Writing(buf: Message, n: nat) // has written n characters
    | Unlocking(buf: Message)       // blocked in the receive from the lock

  datatype Terminal = Terminal(sys: System, writers: map<nat, Phase>, screen: Message, written: seq<Message>)

  datatype Event =
    | Write(pid: nat, buf: Message) // TermWrite called with a valid, non-empty buffer
    | Regain(pid: nat)              // a writer blocked on the lock resumes
    | Put(pid: nat)                 // one DeviceOutput
    | Unlock(pid: nat)              // the receive after the loop
    | Other(action: Action)         // anyone else, anywhere else

  function LockSend(m: nat, pid: nat): Action {
    Start(Sending(pid, m, Null, 0))
  }

  function LockRecv(m: nat, pid: nat): Action {
    Start(Receiving(pid, m, 0))
  }

  /** The mailbox action behind an event, if it has one. */
  function ActionOf(m: nat, e: Event): Option<Action> {
    match e
    case Write(pid, _) => Some(LockSend(m, pid))
    case Regain(pid) => Some(Resume(pid))
    case Put(_) => None
    case Unlock(pid) => Some(LockRecv(m, pid))
    case Other(a) => Some(a)
  }

  ghost predicate Possible(t: Terminal, m: nat, e: Event)
    requires SystemOk(t.sys)
  {
    && (ActionOf(m, e).Some? ==> Enabled(t.sys, ActionOf(m, e).value))
    && match e
       case Write(pid, buf) => pid !in t.writers && buf != []
       case Regain(pid) => pid in t.writers && t.writers[pid].Locking?
       case Put(pid) => pid in t.writers && t.writers[pid].Writing? && t.writers[pid].n < |t.writers[pid].buf|
       case Unlock(pid) => pid in t.writers && t.writers[pid].Writing? && t.writers[pid].n == |t.writers[pid].buf|
       case Other(a) =>
         && Caller(a) !! t.writers.Keys
         && (a.Start? && !a.slice.Creating? ==> a.slice.id != m)
  }

  /** sys_term_write ignores the return codes of both mailbox calls. */
  ghost function Then(t: Terminal, m: nat, e: Event): Terminal
    requires SystemOk(t.sys) && Possible(t, m, e)
  {
    match e
    case Put(pid) =>
      var w := t.writers[pid];
      t.(writers := t.writers[pid := Writing(w.buf, w.n + 1)], screen := t.screen + [w.buf[w.n]])
    case Other(a) => t.(sys := After(t.sys, a))
    case Unlock(pid) =>
      var buf, blocked := t.writers[pid].buf, EffectOf(t.sys, LockRecv(m, pid)).out.Blocked?;
      Terminal(After(t.sys, LockRecv(m, pid)),
               if blocked then t.writers[pid := Unlocking(buf)] else t.writers - {pid},
               t.screen,
               if blocked then t.written else t.written + [buf])
    case Write(pid, buf) => Acquire(t, LockSend(m, pid), pid, buf)
    case Regain(pid) => Acquire(t, Resume(pid), pid, t.writers[pid].buf)
  }

  ghost function Acquire(t: Terminal, a: Action, pid: nat, buf: Message): Terminal
    requires SystemOk(t.sys) && Enabled(t.sys, a)
  {
    t.(sys := After(t.sys, a),
       writers := t.writers[pid := if EffectOf(t.sys, a).out.Blocked? then Locking(buf) else Writing(buf, 0)])
  }

  // --- the invariant ------------------------------------------------------------------------

  ghost function Holders(t: Terminal): set<nat> {
    set p | p in t.writers && !t.writers[p].Locking?
  }

  /** The lock mailbox is open, has one slot, and holds at most one empty message. */
  ghost predicate LockBox(box: Box, taken: bool) {
    box.isActive && box.numSlots == 1 && box.queue == if taken then [[]] else []
  }

  /** Only writers wait at the lock, and they wait nowhere else. */
  ghost predicate Waiting(t: Terminal, m: nat) {
    && (forall p :: p in t.sys.procs && t.sys.procs[p].call.id == m ==> p in t.writers && t.writers[p].Locking?)
    && (forall p :: p in t.writers && t.writers[p].Locking? ==>
       p in t.sys.procs && t.sys.procs[p].call == SendCall(m, []))
    && (forall p :: p in t.writers && !t.writers[p].Locking? ==> t.writers[p].Writing? && p !in t.sys.procs)
  }

  /** At most one holder, exactly when the lock is taken, and its output is the end of the screen. */
  ghost predicate Exclusive(t: Terminal, taken: bool) {
    && (forall p, q :: p in Holders(t) && q in Holders(t) ==> p == q)
    && (!taken ==> Holders(t) == {} && t.screen == Concat(t.written))
    && (taken ==> exists p :: p in Holders(t) && HolderWrote(t, p))
  }

  ghost predicate HolderWrote(t: Terminal, p: nat) {
    && p in t.writers && t.writers[p].Writing? && t.writers[p].n <= |t.writers[p].buf|
    && t.screen == Concat(t.written) + t.writers[p].buf[..t.writers[p].n]
  }

  ghost predicate Locked(t: Terminal, m: nat, taken: bool) {
    && SystemOk(t.sys) && m < |t.sys.kernel.boxes|
    && LockBox(BoxView(t.sys.kernel, m), taken)
    && Waiting(t, m)
    && Exclusive(t, taken)
  }

  // --- each event keeps it ----------------------------------------------------------------------

  lemma PutStep(t: Terminal, m: nat, e: Event, taken: bool)
    requires Locked(t, m, taken) && Possible(t, m, e) && e.Put?
    ensures taken && Locked(Then(t, m, e), m, taken)
  {
    hide SystemOk, BoxView;
    var t' := Then(t, m, e);
    assert e.pid in Holders(t);
    assert Holders(t') == Holders(t);
    var w := t.writers[e.pid];
    assert HolderWrote(t, e.pid);
    assert w.buf[..w.n + 1] == w.buf[..w.n] + [w.buf[w.n]];
    assert HolderWrote(t', e.pid);
  }

  /** Nobody outside TermWrite acts on the lock. */
  lemma OtherSubject(t: Terminal, m: nat, e: Event, taken: bool)
    requires Locked(t, m, taken) && Possible(t, m, e) && e.Other?
    ensures Subject(SliceOf(t.sys, e.action), EffectOf(t.sys, e.action).out) != m
    ensures !SliceOf(t.sys, e.action).Creating? ==> SliceOf(t.sys, e.action).id != m
  {
    hide Balanced, Marked, Execute, Exclusive;
    ElsewhereIs(t.sys, e.action, m);
  }

  /** Others neither join the queue at the lock nor take anyone off it. */
  lemma OtherWaiting(t: Terminal, m: nat, e: Event, taken: bool)
    requires Locked(t, m, taken) && Possible(t, m, e) && e.Other?
    ensures Waiting(Then(t, m, e), m)
  {
    hide Balanced, Marked, Execute, Exclusive, After, Logged, LockBox, BoxView;
    var s, a, t' := t.sys, e.action, Then(t, m, e);
    OtherSubject(t, m, e, taken);
    if EffectOf(s, a).out.Blocked? { BlockedSender(s, a); }
    forall p: nat ensures p !in t.writers && p in t'.sys.procs ==> t'.sys.procs[p].call.id != m {
      ProcsAfter(s, a, p);
    }
    forall p | p in t.writers
      ensures p in t'.sys.procs <==> p in s.procs
      ensures p in s.procs ==> t'.sys.procs[p].call == s.procs[p].call
    {
      ProcsAfter(s, a, p);
    }
  }

  lemma OtherStep(t: Terminal, m: nat, e: Event, taken: bool)
    requires Locked(t, m, taken) && Possible(t, m, e) && e.Other?
    ensures Locked(Then(t, m, e), m, taken)
  {
    hide Execute, After, BoxView, Waiting, Balanced, Marked;
    OtherSubject(t, m, e, taken);
    OtherWaiting(t, m, e, taken);
    BoxUntouched(t.sys, e.action, m);
    assert Holders(Then(t, m, e)) == Holders(t);
    assert forall p :: HolderWrote(t, p) ==> HolderWrote(Then(t, m, e), p);
  }

  // --- taking the lock -------------------------------------------------------------------------

  /** A send to the lock, at its start or resumed. */
  ghost predicate LockRequest(s: System, a: Action, m: nat, pid: nat) {
    a == LockSend(m, pid) || (a == Resume(pid) && pid in s.procs && s.procs[pid].call == SendCall(m, []))
  }

  /** Unless it finds the pool empty, a request takes the lock if it is free and blocks if it is not. */
  lemma LockRequested(s: System, a: Action, m: nat, pid: nat, taken: bool)
    requires SystemOk(s) && Enabled(s, a) && m < |s.kernel.boxes| && LockRequest(s, a, m, pid)
    requires LockBox(BoxView(s.kernel, m), taken) && (s.kernel.free != [] || (taken && a.Resume?))
    ensures EffectOf(s, a).out.Blocked? <==> taken
    ensures SystemOk(After(s, a)) && m < |After(s, a).kernel.boxes| && LockBox(BoxView(After(s, a).kernel, m), true)
    ensures Caller(a) == {pid} && (taken ==> PendingCall(s.kernel, SliceOf(s, a)) == SendCall(m, []))
  {
    hide Balanced, Marked, Execute, Logged;
    AfterOk(s, a);
    var slice, e := SliceOf(s, a), EffectOf(s, a);
    Refines(s.kernel, slice);
    SameMailboxes(s.kernel, slice);
    assert View(s.kernel).boxes[m] == BoxView(s.kernel, m) && View(e.kernel).boxes[m] == BoxView(e.kernel, m);
    assert Sent(slice) == [];
  }

  /** The lock mailbox is never full beyond one message, so the unlock finds it and never blocks. */
  lemma LockReleased(s: System, m: nat, pid: nat)
    requires SystemOk(s) && Enabled(s, LockRecv(m, pid)) && m < |s.kernel.boxes| && LockBox(BoxView(s.kernel, m), true)
    ensures EffectOf(s, LockRecv(m, pid)).out == Delivered([])
    ensures var s' := After(s, LockRecv(m, pid));
      SystemOk(s') && m < |s'.kernel.boxes| && LockBox(BoxView(s'.kernel, m), false)
  {
    hide Balanced, Marked, Execute, Logged;
    var a := LockRecv(m, pid);
    AfterOk(s, a);
    var slice, e := SliceOf(s, a), EffectOf(s, a);
    Refines(s.kernel, slice);
    SameMailboxes(s.kernel, slice);
    assert View(s.kernel).boxes[m] == BoxView(s.kernel, m) && View(e.kernel).boxes[m] == BoxView(e.kernel, m);
  }

  lemma AcquireWaiting(t: Terminal, m: nat, a: Action, pid: nat, buf: Message, taken: bool)
    requires Locked(t, m, taken) && Enabled(t.sys, a) && LockRequest(t.sys, a, m, pid)
    requires t.sys.kernel.free != [] || (taken && a.Resume?)
    requires pid in t.writers ==> t.writers[pid].Locking?
    ensures Waiting(Acquire(t, a, pid, buf), m)
  {
    hide Balanced, Marked, Execute, After, Logged, BoxView, LockBox, Exclusive;
    var s, t' := t.sys, Acquire(t, a, pid, buf);
    LockRequested(s, a, m, pid, taken);
    forall p: nat
      ensures p != pid ==>
        (p in t'.sys.procs <==> p in s.procs) && (p in s.procs ==> t'.sys.procs[p].call == s.procs[p].call)
      ensures p == pid ==>
        if taken then p in t'.sys.procs && t'.sys.procs[p].call == SendCall(m, []) else p !in t'.sys.procs
    {
      ProcsAfter(s, a, p);
    }
  }

  lemma AcquireStep(t: Terminal, m: nat, a: Action, pid: nat, buf: Message, taken: bool)
    requires Locked(t, m, taken) && Enabled(t.sys, a) && LockRequest(t.sys, a, m, pid)
    requires t.sys.kernel.free != [] || (taken && a.Resume?)
    requires pid in t.writers ==> t.writers[pid].Locking?
    ensures Locked(Acquire(t, a, pid, buf), m, true)
  {
    hide Balanced, Marked, Execute, After, Logged, BoxView, LockBox, Waiting, Enabled;
    var t' := Acquire(t, a, pid, buf);
    LockRequested(t.sys, a, m, pid, taken);
    AcquireWaiting(t, m, a, pid, buf, taken);
    if taken {
      assert Holders(t') == Holders(t);
      assert forall p :: HolderWrote(t, p) ==> HolderWrote(t', p);
    } else {
      assert Holders(t') == {pid};
      assert HolderWrote(t', pid);
    }
  }

  lemma UnlockWaiting(t: Terminal, m: nat, e: Event)
    requires Locked(t, m, true) && Possible(t, m, e) && e.Unlock?
    requires EffectOf(t.sys, LockRecv(m, e.pid)).out == Delivered([])
    ensures Waiting(Then(t, m, e), m)
  {
    hide Balanced, Marked, Execute, After, Logged, BoxView, LockBox, Exclusive;
    var s, t' := t.sys, Then(t, m, e);
    forall p: nat
      ensures p != e.pid ==>
        (p in t'.sys.procs <==> p in s.procs) && (p in s.procs ==> t'.sys.procs[p].call == s.procs[p].call)
      ensures p == e.pid ==> p !in t'.sys.procs
    {
      ProcsAfter(s, LockRecv(m, e.pid), p);
    }
  }

  /** The holder leaves, and its whole buffer is on the screen. */
  lemma UnlockExclusive(t: Terminal, m: nat, e: Event)
    requires Locked(t, m, true) && Possible(t, m, e) && e.Unlock?
    requires EffectOf(t.sys, LockRecv(m, e.pid)).out == Delivered([])
    ensures Exclusive(Then(t, m, e), false)
  {
    hide Balanced, Marked, Execute, After, Logged, BoxView, LockBox, Waiting, SystemOk, Enabled;
    var t', buf := Then(t, m, e), t.writers[e.pid].buf;
    assert e.pid in Holders(t) && HolderWrote(t, e.pid);
    assert Holders(t) == {e.pid} && Holders(t') <= Holders(t) - {e.pid};
    assert buf[..|buf|] == buf;
    ConcatAppend(t.written, buf);
  }

  lemma UnlockStep(t: Terminal, m: nat, e: Event, taken: bool)
    requires Locked(t, m, taken) && Possible(t, m, e) && e.Unlock?
    ensures taken && EffectOf(t.sys, LockRecv(m, e.pid)).out == Delivered([])
    ensures Locked(Then(t, m, e), m, false)
  {
    hide Balanced, Marked, Execute, After, Logged, BoxView, LockBox, Waiting, HolderWrote, Enabled;
    assert e.pid in Holders(t);
    LockReleased(t.sys, m, e.pid);
    UnlockWaiting(t, m, e);
    UnlockExclusive(t, m, e);
  }

  // --- passing by the lock ---------------------------------------------------------------------------

  ghost predicate IsLocked(t: Terminal, m: nat) {
    Locked(t, m, true) || Locked(t, m, false)
  }

  /** With an empty pool a request to the lock returns without blocking or storing, and its code is ignored. */
  ghost predicate PassesBy(t: Terminal, m: nat, e: Event)
    requires SystemOk(t.sys) && m < |t.sys.kernel.boxes|
  {
    t.sys.kernel.free == [] && (e.Write? || (e.Regain? && BoxView(t.sys.kernel, m).queue == []))
  }

  lemma EventStep(t: Terminal, m: nat, e: Event, taken: bool)
    requires Locked(t, m, taken) && Possible(t, m, e) && !PassesBy(t, m, e)
    ensures IsLocked(Then(t, m, e), m)
  {
    hide SystemOk, BoxView, Exclusive, Enabled;
    match e {
      case Put(_) => PutStep(t, m, e, taken);
      case Other(_) => OtherStep(t, m, e, taken);
      case Unlock(_) => UnlockStep(t, m, e, taken);
      case Write(pid, buf) => AcquireStep(t, m, LockSend(m, pid), pid, buf, taken);
      case Regain(pid) => AcquireStep(t, m, Resume(pid), pid, t.writers[pid].buf, taken);
    }
  }

  /** A writer goes on to write with the lock mailbox as it was, free or taken, exactly if it passes by. */
  lemma LockSkippedExactly(t: Terminal, m: nat, e: Event, taken: bool)
    requires Locked(t, m, taken) && Possible(t, m, e) && (e.Write? || e.Regain?)
    ensures var t' := Then(t, m, e);
      SystemOk(t'.sys) && |t'.sys.kernel.boxes| == |t.sys.kernel.boxes| &&
      (t'.writers[e.pid].Writing? && BoxView(t'.sys.kernel, m) == BoxView(t.sys.kernel, m) <==> PassesBy(t, m, e))
  {
    hide Balanced, Marked, Execute, Exclusive, Logged;
    var s, a := t.sys, ActionOf(m, e).value;
    AfterOk(s, a);
    Refines(s.kernel, SliceOf(s, a));
    SameMailboxes(s.kernel, SliceOf(s, a));
    var k' := EffectOf(s, a).kernel;
    assert View(s.kernel).boxes[m] == BoxView(s.kernel, m) && View(k').boxes[m] == BoxView(k', m);
  }

  /** Whoever passes by holds a lock that is free, or that somebody else holds. */
  lemma NotLocked(t: Terminal, m: nat, e: Event, taken: bool)
    requires Locked(t, m, taken) && Possible(t, m, e) && PassesBy(t, m, e)
    ensures !IsLocked(Then(t, m, e), m)
  {
    hide Balanced, Marked, Execute, After, BoxView, Waiting, HolderWrote, Possible, Then;
    LockSkippedExactly(t, m, e, taken);
    SkipperHolds(t, m, e);
    assert e.pid in Holders(Then(t, m, e));
  }

  lemma SkipperHolds(t: Terminal, m: nat, e: Event)
    requires SystemOk(t.sys) && Possible(t, m, e) && (e.Write? || e.Regain?)
    ensures e.pid !in Holders(t) && e.pid in Then(t, m, e).writers
    ensures Then(t, m, e).writers[e.pid].Writing? ==> Holders(Then(t, m, e)) == Holders(t) + {e.pid}
  {
    hide Execute, After, Enabled, SystemOk;
  }

  /** One event keeps the lock a lock exactly if it is not a writer passing by. */
  lemma LockedExactly(t: Terminal, m: nat, e: Event)
    requires IsLocked(t, m) && Possible(t, m, e)
    ensures IsLocked(Then(t, m, e), m) <==> !PassesBy(t, m, e)
  {
    hide Possible, Then, SystemOk, BoxView, LockBox, Waiting, Exclusive;
    var taken := Locked(t, m, true);
    if PassesBy(t, m, e) {
      NotLocked(t, m, e, taken);
    } else {
      EventStep(t, m, e, taken);
    }
  }

  // --- whole runs ----------------------------------------------------------------------------------

  ghost predicate IsRunOf(t: Terminal, m: nat, events: seq<Event>)
    decreases |events|
  {
    events == [] || (SystemOk(t.sys) && Possible(t, m, events[0]) && IsRunOf(Then(t, m, events[0]), m, events[1..]))
  }

  ghost function Finally(t: Terminal, m: nat, events: seq<Event>): Terminal
    requires IsRunOf(t, m, events)
    decreases |events|
  {
    if events == [] then t else Finally(Then(t, m, events[0]), m, events[1..])
  }

  ghost predicate NonePassBy(t: Terminal, m: nat, events: seq<Event>)
    requires IsRunOf(t, m, events)
    decreases |events|
  {
    events == [] || (
      && m < |t.sys.kernel.boxes| && !PassesBy(t, m, events[0])
      && NonePassBy(Then(t, m, events[0]), m, events[1..]))
  }

  ghost predicate LockedThroughout(t: Terminal, m: nat, events: seq<Event>)
    requires IsRunOf(t, m, events)
    decreases |events|
  {
    IsLocked(t, m) && (events == [] || LockedThroughout(Then(t, m, events[0]), m, events[1..]))
  }

  lemma {:induction false} LockedThroughoutExactly(t: Terminal, m: nat, events: seq<Event>)
    requires IsLocked(t, m) && IsRunOf(t, m, events)
    ensures LockedThroughout(t, m, events) <==> NonePassBy(t, m, events)
    decreases |events|
  {
    hide Possible, Then, PassesBy, SystemOk, BoxView, LockBox, Waiting, Exclusive;
    if events != [] {
      LockedExactly(t, m, events[0]);
      if !PassesBy(t, m, events[0]) { LockedThroughoutExactly(Then(t, m, events[0]), m, events[1..]); }
    }
  }

  /** Mutual exclusion and whole-buffer output, at the end of every run in which nobody passes by. */
  lemma {:induction false} WritesAreAtomic(t: Terminal, m: nat, events: seq<Event>)
    requires IsLocked(t, m) && IsRunOf(t, m, events) && NonePassBy(t, m, events)
    ensures var t' := Finally(t, m, events);
      && (forall p, q :: p in Holders(t') && q in Holders(t') ==> p == q)
      && (Holders(t') == {} ==> t'.screen == Concat(t'.written))
      && (forall p :: p in Holders(t') ==> HolderWrote(t', p))
    decreases |events|
  {
    if events != [] {
      LockedExactly(t, m, events[0]);
      WritesAreAtomic(Then(t, m, events[0]), m, events[1..]);
    }
  }

  /** The capacities leave at least one slot of the pool spare whenever an event starts. */
  ghost predicate SpareRun(t: Terminal, m: nat, events: seq<Event>)
    requires IsRunOf(t, m, events)
    decreases |events|
  {
    events == [] || (Provisioned(t.sys.kernel, 1) && SpareRun(Then(t, m, events[0]), m, events[1..]))
  }

  /** A configuration in which nobody ever passes by. */
  lemma {:induction false} SpareSlotKeepsLock(t: Terminal, m: nat, events: seq<Event>)
    requires IsLocked(t, m) && IsRunOf(t, m, events) && SpareRun(t, m, events)
    ensures NonePassBy(t, m, events)
    decreases |events|
  {
    if events != [] {
      RoomMeansFreeSlot(t.sys.kernel, 1);
      LockedExactly(t, m, events[0]);
      SpareSlotKeepsLock(Then(t, m, events[0]), m, events[1..]);
    }
  }

  /** phase4_init: a lock created with MboxCreate(1, 0), nobody pending at its id, starts free. */
  lemma NewLock(s: System, a: Action, m: nat)
    requires SystemOk(s) && Enabled(s, a) && a == Start(Creating(1, 0)) && EffectOf(s, a).out == Created(m)
    requires forall p :: p in s.procs ==> s.procs[p].call.id != m
    ensures SystemOk(After(s, a)) && Locked(Terminal(After(s, a), map[], [], []), m, false)
  {
    hide Balanced, Marked, Execute, Logged, After;
    AfterOk(s, a);
    Refines(s.kernel, a.slice);
    LogAfter(s, a, m);
    var t := Terminal(After(s, a), map[], [], []);
    assert View(t.sys.kernel).boxes[m] == BoxView(t.sys.kernel, m);
    forall p: nat ensures p in t.sys.procs ==> t.sys.procs[p].call.id != m {
      ProcsAfter(s, a, p);
    }
    assert Holders(t) == {};
  }

  /** Why passing by a free lock matters at the end: the unlock blocks exactly if the lock mailbox is empty. */
  lemma UnlockBlocksExactly(s: System, m: nat, pid: nat)
    requires SystemOk(s) && Enabled(s, LockRecv(m, pid)) && m < |s.kernel.boxes|
    requires BoxView(s.kernel, m).isActive && BoxView(s.kernel, m).numSlots == 1
    ensures EffectOf(s, LockRecv(m, pid)).out.Blocked? <==> BoxView(s.kernel, m).queue == []
  {
    hide Balanced, Marked, Execute;
    Refines(s.kernel, LockRecv(m, pid).slice);
    assert View(s.kernel).boxes[m] == BoxView(s.kernel, m);
  }
}
