/**
  The clock driver and its sleepers over runs of the whole system.  The driver's receive and
  its put-back are two actions, and anyone may act in between: when that is harmless, and
  what becomes of the driver when it is not.
 */
module SleepRuns {
  import opened Wrappers
  import opened Mailboxes
  import opened SlotLedger
  import opened MailboxFifo
  import opened MailboxRuns
  import opened PoolSufficiency
  import opened SleepQueue
  import opened SleepKernel

  datatype Clock = Clock(sys: System, tickCount: int, woken: seq<Wake>, driver: Driver)

  /** m is the clock mailbox and d the driver's pid in all that follows. */
  datatype Move =
    | Begin                             // waitDevice returns
    | Receive                           // the driver's conditional receive
    | Return                            // the driver's send
    | ReturnOn                          // the same, from blockMe on
    | Ask(pid: nat, wakeupTick: int)    // the send of sys_sleep
    | AskOn(pid: nat)                   // the same, from blockMe on
    | Other(action: Action)             // anyone else, anywhere else

  function StoreOf(m: nat, pid: nat, req: SleepReq): Action {
    Start(Sending(pid, m, Bytes(Encode(req)), REQ_SIZE))
  }

  /** The mailbox action behind a move, if it has one. */
  function ActionOf(c: Clock, m: nat, d: nat, e: Move): Option<Action> {
    match e
    case Begin => None
    case Receive => Some(Start(TryReceiving(m, REQ_SIZE)))
    case Return => if c.driver.Holding? then Some(StoreOf(m, d, c.driver.req)) else None
    case ReturnOn => Some(Resume(d))
    case Ask(pid, wakeupTick) => Some(StoreOf(m, pid, SleepReq(pid, wakeupTick)))
    case AskOn(pid) => Some(Resume(pid))
    case Other(a) => Some(a)
  }

  /** p is inside a send to m. */
  ghost predicate SendsTo(procs: map<nat, Proc>, p: nat, m: nat) {
    p in procs && procs[p].call.SendCall? && procs[p].call.id == m
  }

  ghost predicate Possible(c: Clock, m: nat, d: nat, e: Move) {
    && SystemOk(c.sys)
    && (ActionOf(c, m, d, e).Some? ==> Enabled(c.sys, ActionOf(c, m, d, e).value))
    && match e
       case Begin => c.driver.Waiting?
       case Receive => c.driver.Scanning?
       case Return => c.driver.Holding?
       case ReturnOn => c.driver.Holding? && SendsTo(c.sys.procs, d, m)
       case Ask(pid, _) => pid != d
       case AskOn(pid) => pid != d && SendsTo(c.sys.procs, pid, m)
       case Other(a) => Elsewhere(c.sys, a, m) && d !in Caller(a)
  }

  /** unblockProc on a sleeper runs it, and on a process inside a mailbox call makes it runnable. */
  ghost function Received(c: Clock, sys: System, out: Outcome): Clock {
    if out.Delivered? && |out.data| == REQ_SIZE then
      var req := Decode(out.data);
      if req.wakeupTick <= c.tickCount then
        c.(sys := sys.(procs := Unblock(sys.procs, [req.pid])), woken := c.woken + [Wake(req, c.tickCount)])
      else c.(sys := sys, driver := Holding(req))
    else c.(sys := sys, driver := Waiting)
  }

  /** The driver and sys_sleep ignore the return code of the send. */
  ghost function Then(c: Clock, m: nat, d: nat, e: Move): Clock
    requires Possible(c, m, d, e)
  {
    if e.Begin? then c.(tickCount := c.tickCount + 1, driver := Scanning)
    else
      var a := ActionOf(c, m, d, e).value;
      var sys, out := After(c.sys, a), EffectOf(c.sys, a).out;
      match e
      case Receive => Received(c, sys, out)
      case Return => c.(sys := sys, driver := if out.Blocked? then c.driver else Waiting)
      case ReturnOn => c.(sys := sys, driver := if out.Blocked? then c.driver else Waiting)
      case _ => c.(sys := sys)
  }

  ghost predicate Clocked(c: Clock, m: nat) {
    SystemOk(c.sys) && IsClock(c.sys.kernel, m) && (c.driver.Holding? ==> InRange(c.driver.req))
  }

  /** The clock mailbox and the driver, as the queue of sleepers they are meant to be. */
  ghost function State(c: Clock, m: nat): Sleepers
    requires Clocked(c, m)
  {
    Sleepers(DecodeAll(BoxView(c.sys.kernel, m).queue), c.tickCount, c.woken, c.driver)
  }

  /** The step of the queue that a move is meant to be, if it is about the queue. */
  function Meant(e: Move): Option<Event> {
    match e
    case Begin => Some(BeginTick)
    case Receive => Some(Take)
    case Return => Some(PutBack)
    case Ask(pid, wakeupTick) => Some(Arrive(SleepReq(Wrapped(pid), Wrapped(wakeupTick))))
    case _ => None
  }

  // --- when every move does what it is meant to do ----------------------------------------------

  ghost function Capacity(c: Clock, m: nat): nat
    requires Clocked(c, m)
  {
    c.sys.kernel.boxes[m].numSlots
  }

  /** Nobody waits at the clock mailbox, and it has room for the request the driver holds. */
  ghost predicate Roomy(c: Clock, m: nat) {
    && Clocked(c, m)
    && (forall p :: p in c.sys.procs ==> c.sys.procs[p].call.id != m)
    && |Outstanding(State(c, m))| <= Capacity(c, m)
  }

  /** A request too many, or an empty pool when a request is to be stored. */
  ghost predicate Crowds(c: Clock, m: nat, e: Move)
    requires Clocked(c, m)
  {
    || (e.Ask? && |Outstanding(State(c, m))| >= Capacity(c, m))
    || ((e.Ask? || e.Return?) && c.sys.kernel.free == [])
  }

  ghost predicate DoesAsMeant(c: Clock, m: nat, d: nat, e: Move)
    requires Possible(c, m, d, e) && Clocked(c, m)
  {
    && Roomy(Then(c, m, d, e), m) && Capacity(Then(c, m, d, e), m) == Capacity(c, m)
    && State(Then(c, m, d, e), m) ==
       if Meant(e).Some? then SleepQueue.Step(State(c, m), Meant(e).value) else State(c, m)
  }

  lemma CallsAfter(s: System, a: Action, m: nat)
    requires SystemOk(s) && Enabled(s, a) && forall p :: p in s.procs ==> s.procs[p].call.id != m
    ensures EffectOf(s, a).out.Blocked? && SliceOf(s, a).id == m ==>
      exists p :: p in After(s, a).procs && After(s, a).procs[p].call.id == m
    ensures !EffectOf(s, a).out.Blocked? || SliceOf(s, a).id != m ==>
      forall p :: p in After(s, a).procs ==> After(s, a).procs[p].call.id != m
  {
    hide Balanced, Marked, Execute, After;
    if EffectOf(s, a).out.Blocked? {
      BlockedSender(s, a);
      ProcsAfter(s, a, SliceOf(s, a).pid);
    }
    forall p: nat | p in After(s, a).procs
      ensures After(s, a).procs[p].call.id != m || (EffectOf(s, a).out.Blocked? && SliceOf(s, a).id == m)
    {
      ProcsAfter(s, a, p);
    }
  }

  lemma UnblockedOk(s: System, pids: seq<int>, m: nat)
    requires SystemOk(s) && forall p :: p in s.procs ==> s.procs[p].call.id != m
    ensures SystemOk(s.(procs := Unblock(s.procs, pids)))
    ensures forall p :: p in Unblock(s.procs, pids) ==> Unblock(s.procs, pids)[p].call.id != m
  {}

  lemma ReceiveAsMeant(c: Clock, m: nat, d: nat, e: Move)
    requires Roomy(c, m) && Possible(c, m, d, e) && e.Receive?
    ensures DoesAsMeant(c, m, d, e)
  {
    hide Balanced, Marked, BoxOk, SlotShape, BoxShape, After, CondRecv, Messages, DecodeAll, Unblock, AreRequests;
    var a, queue := ActionOf(c, m, d, e).value, BoxView(c.sys.kernel, m).queue;
    AfterOk(c.sys, a);
    LogAfter(c.sys, a, m);
    CallsAfter(c.sys, a, m);
    TakesOldest(c.sys.kernel, m);
    DecodeStored(queue);
    if queue != [] { UnblockedOk(After(c.sys, a), [Decode(queue[0]).pid], m); }
  }

  /** What a send of a request does, by the driver or by a sleeper. */
  lemma StoreAsMeant(c: Clock, m: nat, pid: nat, req: SleepReq)
    requires Roomy(c, m) && Enabled(c.sys, StoreOf(m, pid, req))
    ensures var s, box := After(c.sys, StoreOf(m, pid, req)), BoxView(c.sys.kernel, m);
      && SystemOk(s) && IsClock(s.kernel, m) && s.kernel.boxes[m].numSlots == box.numSlots
      && (EffectOf(c.sys, StoreOf(m, pid, req)).out.Blocked? <==> c.sys.kernel.free != [] && IsFull(box))
      && ((forall p :: p in s.procs ==> s.procs[p].call.id != m) <==> c.sys.kernel.free == [] || !IsFull(box))
      && DecodeAll(BoxView(s.kernel, m).queue) ==
        var taken := c.sys.kernel.free != [] && !IsFull(box);
        DecodeAll(box.queue) + if taken then [SleepReq(Wrapped(req.pid), Wrapped(req.wakeupTick))] else []
  {
    hide Balanced, Marked, After, SendEnter, BoxOk, DecodeAll, Encode;
    var a := StoreOf(m, pid, req);
    AfterOk(c.sys, a);
    LogAfter(c.sys, a, m);
    CallsAfter(c.sys, a, m);
    StoresRequest(c.sys.kernel, m, pid, Encode(req));
    DecodeArrival(BoxView(c.sys.kernel, m).queue, req);
  }

  lemma OtherAsMeant(c: Clock, m: nat, d: nat, e: Move)
    requires Roomy(c, m) && Possible(c, m, d, e) && e.Other?
    ensures DoesAsMeant(c, m, d, e)
  {
    hide Balanced, Marked, After, Execute, DecodeAll;
    AfterOk(c.sys, e.action);
    ElsewhereIs(c.sys, e.action, m);
    BoxUntouched(c.sys, e.action, m);
    if EffectOf(c.sys, e.action).out.Blocked? { BlockedSender(c.sys, e.action); }
    CallsAfter(c.sys, e.action, m);
  }

  /**
    As long as nobody waits at the clock mailbox and it has room for what the driver holds,
    a move does what it is meant to do and keeps this exactly if it crowds the mailbox or the
    pool by nothing: so no put-back blocks or fails, and every request is stored at once.
   */
  lemma AsMeantExactly(c: Clock, m: nat, d: nat, e: Move)
    requires Roomy(c, m) && Possible(c, m, d, e)
    ensures Clocked(Then(c, m, d, e), m) && (DoesAsMeant(c, m, d, e) <==> !Crowds(c, m, e))
  {
    hide Balanced, Marked, BoxOk, SlotShape, BoxShape, After, Execute, DecodeAll, Messages;
    match e {
      case Begin =>
      case Receive => ReceiveAsMeant(c, m, d, e);
      case Return => StoreAsMeant(c, m, d, c.driver.req);
      case ReturnOn =>
      case Ask(pid, wakeupTick) => StoreAsMeant(c, m, pid, SleepReq(pid, wakeupTick));
      case AskOn(_) =>
      case Other(_) => OtherAsMeant(c, m, d, e);
    }
  }

  // --- whole runs -----------------------------------------------------------------------------------

  ghost predicate IsRunOf(c: Clock, m: nat, d: nat, moves: seq<Move>)
    decreases |moves|
  {
    moves == [] || (Possible(c, m, d, moves[0]) && IsRunOf(Then(c, m, d, moves[0]), m, d, moves[1..]))
  }

  ghost function Finally(c: Clock, m: nat, d: nat, moves: seq<Move>): Clock
    requires IsRunOf(c, m, d, moves)
    decreases |moves|
  {
    if moves == [] then c else Finally(Then(c, m, d, moves[0]), m, d, moves[1..])
  }

  ghost predicate NoneCrowds(c: Clock, m: nat, d: nat, moves: seq<Move>)
    requires IsRunOf(c, m, d, moves)
    decreases |moves|
  {
    moves == [] || (
      && Clocked(c, m) && !Crowds(c, m, moves[0])
      && NoneCrowds(Then(c, m, d, moves[0]), m, d, moves[1..]))
  }

  function Meanings(moves: seq<Move>): seq<Event> {
    if moves == [] then [] else (if Meant(moves[0]).Some? then [Meant(moves[0]).value] else []) + Meanings(moves[1..])
  }

  ghost predicate AllAsMeant(c: Clock, m: nat, d: nat, moves: seq<Move>)
    requires IsRunOf(c, m, d, moves) && Clocked(c, m)
    decreases |moves|
  {
    moves == [] || (
      && DoesAsMeant(c, m, d, moves[0])
      && AllAsMeant(Then(c, m, d, moves[0]), m, d, moves[1..]))
  }

  lemma {:induction false} AllAsMeantExactly(c: Clock, m: nat, d: nat, moves: seq<Move>)
    requires Roomy(c, m) && IsRunOf(c, m, d, moves)
    ensures AllAsMeant(c, m, d, moves) <==> NoneCrowds(c, m, d, moves)
    decreases |moves|
  {
    hide Possible, Then, Clocked, Crowds, State;
    if moves != [] {
      AsMeantExactly(c, m, d, moves[0]);
      if DoesAsMeant(c, m, d, moves[0]) { AllAsMeantExactly(Then(c, m, d, moves[0]), m, d, moves[1..]); }
    }
  }

  /** A run that crowds neither mailbox nor pool is a run of the queue of sleepers. */
  lemma {:induction false} RunsAsMeant(c: Clock, m: nat, d: nat, moves: seq<Move>)
    requires Roomy(c, m) && IsRunOf(c, m, d, moves) && NoneCrowds(c, m, d, moves)
    ensures var t := Finally(c, m, d, moves);
      Roomy(t, m) && State(t, m) == SleepQueue.Run(State(c, m), Meanings(moves))
    decreases |moves|
  {
    hide Possible, Then, Clocked, Crowds, State, SleepQueue.Step;
    if moves != [] {
      AsMeantExactly(c, m, d, moves[0]);
      RunsAsMeant(Then(c, m, d, moves[0]), m, d, moves[1..]);
      assert Meant(moves[0]).Some? ==> Meanings(moves)[1..] == Meanings(moves[1..]);
      assert Meant(moves[0]).None? ==> Meanings(moves) == Meanings(moves[1..]);
    }
  }

  /** Bounded lateness in the system, with anyone acting between the driver's receive and its put-back. */
  lemma LateByAtMost(c: Clock, m: nat, d: nat, k: nat, moves: seq<Move>)
    requires Roomy(c, m) && IsRunOf(c, m, d, moves) && NoneCrowds(c, m, d, moves)
    requires var s := State(c, m);
      && k < |s.queue| && s.queue[k].wakeupTick <= NextScan(s)
      && Ended(s, Meanings(moves)) > k + if s.driver.Holding? then 1 else 0
    ensures var s, t := State(c, m), Finally(c, m, d, moves);
      Clocked(t, m) && WokenBy(s, State(t, m), s.queue[k], NextScan(s) + k)
  {
    hide State, Possible, Then;
    RunsAsMeant(c, m, d, moves);
    BoundedLateness(State(c, m), k, Meanings(moves));
  }

  // --- a configuration in which none crowds ------------------------------------------------------------

  /**
    The open mailboxes fit in the pool, and a process asks only if it has no request out; with
    its own, fewer than maxProc processes have one, since the driver is a process too.
   */
  ghost predicate OneEach(c: Clock, m: nat, d: nat, maxProc: nat, moves: seq<Move>)
    requires IsRunOf(c, m, d, moves)
    decreases |moves|
  {
    moves == [] || (
      && Clocked(c, m) && Provisioned(c.sys.kernel, 0)
      && (moves[0].Ask? ==>
        var pids := Pids(Outstanding(State(c, m))); Wrapped(moves[0].pid) !in pids && |pids| + 1 < maxProc)
      && OneEach(Then(c, m, d, moves[0]), m, d, maxProc, moves[1..]))
  }

  lemma OneEachFitsNow(c: Clock, m: nat, d: nat, e: Move)
    requires Roomy(c, m) && Possible(c, m, d, e) && OnePerPid(Outstanding(State(c, m))) && Provisioned(c.sys.kernel, 0)
    requires e.Ask? ==> |Pids(Outstanding(State(c, m)))| < Capacity(c, m)
    ensures !Crowds(c, m, e)
  {
    hide Balanced, Marked, Pids, OnePerPid, Provisioned, DecodeAll;
    PidsCount(Outstanding(State(c, m)));
    RoomMeansFreeSlot(c.sys.kernel, 0);
    assert |BoxView(c.sys.kernel, m).queue| == |c.sys.kernel.rings[m]|;
  }

  /** Why 100 slots are enough for 50 processes. */
  lemma {:induction false} OneEachFits(c: Clock, m: nat, d: nat, maxProc: nat, moves: seq<Move>)
    requires Roomy(c, m) && IsRunOf(c, m, d, moves) && OneEach(c, m, d, maxProc, moves)
    requires maxProc <= Capacity(c, m) + 1 && OnePerPid(Outstanding(State(c, m)))
    ensures NoneCrowds(c, m, d, moves)
    decreases |moves|
  {
    hide Possible, Then, SleepQueue.Step, State, Clocked, Provisioned, Crowds, Pids, OnePerPid, Outstanding;
    if moves != [] {
      OneEachFitsNow(c, m, d, moves[0]);
      AsMeantExactly(c, m, d, moves[0]);
      if Meant(moves[0]).Some? { OnePerPidStep(State(c, m), Meant(moves[0]).value); }
      OneEachFits(Then(c, m, d, moves[0]), m, d, maxProc, moves[1..]);
    }
  }

  // --- a put-back into a full mailbox -------------------------------------------------------------------

  /** The driver is inside its send of a request to its own full mailbox. */
  ghost predicate Stuck(c: Clock, m: nat, d: nat) {
    && SystemOk(c.sys) && m < |c.sys.kernel.boxes| && c.driver.Holding? && SendsTo(c.sys.procs, d, m)
    && BoxView(c.sys.kernel, m).isActive && BoxView(c.sys.kernel, m).numSlots > 0 && IsFull(BoxView(c.sys.kernel, m))
  }

  /** A put-back does what it is meant to, leaves the driver stuck, or drops the request: exactly then. */
  lemma PutBackExactly(c: Clock, m: nat, d: nat)
    requires Clocked(c, m) && Possible(c, m, d, Return)
    ensures var t, box, pool := Then(c, m, d, Return), BoxView(c.sys.kernel, m), c.sys.kernel.free;
      && Clocked(t, m)
      && (State(t, m) == SleepQueue.Step(State(c, m), PutBack) <==> pool != [] && !IsFull(box))
      && (Stuck(t, m, d) <==> pool != [] && IsFull(box))
      && (State(t, m) == State(c, m).(driver := Waiting) <==> pool == [])
  {
    hide Balanced, Marked, After, SendEnter, BoxOk, DecodeAll, Encode;
    var a := StoreOf(m, d, c.driver.req);
    AfterOk(c.sys, a);
    LogAfter(c.sys, a, m);
    ProcsAfter(c.sys, a, d);
    StoresRequest(c.sys.kernel, m, d, Encode(c.driver.req));
    DecodeArrival(BoxView(c.sys.kernel, m).queue, c.driver.req);
  }

  lemma StuckStep(c: Clock, m: nat, d: nat, e: Move)
    requires Stuck(c, m, d) && Possible(c, m, d, e)
    ensures var t := Then(c, m, d, e);
      && Stuck(t, m, d) && BoxView(t.sys.kernel, m) == BoxView(c.sys.kernel, m)
      && t.tickCount == c.tickCount && t.woken == c.woken && t.driver == c.driver
  {
    hide Balanced, Marked, After, Execute, BoxOk, Encode;
    var a := ActionOf(c, m, d, e).value;
    AfterOk(c.sys, a);
    LogAfter(c.sys, a, m);
    ProcsAfter(c.sys, a, d);
    if e.Other? {
      ElsewhereIs(c.sys, a, m);
      BoxUntouched(c.sys, a, m);
    } else {
      Refines(c.sys.kernel, SliceOf(c.sys, a));
      var k, k' := c.sys.kernel, EffectOf(c.sys, a).kernel;
      assert View(k).boxes[m] == BoxView(k, m) && View(k').boxes[m] == BoxView(k', m);
    }
  }

  /** Nobody else receives there, so a stuck driver is stuck for good: no tick begins, and nobody is woken. */
  lemma {:induction false} StuckForGood(c: Clock, m: nat, d: nat, moves: seq<Move>)
    requires Stuck(c, m, d) && IsRunOf(c, m, d, moves)
    ensures var t := Finally(c, m, d, moves);
      && Stuck(t, m, d) && BoxView(t.sys.kernel, m) == BoxView(c.sys.kernel, m)
      && t.tickCount == c.tickCount && t.woken == c.woken && t.driver == c.driver
    decreases |moves|
  {
    hide Possible, Then, BoxView, SystemOk;
    if moves != [] {
      StuckStep(c, m, d, moves[0]);
      StuckForGood(Then(c, m, d, moves[0]), m, d, moves[1..]);
    }
  }

  /** phase4_start_service_processes: a clock mailbox that has just been created is roomy and empty. */
  lemma NewClock(s: System, a: Action, m: nat, numSlots: nat)
    requires SystemOk(s) && Enabled(s, a) && numSlots > 0
    requires a == Start(Creating(numSlots, REQ_SIZE)) && EffectOf(s, a).out == Created(m)
    requires forall p :: p in s.procs ==> s.procs[p].call.id != m
    ensures var c := Clock(After(s, a), 0, [], Waiting);
      Roomy(c, m) && State(c, m) == Sleepers([], 0, [], Waiting) && Capacity(c, m) == numSlots
  {
    hide Balanced, Marked, Execute, Logged, After;
    AfterOk(s, a);
    Refines(s.kernel, a.slice);
    LogAfter(s, a, m);
    CallsAfter(s, a, m);
    var k' := After(s, a).kernel;
    assert View(k').boxes[m] == BoxView(k', m);
  }
}
