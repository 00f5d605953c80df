/**
  Runs from boot in which something goes wrong, one for each way that the other modules
  give the exact condition of: two lost wake-ups through stale records of receivers, one
  through a short buffer, and an underflow of the slot pool.
 */
module BadRuns {
  import opened Wrappers
  import opened Mailboxes
  import opened SlotLedger
  import opened MailboxFifo
  import opened MailboxRuns
  import opened ProducerWakeups
  import opened CarefulRuns

  // --- following a script -------------------------------------------------------------------------

  /** A mailbox, as far as the runs below depend on it. */
  datatype Spot = Spot(box: Box, pointer: Option<nat>, senders: seq<int>, receivers: seq<int>)

  /** Reserved zero-slot mailboxes 0 and 1, mailboxes 6 and 7, and everything else that changes. */
  datatype Scene = Scene(
    zero: Spot,
    one: Spot,
    six: Spot,
    seven: Spot,
    free: nat,
    shadow: seq<int>,
    procs: map<nat, Proc>)

  const MEETING: Box := Box(true, 0, 0, [])
  const CLOSED: Spot := Spot(Box(false, 0, 0, []), None, [], [])
  const IDLE: Spot := Spot(MEETING, None, [], [])

  const UNUSED: seq<int> := [-1, -1, -1, -1, -1]

  const BOOTED: Scene := Scene(IDLE, IDLE, CLOSED, CLOSED, 2, UNUSED, map[])

  ghost predicate At(k: Kernel, m: nat, c: Spot)
    requires Shape(k)
  {
    && m < |k.boxes| && BoxView(k, m) == c.box && k.boxes[m].consumers == c.pointer
    && k.producers[m] == c.senders && k.consumers[m] == c.receivers
  }

  ghost predicate Shows(s: System, c: Scene) {
    && SystemOk(s) && |s.kernel.boxes| == 8 && (forall i :: 2 <= i < 6 ==> s.kernel.boxes[i].isActive)
    && At(s.kernel, 0, c.zero) && At(s.kernel, 1, c.one) && At(s.kernel, 6, c.six) && At(s.kernel, 7, c.seven)
    && |s.kernel.free| == c.free && s.kernel.shadow == c.shadow && |s.kernel.slots| == 2 && s.procs == c.procs
  }

  /** The action is possible, loses no message and no slot, and leads to the next scene. */
  ghost predicate Plays(s: System, a: Action, c: Scene) {
    && SystemOk(s) && Enabled(s, a) && !EffectOf(s, a).out.Fault? && !EffectOf(s, a).out.Truncated?
    && Shows(After(s, a), c)
  }

  ghost function Part(script: nat -> Action, i: nat, n: nat): (actions: seq<Action>)
    requires i <= n
    ensures |actions| == n - i && forall j :: 0 <= j < n - i ==> actions[j] == script(i + j)
    decreases n - i
  {
    if i == n then [] else [script(i)] + Part(script, i + 1, n)
  }

  ghost predicate Scripted(scene: nat -> Scene, script: nat -> Action, lo: nat, hi: nat) {
    forall s: System, i: nat :: lo <= i < hi && Shows(s, scene(i)) ==> Plays(s, script(i), scene(i + 1))
  }

  lemma {:induction false} Follow(s: System, scene: nat -> Scene, script: nat -> Action, i: nat, n: nat)
    requires i <= n && Shows(s, scene(i)) && Scripted(scene, script, i, n)
    ensures IsRun(s, Part(script, i, n)) && NothingLost(s, Part(script, i, n))
    ensures Shows(Run(s, Part(script, i, n)), scene(n))
    decreases n - i
  {
    if i < n {
      assert Plays(s, script(i), scene(i + 1));
      hide Enabled, After, At, Inv;
      Follow(After(s, script(i)), scene, script, i + 1, n);
    }
  }

  lemma BootScene(shadow: seq<int>)
    requires shadow != [] && forall i :: 0 <= i < |shadow| ==> shadow[i] == -1
    ensures SystemOk(Booted(8, 2, |shadow|))
    ensures Shows(Booted(8, 2, |shadow|), Scene(IDLE, IDLE, CLOSED, CLOSED, 2, shadow, map[]))
  {
    BootedOk(8, 2, |shadow|);
    hide SystemOk, Laws, Inv;
    var k := Booted(8, 2, |shadow|).kernel;
    assert forall m :: 0 <= m < 8 ==> k.producers[m] == [] && k.consumers[m] == [] && k.rings[m] == [];
    assert forall m :: 0 <= m < 8 ==> BoxView(k, m).queue == [];
  }

  /** A run from boot that follows a script to its last scene. */
  lemma Play(scene: nat -> Scene, script: nat -> Action, n: nat) returns (actions: seq<Action>)
    requires scene(0) == BOOTED && Scripted(scene, script, 0, n)
    ensures var s0 := Booted(8, 2, 5);
      SystemOk(s0) && IsRun(s0, actions) && NothingLost(s0, actions) && Shows(Run(s0, actions), scene(n))
    ensures actions == Part(script, 0, n)
  {
    actions := Part(script, 0, n);
    BootScene(UNUSED);
    hide Shows, Booted, NothingLost, IsRun, Run, SystemOk;
    Follow(Booted(8, 2, 5), scene, script, 0, n);
  }

  lemma ViewsOf(s: System, a: Action)
    requires SystemOk(s) && Enabled(s, a) && |s.kernel.boxes| == 8
    ensures |View(s.kernel).boxes| == 8 && forall m :: 0 <= m < 8 ==>
      View(s.kernel).boxes[m] == BoxView(s.kernel, m) && |BoxView(s.kernel, m).queue| == |s.kernel.rings[m]|
    ensures SystemOk(After(s, a)) && |After(s, a).kernel.boxes| == 8 && |After(s, a).kernel.slots| == |s.kernel.slots|
    ensures forall m :: 0 <= m < 8 ==> View(After(s, a).kernel).boxes[m] == BoxView(After(s, a).kernel, m)
    ensures After(s, a).kernel == EffectOf(s, a).kernel && Faithful(s.kernel, SliceOf(s, a))
  {
    hide Balanced, Marked, Execute, Next, Allowed;
    AfterOk(s, a);
    Refines(s.kernel, SliceOf(s, a));
    SameMailboxes(s.kernel, SliceOf(s, a));
  }

  // --- kinds of actions ----------------------------------------------------------------------------

  predicate InScene(m: nat) {
    m == 0 || m == 1 || m == 6 || m == 7
  }

  function SpotOf(c: Scene, m: nat): Spot
    requires InScene(m)
  {
    if m == 0 then c.zero else if m == 1 then c.one else if m == 6 then c.six else c.seven
  }

  function With(c: Scene, m: nat, p: Spot): Scene
    requires InScene(m)
  {
    if m == 0 then c.(zero := p) else if m == 1 then c.(one := p) else if m == 6 then c.(six := p) else c.(seven := p)
  }

  function Queued(p: Spot, queue: seq<Message>): Spot {
    p.(box := p.box.(queue := queue))
  }

  /** MboxCreate opens the first closed mailbox. */
  lemma Opens(s: System, c: Scene, d: Scene, numSlots: nat, slotSize: nat)
    requires Shows(s, c) && c.zero.box.isActive && c.one.box.isActive && numSlots <= 2 && slotSize <= MAX_MESSAGE
    requires var m := if c.six == CLOSED then 6 else 7;
      && (c.six.box.isActive || m == 6) && SpotOf(c, m) == CLOSED
      && d == With(c, m, Spot(Box(true, numSlots, slotSize, []), None, [], []))
    ensures Plays(s, Start(Creating(numSlots, slotSize)), d)
  {
    hide Balanced, Marked, BoxOk, Logged;
    ViewsOf(s, Start(Creating(numSlots, slotSize)));
  }

  lemma SendsWhole(data: Message)
    ensures Payload(Bytes(data), |data|) == data && FirstBytes(Bytes(data), |data|) == data
  {}

  /** A conditional send into a mailbox with room that no receiver has waited at. */
  lemma Stores(s: System, c: Scene, d: Scene, m: nat, data: Message)
    requires Shows(s, c) && 6 <= m <= 7 && c.free > 0
    requires var p := SpotOf(c, m);
      && p.box.isActive && p.pointer == None && |p.box.queue| < p.box.numSlots && |data| <= p.box.slotSize
      && d == With(c, m, Queued(p, p.box.queue + [data])).(free := c.free - 1)
    ensures Plays(s, Start(TrySending(m, Bytes(data), |data|)), d)
  {
    hide Balanced, Marked, BoxOk, Logged, Messages, SlotShape, Payload, FirstBytes;
    SendsWhole(data);
    ViewsOf(s, Start(TrySending(m, Bytes(data), |data|)));
    assert SendIsValid(s.kernel, m, Bytes(data), |data|) && |s.kernel.rings[m]| < s.kernel.boxes[m].numSlots;
  }

  /** An unconditional send into mailbox 6 with room. */
  lemma Sends(s: System, c: Scene, d: Scene, pid: nat, data: Message)
    requires Shows(s, c) && c.free > 0 && pid !in c.procs && |data| <= c.six.box.slotSize
    requires c.six.box.isActive && c.six.pointer == None && |c.six.box.queue| < c.six.box.numSlots
    requires d == c.(six := Queued(c.six, c.six.box.queue + [data]), free := c.free - 1)
    ensures Plays(s, Start(Sending(pid, 6, Bytes(data), |data|)), d)
  {
    hide Balanced, Marked, BoxOk, Logged, Messages, SlotShape, Payload, FirstBytes;
    SendsWhole(data);
    ViewsOf(s, Start(Sending(pid, 6, Bytes(data), |data|)));
    assert SendIsValid(s.kernel, 6, Bytes(data), |data|) && |s.kernel.rings[6]| < s.kernel.boxes[6].numSlots;
  }

  /** A send to the full mailbox 6. */
  lemma Waits(s: System, c: Scene, d: Scene, pid: nat, data: Message)
    requires Shows(s, c) && c.free > 0 && pid !in c.procs && |data| <= c.six.box.slotSize
    requires c.six.box.isActive && 0 < c.six.box.numSlots <= |c.six.box.queue| && |c.six.senders| < 2
      && pid !in c.six.senders
    requires d ==
      c.(six := c.six.(senders := c.six.senders + [pid]), procs := c.procs[pid := Proc(SendCall(6, data), false)])
    ensures Plays(s, Start(Sending(pid, 6, Bytes(data), |data|)), d)
  {
    hide Balanced, Marked, BoxOk, Logged, Messages, SlotShape, Payload, FirstBytes;
    SendsWhole(data);
    ViewsOf(s, Start(Sending(pid, 6, Bytes(data), |data|)));
  }

  lemma TakeWakes(k: Kernel, m: nat, max: nat)
    requires Shape(k) && m < |k.boxes| && k.rings[m] != [] && k.producers[m] != []
    requires |Content(k.slots[k.rings[m][0]])| <= max
    ensures var e := Take(k, m, max);
      && e.out.Delivered? && e.producersWoken == [k.producers[m][0]] && e.consumersWoken == []
      && e.kernel.boxes == k.boxes && e.kernel.shadow == k.shadow && e.kernel.consumers == k.consumers
      && e.kernel.producers == k.producers[m := k.producers[m][1..]]
  {}

  /** A receive that frees a slot of mailbox 6 and wakes its first recorded sender. */
  lemma Takes(s: System, c: Scene, d: Scene, max: nat)
    requires Shows(s, c) && c.six.box.isActive && c.six.box.queue != [] && |c.six.box.queue[0]| <= max
      && c.six.senders != []
    requires d == c.(six := Queued(c.six, c.six.box.queue[1..]).(senders := c.six.senders[1..]),
                     free := c.free + 1, procs := Unblock(c.procs, [c.six.senders[0]]))
    ensures Plays(s, Start(TryReceiving(6, max)), d)
  {
    hide Balanced, Marked, BoxOk, Logged, Take;
    ViewsOf(s, Start(TryReceiving(6, max)));
    TakeWakes(s.kernel, 6, max);
  }

  /** A woken sender finds room in mailbox 6. */
  lemma StoresLater(s: System, c: Scene, d: Scene, pid: nat, data: Message)
    requires Shows(s, c) && c.free > 0 && pid in c.procs && c.procs[pid] == Proc(SendCall(6, data), true)
    requires c.six.box.isActive && c.six.pointer == None && |c.six.box.queue| < c.six.box.numSlots
    requires d == c.(six := Queued(c.six, c.six.box.queue + [data]), free := c.free - 1, procs := c.procs - {pid})
    ensures Plays(s, Resume(pid), d)
  {
    hide Balanced, Marked, BoxOk, Logged, Messages, SlotShape;
    assert CallOk(s.kernel, s.procs[pid].call);
    ViewsOf(s, Resume(pid));
  }

  /** A woken sender finds mailbox 6 full again. */
  lemma WaitsAgain(s: System, c: Scene, d: Scene, pid: nat, data: Message)
    requires Shows(s, c) && pid in c.procs && c.procs[pid] == Proc(SendCall(6, data), true)
    requires c.six.box.isActive && 0 < c.six.box.numSlots <= |c.six.box.queue| && |c.six.senders| < 2
      && pid !in c.six.senders
    requires d ==
      c.(six := c.six.(senders := c.six.senders + [pid]), procs := c.procs[pid := Proc(SendCall(6, data), false)])
    ensures Plays(s, Resume(pid), d)
  {
    hide Balanced, Marked, BoxOk, Logged, Messages, SlotShape;
    assert CallOk(s.kernel, s.procs[pid].call);
    ViewsOf(s, Resume(pid));
  }

  /** A receive from an empty mailbox, with slots or without. */
  lemma Listens(s: System, c: Scene, d: Scene, pid: nat, m: nat, max: nat)
    requires Shows(s, c) && (m <= 1 || m == 6) && pid !in c.procs && |c.shadow| == 5
    requires var p := SpotOf(c, m);
      && p.box.isActive && p.box.queue == [] && p.senders == [] && |p.receivers| < 2
      && d == With(c, m, p.(pointer := Some(pid % 5), receivers := p.receivers + [pid])).(
           shadow := c.shadow[pid % 5 := pid],
           procs := c.procs[pid := Proc(if p.box.numSlots == 0 then MeetRecv(m) else RecvCall(m, max), false)])
    ensures Plays(s, Start(Receiving(pid, m, max)), d)
  {
    hide Balanced, Marked, BoxOk, Logged, Messages;
    ViewsOf(s, Start(Receiving(pid, m, max)));
  }

  /** A send to a zero-slot mailbox wakes the process that its pointer leads to. */
  lemma Meets(s: System, c: Scene, d: Scene, pid: nat, m: nat)
    requires Shows(s, c) && m <= 1 && pid !in c.procs && |c.shadow| == 5
    requires var p := SpotOf(c, m);
      && p.box == MEETING && p.pointer.Some? && p.pointer.value < 5
      && d == With(c, m, p.(pointer := None)).(procs := Unblock(c.procs, [c.shadow[p.pointer.value]]))
    ensures Plays(s, Start(Sending(pid, m, Null, 0)), d)
  {
    hide Balanced, Marked, BoxOk, Logged, Messages;
    ViewsOf(s, Start(Sending(pid, m, Null, 0)));
  }

  /** The receiver it wakes returns. */
  lemma HasMet(s: System, c: Scene, d: Scene, pid: nat, m: nat)
    requires Shows(s, c) && m <= 1 && SpotOf(c, m).box.isActive && pid in c.procs
      && c.procs[pid] == Proc(MeetRecv(m), true)
    requires d == c.(procs := c.procs - {pid})
    ensures Plays(s, Resume(pid), d)
  {
    hide Balanced, Marked, BoxOk, Logged, Messages;
    ViewsOf(s, Resume(pid));
  }
  // --- the mailbox of the runs below ---------------------------------------------------------------

  const BLOCKED: Proc := Proc(SendCall(6, []), false)
  const WOKEN: Proc := Proc(SendCall(6, []), true)

  /** Mailbox 6 with one slot for empty messages. */
  function Six(held: bool, senders: seq<int>): Spot {
    Spot(Box(true, 1, 0, if held then [[]] else []), None, senders, [])
  }

  /** Mailbox 6 is empty, a sender is recorded there, and no woken sender is on its way. */
  lemma NobodyChases(s: System, c: Scene)
    requires Shows(s, c) && c.six.box.isActive && c.six.box.numSlots > 0 && c.six.box.queue == [] && c.six.senders != []
    requires forall p :: p in c.procs ==> !c.procs[p].runnable
    ensures SystemOk(s) && |s.kernel.boxes| == 8 && s.kernel.producers[6] == c.six.senders && !NoLostWakeup(s, 6)
  {
    hide Balanced, Marked, BoxOk, Logged;
    assert InTransit(s.procs, 6) == {};
  }

  // --- a stale record, used by a release ----------------------------------------------------------

  function StaleScene(i: nat): Scene {
    var two := [-1, -1, 2, -1, -1];
    match i
    case 0 => BOOTED
    case 1 => Scene(IDLE, IDLE, Six(false, []), CLOSED, 2, UNUSED, map[])
    case 2 => Scene(Spot(MEETING, Some(2), [], [2]), IDLE, Six(false, []), CLOSED, 2, two,
      map[2 := Proc(MeetRecv(0), false)])
    case 3 => Scene(Spot(MEETING, None, [], [2]), IDLE, Six(false, []), CLOSED, 2, two,
      map[2 := Proc(MeetRecv(0), true)])
    case 4 => Scene(Spot(MEETING, None, [], [2]), IDLE, Six(false, []), CLOSED, 2, two, map[])
    case 5 => Scene(Spot(MEETING, None, [], [2]), IDLE, Six(true, []), CLOSED, 1, two, map[])
    case 6 => Scene(Spot(MEETING, None, [], [2]), IDLE, Six(true, [1]), CLOSED, 1, two, map[1 := BLOCKED])
    case 7 => Scene(Spot(MEETING, None, [], [2]), IDLE, Six(true, [1, 2]), CLOSED, 1, two,
      map[1 := BLOCKED, 2 := BLOCKED])
    case 8 => Scene(Spot(MEETING, None, [], [2]), IDLE, Six(false, [2]), CLOSED, 2, two, map[1 := WOKEN, 2 := BLOCKED])
    case 9 => Scene(CLOSED, IDLE, Six(false, [2]), CLOSED, 2, two, map[1 := WOKEN, 2 := WOKEN])
    case 10 => Scene(CLOSED, IDLE, Six(true, [2]), CLOSED, 1, two, map[1 := WOKEN])
    case 11 => Scene(CLOSED, IDLE, Six(true, [2, 1]), CLOSED, 1, two, map[1 := BLOCKED])
    case _ => Scene(CLOSED, IDLE, Six(false, [1]), CLOSED, 2, two, map[1 := BLOCKED])
  }

  function StaleScript(i: nat): Action {
    match i
    case 0 => Start(Creating(1, 0))
    case 1 => Start(Receiving(2, 0, 0))           // process 2 waits at mailbox 0
    case 2 => Start(Sending(3, 0, Null, 0))       // and is woken through the pointer
    case 3 => Resume(2)
    case 4 => Start(TrySending(6, Bytes([]), 0))
    case 5 => Start(Sending(1, 6, Bytes([]), 0))       // two senders wait at mailbox 6
    case 6 => Start(Sending(2, 6, Bytes([]), 0))
    case 7 => Start(TryReceiving(6, MAX_MESSAGE)) // the first is woken
    case 8 => Start(Releasing(0))                 // and so is the second, by the stale record
    case 9 => Resume(2)                           // which takes the slot and stays recorded
    case 10 => Resume(1)
    case _ => Start(TryReceiving(6, MAX_MESSAGE)) // wakes process 2, which has left
  }

  lemma Stale8(s: System, i: nat)
    requires i == 8 && Shows(s, StaleScene(i))
    ensures Plays(s, StaleScript(i), StaleScene(i + 1))
  {
    hide Balanced, Marked, BoxOk, Logged;
    ViewsOf(s, StaleScript(i));
  }

  lemma StaleStarts()
    ensures Scripted(StaleScene, StaleScript, 0, 6)
  {
    hide Plays, Shows;
    forall t: System, i: nat | 0 <= i < 6 && Shows(t, StaleScene(i))
      ensures Plays(t, StaleScript(i), StaleScene(i + 1))
    {
      var c, d := StaleScene(i), StaleScene(i + 1);
      match i {
        case 0 => Opens(t, c, d, 1, 0);
        case 1 => Listens(t, c, d, 2, 0, 0);
        case 2 => Meets(t, c, d, 3, 0);
        case 3 => HasMet(t, c, d, 2, 0);
        case 4 => Stores(t, c, d, 6, []);
        case _ => Waits(t, c, d, 1, []);
      }
    }
  }

  lemma StaleEnds()
    ensures Scripted(StaleScene, StaleScript, 6, 12)
  {
    hide Plays, Shows;
    forall t: System, i: nat | 6 <= i < 12 && Shows(t, StaleScene(i))
      ensures Plays(t, StaleScript(i), StaleScene(i + 1))
    {
      var c, d := StaleScene(i), StaleScene(i + 1);
      match i {
        case 6 => Waits(t, c, d, 2, []);
        case 7 => Takes(t, c, d, MAX_MESSAGE);
        case 8 => Stale8(t, i);
        case 9 => StoresLater(t, c, d, 2, []);
        case 10 => WaitsAgain(t, c, d, 1, []);
        case _ => Takes(t, c, d, MAX_MESSAGE);
      }
    }
  }

  lemma StalePlays()
    ensures Scripted(StaleScene, StaleScript, 0, 12) && StaleScene(0) == BOOTED
  {
    StaleStarts();
    StaleEnds();
    hide Plays, Shows, StaleScript;
  }

  lemma StaleEnd(s: System)
    requires Shows(s, StaleScene(12))
    ensures SystemOk(s) && |s.kernel.boxes| == 8 && s.kernel.producers[6] == [1] && !NoLostWakeup(s, 6)
  {
    hide Balanced, Marked, BoxOk, NoLostWakeup;
    NobodyChases(s, StaleScene(12));
  }

  /**
    From boot, with 2 slots and 5 processes at most: process 1 waits at an empty mailbox and nobody
    will wake it. No message was cut off and the pool did not underflow.
   */
  lemma AWakeupIsLost() returns (actions: seq<Action>)
    ensures SystemOk(Booted(8, 2, 5)) && IsRun(Booted(8, 2, 5), actions) && NothingLost(Booted(8, 2, 5), actions)
    ensures var s := Run(Booted(8, 2, 5), actions);
      SystemOk(s) && |s.kernel.boxes| == 8 && s.kernel.producers[6] == [1] && !NoLostWakeup(s, 6)
  {
    hide IsRun, Run, NothingLost, SystemOk, Shows, Booted, NoLostWakeup, Part, Enabled, EffectOf, After, Scripted,
      StaleScene, StaleScript;
    StalePlays();
    actions := Play(StaleScene, StaleScript, 12);
    StaleEnd(Run(Booted(8, 2, 5), actions));
  }

  // --- an overwritten shadow process, with no release ----------------------------------------------

  function SharedScene(i: nat): Scene {
    var meets, one, both := Proc(MeetRecv(0), false), [-1, 1, -1, -1, -1], [-1, 6, -1, -1, -1];
    var waits, left := Spot(MEETING, Some(1), [], [1]), Spot(MEETING, None, [], [6]);
    match i
    case 0 => BOOTED
    case 1 => Scene(IDLE, IDLE, Six(false, []), CLOSED, 2, UNUSED, map[])
    case 2 => Scene(waits, IDLE, Six(false, []), CLOSED, 2, one, map[1 := meets])
    case 3 => Scene(waits, Spot(MEETING, Some(1), [], [6]), Six(false, []), CLOSED, 2, both,
      map[1 := meets, 6 := Proc(MeetRecv(1), false)])
    case 4 => Scene(waits, left, Six(false, []), CLOSED, 2, both, map[1 := meets, 6 := Proc(MeetRecv(1), true)])
    case 5 => Scene(waits, left, Six(false, []), CLOSED, 2, both, map[1 := meets])
    case 6 => Scene(waits, left, Six(true, []), CLOSED, 1, both, map[1 := meets])
    case 7 => Scene(waits, left, Six(true, [4]), CLOSED, 1, both, map[1 := meets, 4 := BLOCKED])
    case 8 => Scene(waits, left, Six(true, [4, 6]), CLOSED, 1, both, map[1 := meets, 4 := BLOCKED, 6 := BLOCKED])
    case 9 => Scene(waits, left, Six(false, [6]), CLOSED, 2, both, map[1 := meets, 4 := WOKEN, 6 := BLOCKED])
    case 10 => Scene(Spot(MEETING, None, [], [1]), left, Six(false, [6]), CLOSED, 2, both,
      map[1 := meets, 4 := WOKEN, 6 := WOKEN])
    case 11 => Scene(Spot(MEETING, None, [], [1]), left, Six(true, [6]), CLOSED, 1, both, map[1 := meets, 4 := WOKEN])
    case 12 => Scene(Spot(MEETING, None, [], [1]), left, Six(true, [6, 4]), CLOSED, 1, both,
      map[1 := meets, 4 := BLOCKED])
    case _ => Scene(Spot(MEETING, None, [], [1]), left, Six(false, [4]), CLOSED, 2, both, map[1 := meets, 4 := BLOCKED])
  }

  function SharedScript(i: nat): Action {
    match i
    case 0 => Start(Creating(1, 0))
    case 1 => Start(Receiving(1, 0, 0))           // mailbox 0 points at the shadow process of 1
    case 2 => Start(Receiving(6, 1, 0))           // which is that of 6 too
    case 3 => Start(Sending(2, 1, Null, 0))
    case 4 => Resume(6)
    case 5 => Start(TrySending(6, Bytes([]), 0))
    case 6 => Start(Sending(4, 6, Bytes([]), 0))       // two senders wait at mailbox 6
    case 7 => Start(Sending(6, 6, Bytes([]), 0))
    case 8 => Start(TryReceiving(6, MAX_MESSAGE)) // the first is woken
    case 9 => Start(Sending(2, 0, Null, 0))       // and so is the second, instead of process 1
    case 10 => Resume(6)                          // which takes the slot and stays recorded
    case 11 => Resume(4)
    case _ => Start(TryReceiving(6, MAX_MESSAGE)) // wakes process 6, which has left
  }

  lemma SharedStarts()
    ensures Scripted(SharedScene, SharedScript, 0, 5)
  {
    hide Plays, Shows;
    forall t: System, i: nat | 0 <= i < 5 && Shows(t, SharedScene(i))
      ensures Plays(t, SharedScript(i), SharedScene(i + 1))
    {
      var c, d := SharedScene(i), SharedScene(i + 1);
      match i {
        case 0 => Opens(t, c, d, 1, 0);
        case 1 => Listens(t, c, d, 1, 0, 0);
        case 2 => Listens(t, c, d, 6, 1, 0);
        case 3 => Meets(t, c, d, 2, 1);
        case _ => HasMet(t, c, d, 6, 1);
      }
    }
  }

  lemma SharedGoesOn()
    ensures Scripted(SharedScene, SharedScript, 5, 9)
  {
    hide Plays, Shows;
    forall t: System, i: nat | 5 <= i < 9 && Shows(t, SharedScene(i))
      ensures Plays(t, SharedScript(i), SharedScene(i + 1))
    {
      var c, d := SharedScene(i), SharedScene(i + 1);
      match i {
        case 5 => Stores(t, c, d, 6, []);
        case 6 => Waits(t, c, d, 4, []);
        case 7 => Waits(t, c, d, 6, []);
        case _ => Takes(t, c, d, MAX_MESSAGE);
      }
    }
  }

  lemma SharedEnds()
    ensures Scripted(SharedScene, SharedScript, 9, 13)
  {
    hide Plays, Shows;
    forall t: System, i: nat | 9 <= i < 13 && Shows(t, SharedScene(i))
      ensures Plays(t, SharedScript(i), SharedScene(i + 1))
    {
      var c, d := SharedScene(i), SharedScene(i + 1);
      match i {
        case 9 => Meets(t, c, d, 2, 0);
        case 10 => StoresLater(t, c, d, 6, []);
        case 11 => WaitsAgain(t, c, d, 4, []);
        case _ => Takes(t, c, d, MAX_MESSAGE);
      }
    }
  }

  lemma SharedPlays()
    ensures Scripted(SharedScene, SharedScript, 0, 13) && SharedScene(0) == BOOTED
  {
    SharedStarts();
    SharedGoesOn();
    SharedEnds();
    hide Plays, Shows, SharedScript;
  }

  lemma SharedEnd(s: System)
    requires Shows(s, SharedScene(13))
    ensures SystemOk(s) && |s.kernel.boxes| == 8 && s.kernel.producers[6] == [4] && !NoLostWakeup(s, 6)
  {
    hide Balanced, Marked, BoxOk, NoLostWakeup;
    NobodyChases(s, SharedScene(13));
  }

  /** The same with no release: process 4 waits, and process 6, whose shadow is that of process 1, was woken for it. */
  lemma AWakeupGoesAstray() returns (actions: seq<Action>)
    ensures SystemOk(Booted(8, 2, 5)) && IsRun(Booted(8, 2, 5), actions) && NothingLost(Booted(8, 2, 5), actions)
    ensures forall i :: 0 <= i < |actions| && actions[i].Start? ==> !actions[i].slice.Releasing?
    ensures var s := Run(Booted(8, 2, 5), actions);
      SystemOk(s) && |s.kernel.boxes| == 8 && s.kernel.producers[6] == [4] && !NoLostWakeup(s, 6)
  {
    hide IsRun, Run, NothingLost, SystemOk, Shows, Booted, NoLostWakeup, Part, Enabled, EffectOf, After, Scripted,
      SharedScene, SharedScript;
    SharedPlays();
    actions := Play(SharedScene, SharedScript, 13);
    SharedEnd(Run(Booted(8, 2, 5), actions));
    NoReleases(actions);
  }

  lemma NoReleases(actions: seq<Action>)
    requires actions == Part(SharedScript, 0, 13)
    ensures forall i :: 0 <= i < |actions| && actions[i].Start? ==> !actions[i].slice.Releasing?
  {
    hide Part;
    assert forall i: nat :: SharedScript(i).Start? ==> !SharedScript(i).slice.Releasing?;
  }

  // --- a short buffer ---------------------------------------------------------------------------------

  const SEVEN: Message := [7]

  function ShortScene(i: nat): Scene {
    match i
    case 0 => BOOTED
    case 1 => Scene(IDLE, IDLE, Spot(Box(true, 1, 1, []), None, [], []), CLOSED, 2, UNUSED, map[])
    case 2 => Scene(IDLE, IDLE, Spot(Box(true, 1, 1, [SEVEN]), None, [], []), CLOSED, 1, UNUSED, map[])
    case _ => Scene(IDLE, IDLE, Spot(Box(true, 1, 1, [SEVEN]), None, [1], []), CLOSED, 1, UNUSED, map[1 := BLOCKED])
  }

  function ShortScript(i: nat): Action {
    match i
    case 0 => Start(Creating(1, 1))
    case 1 => Start(TrySending(6, Bytes(SEVEN), 1))
    case _ => Start(Sending(1, 6, Bytes([]), 0))
  }

  lemma ShortPlays()
    ensures Scripted(ShortScene, ShortScript, 0, 3) && ShortScene(0) == BOOTED
  {
    hide Plays, Shows;
    forall t: System, i: nat | i < 3 && Shows(t, ShortScene(i)) ensures Plays(t, ShortScript(i), ShortScene(i + 1)) {
      var c, d := ShortScene(i), ShortScene(i + 1);
      match i {
        case 0 => Opens(t, c, d, 1, 1);
        case 1 => Stores(t, c, d, 6, SEVEN);
        case _ => Waits(t, c, d, 1, []);
      }
    }
  }

  /** A receive into a buffer of no bytes empties a one-slot mailbox and leaves its sender waiting. */
  lemma AShortBufferLosesOne() returns (actions: seq<Action>)
    ensures SystemOk(Booted(8, 2, 5)) && IsRun(Booted(8, 2, 5), actions) && NothingLost(Booted(8, 2, 5), actions)
    ensures var s, a := Run(Booted(8, 2, 5), actions), Start(TryReceiving(6, 0));
      && SystemOk(s) && Enabled(s, a) && EffectOf(s, a).out == Truncated([7])
      && SystemOk(After(s, a)) && |After(s, a).kernel.boxes| == 8 && !NoLostWakeup(After(s, a), 6)
  {
    hide IsRun, Run, NothingLost, SystemOk, Shows, Booted, NoLostWakeup, Part, Enabled, EffectOf, After, Scripted,
      ShortScene, ShortScript;
    ShortPlays();
    actions := Play(ShortScene, ShortScript, 3);
    var s := Run(Booted(8, 2, 5), actions);
    ShortEnd(s);
  }

  lemma ShortEnd(s: System)
    requires Shows(s, ShortScene(3))
    ensures var a := Start(TryReceiving(6, 0));
      && SystemOk(s) && Enabled(s, a) && EffectOf(s, a).out == Truncated([7])
      && SystemOk(After(s, a)) && |After(s, a).kernel.boxes| == 8 && !NoLostWakeup(After(s, a), 6)
  {
    hide Balanced, Marked, BoxOk, Logged;
    ViewsOf(s, Start(TryReceiving(6, 0)));
    assert InTransit(After(s, Start(TryReceiving(6, 0))).procs, 6) == {};
  }

  // --- an underflow --------------------------------------------------------------------------------------

  function DrainedScene(i: nat): Scene {
    match i
    case 0 => BOOTED
    case 1 => Scene(IDLE, IDLE, Six(false, []), CLOSED, 2, UNUSED, map[])
    case 2 => Scene(IDLE, IDLE, Six(true, []), CLOSED, 1, UNUSED, map[])
    case 3 => Scene(IDLE, IDLE, Six(true, [1]), CLOSED, 1, UNUSED, map[1 := BLOCKED])
    case 4 => Scene(IDLE, IDLE, Six(true, [1]), Spot(Box(true, 2, 0, []), None, [], []), 1, UNUSED, map[1 := BLOCKED])
    case 5 => Scene(IDLE, IDLE, Six(true, [1]), Spot(Box(true, 2, 0, [[]]), None, [], []), 0, UNUSED, map[1 := BLOCKED])
    case 6 => Scene(IDLE, IDLE, Six(false, []), Spot(Box(true, 2, 0, [[]]), None, [], []), 1, UNUSED, map[1 := WOKEN])
    case _ => Scene(IDLE, IDLE, Six(false, []), Spot(Box(true, 2, 0, [[], []]), None, [], []), 0, UNUSED,
      map[1 := WOKEN])
  }

  function DrainedScript(i: nat): Action {
    match i
    case 0 => Start(Creating(1, 0))
    case 1 => Start(TrySending(6, Bytes([]), 0))
    case 2 => Start(Sending(1, 6, Bytes([]), 0))       // the pool is not empty, so process 1 waits for room
    case 3 => Start(Creating(2, 0))
    case 4 => Start(TrySending(7, Bytes([]), 0))
    case 5 => Start(TryReceiving(6, MAX_MESSAGE)) // there is room, and a free slot
    case _ => Start(TrySending(7, Bytes([]), 0))       // which goes to another mailbox
  }

  lemma DrainedPlays()
    ensures Scripted(DrainedScene, DrainedScript, 0, 7) && DrainedScene(0) == BOOTED
  {
    hide Plays, Shows;
    forall t: System, i: nat | i < 7 && Shows(t, DrainedScene(i))
      ensures Plays(t, DrainedScript(i), DrainedScene(i + 1))
    {
      var c, d := DrainedScene(i), DrainedScene(i + 1);
      match i {
        case 0 => Opens(t, c, d, 1, 0);
        case 1 => Stores(t, c, d, 6, []);
        case 2 => Waits(t, c, d, 1, []);
        case 3 => Opens(t, c, d, 2, 0);
        case 4 => Stores(t, c, d, 7, []);
        case 5 => Takes(t, c, d, MAX_MESSAGE);
        case _ => Stores(t, c, d, 7, []);
      }
    }
  }

  /** A sender resumes in an open mailbox with room and finds the pool empty. */
  lemma AnUnderflow() returns (actions: seq<Action>)
    ensures SystemOk(Booted(8, 2, 5)) && IsRun(Booted(8, 2, 5), actions) && NothingLost(Booted(8, 2, 5), actions)
    ensures var s := Run(Booted(8, 2, 5), actions);
      SystemOk(s) && Enabled(s, Resume(1)) && EffectOf(s, Resume(1)).out == Fault
  {
    hide IsRun, Run, NothingLost, SystemOk, Shows, Booted, NoLostWakeup, Part, Enabled, EffectOf, After, Scripted,
      DrainedScene, DrainedScript;
    DrainedPlays();
    actions := Play(DrainedScene, DrainedScript, 7);
    var s := Run(Booted(8, 2, 5), actions);
    DrainedEnd(s);
  }

  lemma DrainedEnd(s: System)
    requires Shows(s, DrainedScene(7))
    ensures SystemOk(s) && Enabled(s, Resume(1)) && EffectOf(s, Resume(1)).out == Fault
  {
    hide Balanced, Marked, BoxOk, Logged;
    ViewsOf(s, Resume(1));
  }

  // --- a reader that is woken for nothing ------------------------------------------------------------

  const LINE: Message := [10, 0]

  /** A line mailbox, as large as the pool. */
  function Lines(queue: seq<Message>, pointer: Option<nat>, readers: seq<int>): Spot {
    Spot(Box(true, 2, 81, queue), pointer, [], readers)
  }

  function SnatchedScene(i: nat): Scene {
    var waits, woken := Proc(RecvCall(6, 81), false), Proc(RecvCall(6, 81), true);
    match i
    case 0 => BOOTED
    case 1 => Scene(IDLE, IDLE, Lines([], None, []), CLOSED, 2, UNUSED, map[])
    case 2 => Scene(IDLE, IDLE, Lines([], Some(1), [1]), CLOSED, 2, [-1, 1, -1, -1, -1], map[1 := waits])
    case 3 => Scene(IDLE, IDLE, Lines([LINE], Some(1), []), CLOSED, 1, [-1, 1, -1, -1, -1], map[1 := woken])
    case _ => Scene(IDLE, IDLE, Lines([], Some(1), []), CLOSED, 2, [-1, 1, -1, -1, -1], map[1 := woken])
  }

  function SnatchedScript(i: nat): Action {
    match i
    case 0 => Start(Creating(2, 81))
    case 1 => Start(Receiving(1, 6, 81))              // reader 1 waits
    case 2 => Start(TrySending(6, Bytes(LINE), 2))    // a line wakes it
    case _ => Start(Receiving(2, 6, 81))              // reader 2 comes first
  }

  lemma Snatched2(s: System, i: nat)
    requires i == 2 && Shows(s, SnatchedScene(i))
    ensures Plays(s, SnatchedScript(i), SnatchedScene(i + 1))
  {
    hide Balanced, Marked, BoxOk, Logged;
    assert LINE[..2] == LINE;
    ViewsOf(s, SnatchedScript(i));
  }

  lemma Snatched3(s: System, i: nat)
    requires i == 3 && Shows(s, SnatchedScene(i))
    ensures Plays(s, SnatchedScript(i), SnatchedScene(i + 1))
  {
    hide Balanced, Marked, BoxOk, Logged;
    ViewsOf(s, SnatchedScript(i));
  }

  lemma SnatchedPlays()
    ensures Scripted(SnatchedScene, SnatchedScript, 0, 4) && SnatchedScene(0) == BOOTED
  {
    hide Plays, Shows;
    forall t: System, i: nat | i < 4 && Shows(t, SnatchedScene(i))
      ensures Plays(t, SnatchedScript(i), SnatchedScene(i + 1))
    {
      var c, d := SnatchedScene(i), SnatchedScene(i + 1);
      match i {
        case 0 => Opens(t, c, d, 2, 81);
        case 1 => Listens(t, c, d, 1, 6, 81);
        case 2 => Snatched2(t, i);
        case _ => Snatched3(t, i);
      }
    }
  }

  /** A reader resumes in an open mailbox and gets -1, because another reader took the line it was woken for. */
  lemma AReaderFails() returns (actions: seq<Action>)
    ensures SystemOk(Booted(8, 2, 5)) && IsRun(Booted(8, 2, 5), actions) && NothingLost(Booted(8, 2, 5), actions)
    ensures var s := Run(Booted(8, 2, 5), actions);
      SystemOk(s) && Enabled(s, Resume(1)) && EffectOf(s, Resume(1)).out == Error && IsOpen(s.kernel, 6)
  {
    hide IsRun, Run, NothingLost, SystemOk, Shows, Booted, Part, Enabled, EffectOf, After, Scripted, SnatchedScene,
      SnatchedScript;
    SnatchedPlays();
    actions := Play(SnatchedScene, SnatchedScript, 4);
    SnatchedEnd(Run(Booted(8, 2, 5), actions));
  }

  lemma SnatchedEnd(s: System)
    requires Shows(s, SnatchedScene(4))
    ensures SystemOk(s) && Enabled(s, Resume(1)) && EffectOf(s, Resume(1)).out == Error && IsOpen(s.kernel, 6)
  {
    hide Balanced, Marked, BoxOk, Logged;
    ViewsOf(s, Resume(1));
  }
}
