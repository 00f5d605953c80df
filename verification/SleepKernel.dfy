/** The clock driver and Sleep on the mailbox kernel, in place. */
module SleepKernel {
  import opened Wrappers
  import opened Mailboxes
  import opened SlotLedger
  import opened MailboxFifo
  import opened MailboxKernel
  import opened SleepQueue

  // --- a request as the bytes of a struct of two ints ----------------------------------------

  const WORD: nat := 0x1_0000_0000
  const REQ_SIZE: nat := 8

  predicate IsInt(x: int) {
    -0x8000_0000 <= x < 0x8000_0000
  }

  /** The value of a 32-bit int after x is stored in it. */
  function Wrapped(x: int): (y: int)
    ensures IsInt(y) && (IsInt(x) ==> y == x)
  {
    var u := x % WORD;
    if u < 0x8000_0000 then u else u - WORD
  }

  function IntBytes(x: int): (b: Message)
    ensures |b| == 4
  {
    var u := x % WORD;
    [(u % 256) as byte, (u / 256 % 256) as byte, (u / 256 / 256 % 256) as byte, (u / 256 / 256 / 256) as byte]
  }

  function BytesInt(b: Message): int
    requires |b| == 4
  {
    Wrapped(b[0] as int + 256 * (b[1] as int + 256 * (b[2] as int + 256 * b[3] as int)))
  }

  function Encode(req: SleepReq): (data: Message)
    ensures |data| == REQ_SIZE
  {
    IntBytes(req.pid) + IntBytes(req.wakeupTick)
  }

  predicate InRange(req: SleepReq) {
    IsInt(req.pid) && IsInt(req.wakeupTick)
  }

  function Decode(data: Message): (req: SleepReq)
    requires |data| == REQ_SIZE
    ensures InRange(req)
  {
    SleepReq(BytesInt(data[..4]), BytesInt(data[4..]))
  }

  lemma IntRoundTrip(x: int)
    ensures BytesInt(IntBytes(x)) == Wrapped(x)
  {
    var u := x % WORD;
    var b1, b2 := u / 256, u / 256 / 256;
    assert u == u % 256 + 256 * b1 && b1 == b1 % 256 + 256 * b2 && b2 == b2 % 256 + 256 * (b2 / 256);
  }

  /** What is stored is what was asked for, if it fits the struct. */
  lemma RoundTrip(req: SleepReq)
    ensures Decode(Encode(req)) == SleepReq(Wrapped(req.pid), Wrapped(req.wakeupTick))
    ensures InRange(req) ==> Decode(Encode(req)) == req
  {
    IntRoundTrip(req.pid);
    IntRoundTrip(req.wakeupTick);
    assert Encode(req)[..4] == IntBytes(req.pid) && Encode(req)[4..] == IntBytes(req.wakeupTick);
  }

  // --- the clock mailbox ------------------------------------------------------------------------

  /** The driver's mailbox: open, with slots, and every message in it is a request. */
  ghost predicate IsClock(k: Kernel, id: nat) {
    && Inv(k) && id < |k.boxes| && k.boxes[id].isActive && k.boxes[id].numSlots > 0 && k.boxes[id].slotSize == REQ_SIZE
    && AreRequests(BoxView(k, id).queue)
  }

  ghost predicate AreRequests(queue: seq<Message>) {
    forall i :: 0 <= i < |queue| ==> |queue[i]| == REQ_SIZE
  }

  ghost function DecodeAll(queue: seq<Message>): (reqs: seq<SleepReq>)
    requires AreRequests(queue)
    ensures |reqs| == |queue|
  {
    seq(|queue|, i requires 0 <= i < |queue| => Decode(queue[i]))
  }

  lemma DecodeStored(queue: seq<Message>)
    requires AreRequests(queue)
    ensures queue == [] ==> DecodeAll(queue) == []
    ensures queue != [] ==>
      |queue[0]| == REQ_SIZE && AreRequests(queue[1..])
        && DecodeAll(queue) == [Decode(queue[0])] + DecodeAll(queue[1..])
  {}

  /** What any slice about the clock mailbox does to it. */
  lemma ClockBox(k: Kernel, slice: Slice, id: nat)
    requires IsClock(k, id) && Runnable(k, slice)
    requires slice == TryReceiving(id, REQ_SIZE) || ((slice.Sending? || slice.SendResuming?) && slice.id == id)
    ensures var e := Execute(k, slice);
      && Faithful(k, slice) && |e.kernel.boxes| == |k.boxes|
      && View(k).boxes[id] == BoxView(k, id) && View(k).free == |k.free|
      && View(e.kernel).boxes[id] == BoxView(e.kernel, id)
      && e.kernel.boxes[id].numSlots == k.boxes[id].numSlots
  {
    hide Balanced, Marked, Execute;
    Refines(k, slice);
    assert |View(k).boxes| == |k.boxes| && |View(Execute(k, slice).kernel).boxes| == |Execute(k, slice).kernel.boxes|;
  }

  /** The driver's receive takes the oldest request, whole. */
  lemma TakesOldest(k: Kernel, id: nat)
    requires IsClock(k, id)
    ensures var e, queue := CondRecv(k, id, REQ_SIZE), BoxView(k, id).queue;
      && IsClock(e.kernel, id) && e.kernel.boxes[id].numSlots == k.boxes[id].numSlots
      && (queue == [] ==> e.out == WouldBlock && e.kernel == k)
      && (queue != [] ==>
        && e.out == Delivered(queue[0]) && BoxView(e.kernel, id).queue == queue[1..] && e.kernel.free != []
        && |queue| <= k.boxes[id].numSlots)
  {
    hide Balanced, Marked;
    ClockBox(k, TryReceiving(id, REQ_SIZE), id);
  }

  /** A send of a request: stored if the pool has a slot and the mailbox has room. */
  lemma StoresRequest(k: Kernel, id: nat, pid: nat, data: Message)
    requires IsClock(k, id) && |data| == REQ_SIZE
    ensures var e, queue := SendEnter(k, pid, id, Bytes(data), |data|), BoxView(k, id).queue;
      && IsClock(e.kernel, id) && e.kernel.boxes[id].numSlots == k.boxes[id].numSlots
      && (e.out == Accepted <==> k.free != [] && |queue| < k.boxes[id].numSlots)
      && (e.out == WouldBlock <==> k.free == []) && (e.out == Accepted || e.out == WouldBlock || e.out.Blocked?)
      && (e.out.Blocked? <==> k.free != [] && |queue| >= k.boxes[id].numSlots)
      && BoxView(e.kernel, id).queue == if e.out == Accepted then queue + [data] else queue
  {
    hide Balanced, Marked;
    ClockBox(k, Sending(pid, id, Bytes(data), |data|), id);
    assert Payload(Bytes(data), |data|) == data;
  }

  /** A sleeper that waited for room tries again. */
  lemma ResumesStore(k: Kernel, id: nat, pid: nat, data: Message)
    requires IsClock(k, id) && |data| == REQ_SIZE
    ensures var e, queue := SlotSendResume(k, pid, id, data), BoxView(k, id).queue;
      && IsClock(e.kernel, id) && e.kernel.boxes[id].numSlots == k.boxes[id].numSlots
      && (e.out == Accepted <==> k.free != [] && |queue| < k.boxes[id].numSlots)
      && (e.out == Fault <==> k.free == [] && |queue| < k.boxes[id].numSlots)
      && (e.out.Blocked? <==> |queue| >= k.boxes[id].numSlots)
      && BoxView(e.kernel, id).queue == if e.out == Accepted then queue + [data] else queue
  {
    hide Balanced, Marked;
    ClockBox(k, SendResuming(pid, id, data), id);
  }

  // --- the driver and the handler -------------------------------------------------------------------

  class ClockDriver {
    const kernel: MailKernel
    const clockMbox: nat
    const driverPid: nat
    const ticksPerSec: nat
    var tickCount: int
    var woken: seq<Wake>
    var driver: Driver

    ghost predicate HasClock()
      reads kernel, kernel.Arrays()
    {
      kernel.Valid() && IsClock(kernel.Snap(), clockMbox)
    }

    ghost predicate Valid()
      reads this, kernel, kernel.Arrays()
    {
      HasClock() && (driver.Holding? ==> InRange(driver.req))
    }

    ghost function Stored(): (queue: seq<Message>)
      requires HasClock()
      reads kernel, kernel.Arrays()
      ensures AreRequests(queue)
    {
      BoxView(kernel.Snap(), clockMbox).queue
    }

    ghost function State(): Sleepers
      requires HasClock()
      reads this, kernel, kernel.Arrays()
    {
      Sleepers(DecodeAll(Stored()), tickCount, woken, driver)
    }

    /** The kernel would store one more request at once. */
    ghost predicate HasRoom()
      requires HasClock()
      reads kernel, kernel.Arrays()
    {
      kernel.freeSlotCount > 0 && |Stored()| < kernel.mailboxes[clockMbox].numSlots
    }

    /** phase4_start_service_processes, with a clock mailbox that has just been created. */
    constructor (kernel: MailKernel, clockMbox: nat, driverPid: nat, ticksPerSec: nat)
      requires kernel.Valid() && IsClock(kernel.Snap(), clockMbox) && BoxView(kernel.Snap(), clockMbox).queue == []
      ensures Valid() && this.kernel == kernel && this.clockMbox == clockMbox && State() == Sleepers([], 0, [], Waiting)
    {
      this.kernel, this.clockMbox, this.driverPid, this.ticksPerSec := kernel, clockMbox, driverPid, ticksPerSec;
      tickCount, woken, driver := 0, [], Waiting;
    }

    /** MboxCondRecv on the clock mailbox. */
    method Receive() returns (out: Outcome)
      requires HasClock()
      modifies kernel, kernel.Arrays()
      ensures HasClock()
      ensures old(Stored()) == [] ==> out == WouldBlock && Stored() == []
      ensures old(Stored()) != [] ==> out == Delivered(old(Stored())[0]) && Stored() == old(Stored())[1..] && HasRoom()
    {
      hide Balanced, Marked, Inv, CondRecv;
      TakesOldest(kernel.Snap(), clockMbox);
      out := kernel.MboxCondRecv(clockMbox, REQ_SIZE);
    }

    /** MboxSend on the clock mailbox, up to its return or its blockMe. */
    method Send(pid: nat, data: Message) returns (out: Outcome)
      requires HasClock() && |data| == REQ_SIZE
      modifies kernel, kernel.Arrays()
      ensures HasClock() && (out == Accepted <==> old(HasRoom()))
        && (out == WouldBlock <==> old(kernel.freeSlotCount) == 0)
      ensures out == Accepted || out == WouldBlock || out.Blocked?
      ensures Stored() == if out == Accepted then old(Stored()) + [data] else old(Stored())
    {
      hide Balanced, Marked, Inv, SendEnter;
      StoresRequest(kernel.Snap(), clockMbox, pid, data);
      out := kernel.MboxSend(pid, clockMbox, Bytes(data), |data|);
    }

    /** MboxSend on the clock mailbox, from its blockMe on. */
    method SendResume(pid: nat, data: Message) returns (out: Outcome)
      requires HasClock() && |data| == REQ_SIZE
      modifies kernel, kernel.Arrays()
      ensures HasClock() && (out == Accepted <==> old(HasRoom()))
      ensures out.Blocked? <==> |old(Stored())| >= old(kernel.mailboxes[clockMbox].numSlots)
      ensures Stored() == if out == Accepted then old(Stored()) + [data] else old(Stored())
    {
      hide Balanced, Marked, Inv, SlotSendResume;
      ResumesStore(kernel.Snap(), clockMbox, pid, data);
      out := kernel.MboxSendResume(pid, clockMbox, data);
    }

    /** waitDevice returns. */
    method BeginTick()
      requires Valid() && driver.Waiting?
      modifies this
      ensures Valid() && State() == Step(old(State()), Event.BeginTick)
      ensures tickCount == old(tickCount) + 1 && driver.Scanning? && woken == old(woken)
    {
      tickCount, driver := tickCount + 1, Scanning;
    }

    /**
      The receive of the inner loop: the oldest request leaves the mailbox. Its process is
      woken if it is due; if not, the driver holds it, and the kernel has room for it.
     */
    method TakeNext()
      requires Valid() && driver.Scanning?
      modifies this, kernel, kernel.Arrays()
      ensures Valid() && State() == Step(old(State()), Take)
      ensures var queue, now := old(State()).queue, old(tickCount);
        && tickCount == now && State().queue == (if queue == [] then [] else queue[1..])
        && (driver.Scanning? <==> queue != [] && queue[0].wakeupTick <= now)
        && (driver.Holding? <==> queue != [] && queue[0].wakeupTick > now)
        && (driver.Holding? ==> driver.req == queue[0] && HasRoom())
        && woken == old(woken) + (if driver.Scanning? then [Wake(queue[0], now)] else [])
    {
      hide Inv, IsClock, DecodeAll, MailKernel.Wired, MailKernel.Valid, MailKernel.Snap, HasClock, Stored, HasRoom;
      DecodeStored(Stored());
      var out := Receive();
      if out.Delivered? {
        var req := Decode(out.data);
        if req.wakeupTick <= tickCount {
          woken := woken + [Wake(req, tickCount)];
        } else {
          driver := Holding(req);
        }
      } else {
        driver := Waiting;
      }
    }

    /**
      The send of the inner loop, up to its return or its blockMe. The request goes back exactly
      if the kernel has room by now; with an empty pool it is gone, and with a full mailbox the
      driver is in blockMe with it.
     */
    method PutBack() returns (out: Outcome)
      requires Valid() && driver.Holding?
      modifies this, kernel, kernel.Arrays()
      ensures Valid() && (out == Accepted <==> old(HasRoom()))
        && (out == WouldBlock <==> old(kernel.freeSlotCount) == 0)
      ensures out == Accepted || out == WouldBlock || out.Blocked?
      ensures State() ==
        if out == Accepted then Step(old(State()), Event.PutBack)
        else if out == WouldBlock then old(State()).(driver := Waiting)
        else old(State())
      ensures out == Accepted ==> State().queue == old(State()).queue + [old(driver).req]
    {
      hide Inv, IsClock, DecodeAll, MailKernel.Wired, MailKernel.Valid, MailKernel.Snap, HasClock, Stored, HasRoom,
        Encode, Wrapped, AreRequests;
      DecodeArrival(Stored(), driver.req);
      out := Send(driverPid, Encode(driver.req));
      if !out.Blocked? {
        driver := Waiting;
      }
    }

    /** The same send from blockMe on, if the driver gets out of it. */
    method PutBackResume() returns (out: Outcome)
      requires Valid() && driver.Holding?
      modifies this, kernel, kernel.Arrays()
      ensures Valid() && (out == Accepted <==> old(HasRoom()))
      ensures out.Blocked? <==> |old(Stored())| >= old(kernel.mailboxes[clockMbox].numSlots)
      ensures State() ==
        if out == Accepted then Step(old(State()), Event.PutBack)
        else if out.Blocked? then old(State())
        else old(State()).(driver := Waiting)
    {
      hide Inv, IsClock, DecodeAll, MailKernel.Wired, MailKernel.Valid, MailKernel.Snap, HasClock, Stored, HasRoom,
        Encode, Wrapped, AreRequests;
      DecodeArrival(Stored(), driver.req);
      out := SendResume(driverPid, Encode(driver.req));
      if !out.Blocked? {
        driver := Waiting;
      }
    }

    /** One pass of the driver's loop, uninterrupted: its inner loop ends, and this is what it does. */
    method ClockTick()
      requires Valid() && driver.Waiting?
      modifies this, kernel, kernel.Arrays()
      ensures Valid() && State() == AfterTick(old(State()))
    {
      hide Inv, IsClock, DecodeAll, MailKernel.Wired, MailKernel.Valid, MailKernel.Snap, HasClock, Stored, HasRoom,
        Step, AfterTick, WokenAt, DuePrefix;
      ghost var s := State();
      BeginTick();
      ghost var n := DuePrefix(s.queue, tickCount);
      ghost var i := 0;
      ScanStarts(s);
      while driver.Scanning?
        invariant Valid() && tickCount == s.tickCount + 1 && i <= n
        invariant driver.Scanning? ==> State() == Scanned(s, i)
        invariant driver.Holding? ==> HasRoom() && Step(State(), Event.PutBack) == AfterTick(s)
        invariant driver.Waiting? ==> State() == AfterTick(s)
        decreases driver.Scanning?, n - i
      {
        ScanStep(s, i);
        TakeNext();
        if i < n {
          i := i + 1;
        }
      }
      if driver.Holding? {
        var out := PutBack();
      }
    }

    /**
      sys_sleep up to its blockMe. A negative time is refused; otherwise the request is stored
      exactly if the pool has a slot and the mailbox has room. If the pool is empty it is
      dropped, and the caller goes on to blockMe all the same.
     */
    method SysSleep(pid: nat, seconds: int) returns (sent: Option<Outcome>)
      requires Valid()
      modifies this, kernel, kernel.Arrays()
      ensures Valid() && (seconds < 0 <==> sent.None?)
      ensures sent == Some(Accepted) <==> seconds >= 0 && old(HasRoom())
      ensures sent == Some(WouldBlock) <==> seconds >= 0 && old(kernel.freeSlotCount) == 0
      ensures sent == Some(Accepted) || sent == Some(WouldBlock) || sent == None || sent.value.Blocked?
      ensures State() == if sent == Some(Accepted)
        then Step(old(State()), Arrive(SleepReq(Wrapped(pid), Wrapped(old(tickCount) + seconds * ticksPerSec))))
        else old(State())
    {
      hide Inv, IsClock, DecodeAll, MailKernel.Wired, MailKernel.Valid, MailKernel.Snap, HasClock, Stored, HasRoom,
        Encode, Wrapped, AreRequests;
      if seconds < 0 {
        return None;
      }
      var req := SleepReq(pid, tickCount + seconds * ticksPerSec);
      DecodeArrival(Stored(), req);
      var out := Send(pid, Encode(req));
      return Some(out);
    }

    /** A sleeper whose send blocked on the full mailbox resumes it. */
    method SysSleepResume(pid: nat, data: Message) returns (out: Outcome)
      requires Valid() && |data| == REQ_SIZE
      modifies this, kernel, kernel.Arrays()
      ensures Valid() && (out == Accepted <==> old(HasRoom()))
      ensures out.Blocked? <==> |old(Stored())| >= old(kernel.mailboxes[clockMbox].numSlots)
      ensures State() == if out == Accepted then Step(old(State()), Arrive(Decode(data))) else old(State())
    {
      hide Inv, IsClock, DecodeAll, MailKernel.Wired, MailKernel.Valid, MailKernel.Snap, HasClock, Stored, HasRoom,
        AreRequests;
      DecodeAppend(Stored(), data);
      out := SendResume(pid, data);
    }
  }

  lemma DecodeAppend(queue: seq<Message>, data: Message)
    requires AreRequests(queue) && |data| == REQ_SIZE
    ensures AreRequests(queue + [data]) && DecodeAll(queue + [data]) == DecodeAll(queue) + [Decode(data)]
  {}

  lemma DecodeArrival(queue: seq<Message>, req: SleepReq)
    requires AreRequests(queue)
    ensures AreRequests(queue + [Encode(req)])
    ensures DecodeAll(queue + [Encode(req)]) == DecodeAll(queue) + [SleepReq(Wrapped(req.pid), Wrapped(req.wakeupTick))]
  {
    RoundTrip(req);
    DecodeAppend(queue, Encode(req));
  }

  /** A tick under way: i requests were due and woken. */
  ghost function Scanned(s: Sleepers, i: nat): Sleepers
    requires i <= |s.queue|
  {
    Sleepers(s.queue[i..], s.tickCount + 1, s.woken + WokenAt(s.queue[..i], s.tickCount + 1), Scanning)
  }

  lemma ScanStarts(s: Sleepers)
    ensures Scanned(s, 0) == Sleepers(s.queue, s.tickCount + 1, s.woken, Scanning)
  {}

  lemma OneMoreWoken(s: Sleepers, i: nat)
    requires i < |s.queue|
    ensures Scanned(s, i + 1).woken == Scanned(s, i).woken + [Wake(s.queue[i], s.tickCount + 1)]
  {
    hide DuePrefix;
    assert forall k :: 0 <= k < i ==> s.queue[..i + 1][k] == s.queue[..i][k];
  }

  lemma ScanGoesOn(s: Sleepers, i: nat)
    requires i < |s.queue| && s.queue[i].wakeupTick <= s.tickCount + 1
    ensures Step(Scanned(s, i), Take) == Scanned(s, i + 1)
  {
    OneMoreWoken(s, i);
    hide WokenAt;
    assert Scanned(s, i).queue[0] == s.queue[i] && Scanned(s, i).queue[1..] == s.queue[i + 1..];
  }

  lemma ScanEnds(s: Sleepers, i: nat)
    requires i == DuePrefix(s.queue, s.tickCount + 1)
    ensures var t := Step(Scanned(s, i), Take);
      if i < |s.queue| then t.driver.Holding? && Step(t, PutBack) == AfterTick(s) else t == AfterTick(s)
  {
    hide WokenAt, DuePrefix;
    if i < |s.queue| {
      assert Scanned(s, i).queue[0] == s.queue[i] && Scanned(s, i).queue[1..] == s.queue[i + 1..];
    }
  }

  lemma ScanStep(s: Sleepers, i: nat)
    requires i <= DuePrefix(s.queue, s.tickCount + 1)
    ensures var t := Step(Scanned(s, i), Take);
      if i < DuePrefix(s.queue, s.tickCount + 1) then t == Scanned(s, i + 1)
      else if t.driver.Holding? then Step(t, PutBack) == AfterTick(s)
      else t == AfterTick(s)
  {
    hide Step, Scanned, AfterTick, DuePrefix;
    if i < DuePrefix(s.queue, s.tickCount + 1) { ScanGoesOn(s, i); } else { ScanEnds(s, i); }
  }
}
