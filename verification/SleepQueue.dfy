/**
  Sleep of phase 4: the clock driver keeps its sleepers in a mailbox and scans it
  once per tick, oldest request first, putting the first undue request back at the end.
 */
module SleepQueue {
  datatype SleepReq = SleepReq(pid: int, wakeupTick: int)

  /** unblockProc(req.pid) during tick number `at`. */
  datatype Wake = Wake(req: SleepReq, at: int)

  /** Where the driver is: waiting for a tick, in its loop, or between taking an undue request and putting it back. */
  datatype Driver = Waiting | Scanning | Holding(req: SleepReq)

  datatype Sleepers = Sleepers(queue: seq<SleepReq>, tickCount: int, woken: seq<Wake>, driver: Driver)

  /** Another process may run after any of the driver's steps, so requests arrive at any point. */
  datatype Event = BeginTick | Take | PutBack | Arrive(req: SleepReq)

  /** Steps of the driver that are not its next one change nothing. */
  function Step(s: Sleepers, e: Event): Sleepers {
    match e
    case BeginTick => if s.driver.Waiting? then s.(tickCount := s.tickCount + 1, driver := Scanning) else s
    case Take =>
      if !s.driver.Scanning? then s
      else if s.queue == [] then s.(driver := Waiting)
      else if s.queue[0].wakeupTick <= s.tickCount then
        s.(queue := s.queue[1..], woken := s.woken + [Wake(s.queue[0], s.tickCount)])
      else s.(queue := s.queue[1..], driver := Holding(s.queue[0]))
    case PutBack => if s.driver.Holding? then s.(queue := s.queue + [s.driver.req], driver := Waiting) else s
    case Arrive(req) => s.(queue := s.queue + [req])
  }

  /** Every request that is in the mailbox or in the driver's hands. */
  function Outstanding(s: Sleepers): seq<SleepReq> {
    s.queue + if s.driver.Holding? then [s.driver.req] else []
  }

  function Run(s: Sleepers, events: seq<Event>): Sleepers
    decreases |events|
  {
    if events == [] then s else Run(Step(s, events[0]), events[1..])
  }

  /** How many of the driver's loops end in a run. */
  function Ended(s: Sleepers, events: seq<Event>): nat
    decreases |events|
  {
    if events == [] then 0
    else
      (if !s.driver.Waiting? && Step(s, events[0]).driver.Waiting? then 1 else 0) +
      Ended(Step(s, events[0]), events[1..])
  }

  function Arrivals(events: seq<Event>): seq<SleepReq> {
    if events == [] then [] else (if events[0].Arrive? then [events[0].req] else []) + Arrivals(events[1..])
  }

  function Requests(wakes: seq<Wake>): seq<SleepReq> {
    seq(|wakes|, i requires 0 <= i < |wakes| => wakes[i].req)
  }

  /** How often a request occurs in a list. */
  function Count(reqs: seq<SleepReq>, req: SleepReq): nat {
    if reqs == [] then 0 else (if reqs[0] == req then 1 else 0) + Count(reqs[1..], req)
  }

  // --- one tick that nothing interrupts --------------------------------------------------------

  /** Requests before the first one that is not due. */
  function DuePrefix(queue: seq<SleepReq>, now: int): (n: nat)
    ensures n <= |queue|
    ensures forall i :: 0 <= i < n ==> queue[i].wakeupTick <= now
    ensures n < |queue| ==> queue[n].wakeupTick > now
  {
    if queue == [] || queue[0].wakeupTick > now then 0 else 1 + DuePrefix(queue[1..], now)
  }

  function WokenAt(reqs: seq<SleepReq>, now: int): (wakes: seq<Wake>)
    ensures |wakes| == |reqs| && forall i :: 0 <= i < |reqs| ==> wakes[i] == Wake(reqs[i], now)
  {
    seq(|reqs|, i requires 0 <= i < |reqs| => Wake(reqs[i], now))
  }

  /** The due prefix is woken, in order; the first undue request moves to the end. */
  function AfterTick(s: Sleepers): (t: Sleepers)
    ensures t.tickCount == s.tickCount + 1 && t.driver.Waiting?
  {
    var now := s.tickCount + 1;
    var n := DuePrefix(s.queue, now);
    var rest := if n == |s.queue| then [] else s.queue[n + 1..] + [s.queue[n]];
    Sleepers(rest, now, s.woken + WokenAt(s.queue[..n], now), Waiting)
  }

  // --- what a run does ----------------------------------------------------------------------

  lemma {:induction false} RunGrows(s: Sleepers, events: seq<Event>)
    ensures s.woken <= Run(s, events).woken && s.tickCount <= Run(s, events).tickCount
    decreases |events|
  {
    if events != [] {
      RunGrows(Step(s, events[0]), events[1..]);
    }
  }

  ghost predicate WokenBy(s: Sleepers, s': Sleepers, req: SleepReq, latest: int) {
    exists i :: |s.woken| <= i < |s'.woken| && s'.woken[i].req == req && s'.woken[i].at <= latest
  }

  /** The tick whose scan is going on, or the next one. */
  function NextScan(s: Sleepers): int {
    if s.driver.Scanning? then s.tickCount else s.tickCount + 1
  }

  /**
    Bounded lateness: a request with k ahead of it that is due when the next scan goes
    on is woken in that scan or in one of the k after it, whatever arrives meanwhile.
   */
  lemma {:induction false} BoundedLateness(s: Sleepers, k: nat, events: seq<Event>)
    requires k < |s.queue| && s.queue[k].wakeupTick <= NextScan(s)
    requires Ended(s, events) > k + if s.driver.Holding? then 1 else 0
    ensures WokenBy(s, Run(s, events), s.queue[k], NextScan(s) + k)
    decreases |events|
  {
    var s', rest := Step(s, events[0]), events[1..];
    if !s.driver.Scanning? || events[0] != Take {
      BoundedLateness(s', k, rest);
    } else if k > 0 {
      assert s'.queue[k - 1] == s.queue[k];
      BoundedLateness(s', k - 1, rest);
    } else {
      RunGrows(s', rest);
      var i := |s.woken|;
      assert s'.woken[i] == Wake(s.queue[0], s.tickCount) && Run(s, events).woken[i] == s'.woken[i];
    }
  }

  /** A request that is not due stays outstanding. */
  lemma {:induction false} StaysOutstanding(s: Sleepers, req: SleepReq, events: seq<Event>)
    requires req in Outstanding(s) && Run(s, events).tickCount < req.wakeupTick
    ensures req in Outstanding(Run(s, events))
    decreases |events|
  {
    if events != [] {
      RunGrows(s, events);
      RunGrows(Step(s, events[0]), events[1..]);
      StaysOutstanding(Step(s, events[0]), req, events[1..]);
    }
  }

  /** A sleeper is late by fewer ticks than there are requests queued when it becomes due. */
  lemma SleepIsAtMostQueueLate(s: Sleepers, req: SleepReq, before: seq<Event>, after: seq<Event>)
    requires req in Outstanding(s)
    requires Run(s, before).driver.Waiting? && Run(s, before).tickCount + 1 == req.wakeupTick
    requires Ended(Run(s, before), after) >= |Run(s, before).queue|
    ensures var due := Run(s, before); WokenBy(due, Run(due, after), req, req.wakeupTick + |due.queue| - 1)
  {
    StaysOutstanding(s, req, before);
    var due := Run(s, before);
    var k :| 0 <= k < |due.queue| && due.queue[k] == req;
    BoundedLateness(due, k, after);
  }

  /** Nobody is woken before its tick. */
  lemma {:induction false} NeverEarly(s: Sleepers, events: seq<Event>)
    ensures forall i :: |s.woken| <= i < |Run(s, events).woken| ==>
      Run(s, events).woken[i].req.wakeupTick <= Run(s, events).woken[i].at <= Run(s, events).tickCount
    decreases |events|
  {
    if events != [] {
      NeverEarly(Step(s, events[0]), events[1..]);
      RunGrows(s, events);
      RunGrows(Step(s, events[0]), events[1..]);
    }
  }

  /** Conservation: every request that arrived is outstanding or was woken, as often as it arrived. */
  lemma {:induction false} NeverLost(s: Sleepers, events: seq<Event>, req: SleepReq)
    ensures var t := Run(s, events);
      Count(Requests(t.woken), req) + Count(Outstanding(t), req) ==
      Count(Requests(s.woken), req) + Count(Outstanding(s), req) + Count(Arrivals(events), req)
    decreases |events|
  {
    if events != [] {
      var e, s' := events[0], Step(s, events[0]);
      NeverLost(s', events[1..], req);
      StepMoves(s, e, req);
      CountAppend(Arrivals([e]), Arrivals(events[1..]), req);
      assert Arrivals(events) == Arrivals([e]) + Arrivals(events[1..]);
    }
  }

  lemma StepMoves(s: Sleepers, e: Event, req: SleepReq)
    ensures var t := Step(s, e);
      Count(Requests(t.woken), req) + Count(Outstanding(t), req) ==
      Count(Requests(s.woken), req) + Count(Outstanding(s), req) + Count(Arrivals([e]), req)
  {
    var t, held := Step(s, e), if s.driver.Holding? then [s.driver.req] else [];
    CountAppend(s.queue, held, req);
    if e.Arrive? {
      CountAppend(s.queue, [e.req], req);
      CountAppend(t.queue, held, req);
    } else if e.Take? && s.driver.Scanning? && s.queue != [] {
      var head := s.queue[0];
      CountAppend(s.queue[1..], [head], req);
      CountAppend(Requests(s.woken), [head], req);
      if head.wakeupTick <= s.tickCount {
        assert Requests(t.woken) == Requests(s.woken) + [head] && Outstanding(t) == s.queue[1..];
      }
    } else if e.PutBack? && s.driver.Holding? {
      assert Outstanding(t) == Outstanding(s);
    }
  }

  lemma {:induction false} CountAppend(a: seq<SleepReq>, b: seq<SleepReq>, req: SleepReq)
    ensures Count(a + b, req) == Count(a, req) + Count(b, req)
  {
    if a == [] {
      assert a + b == b;
    } else {
      assert (a + b)[1..] == a[1..] + b;
      CountAppend(a[1..], b, req);
    }
  }

  /** A request that is never stored is never woken. */
  lemma NotStoredNotWoken(s: Sleepers, events: seq<Event>, req: SleepReq)
    requires req !in Outstanding(s) && req !in Requests(s.woken) && req !in Arrivals(events)
    ensures req !in Requests(Run(s, events).woken)
  {
    NeverLost(s, events, req);
    CountIn(Outstanding(s), req);
    CountIn(Requests(s.woken), req);
    CountIn(Arrivals(events), req);
    CountIn(Requests(Run(s, events).woken), req);
  }

  lemma {:induction false} CountIn(reqs: seq<SleepReq>, req: SleepReq)
    ensures Count(reqs, req) > 0 <==> req in reqs
  {
    if reqs != [] { CountIn(reqs[1..], req); }
  }

  // --- one request for each process ------------------------------------------------------------------

  ghost predicate OnePerPid(reqs: seq<SleepReq>) {
    forall i, j :: 0 <= i < j < |reqs| ==> reqs[i].pid != reqs[j].pid
  }

  ghost function Pids(reqs: seq<SleepReq>): set<int> {
    set i | 0 <= i < |reqs| :: reqs[i].pid
  }

  lemma {:induction false} PidsCount(reqs: seq<SleepReq>)
    requires OnePerPid(reqs)
    ensures |Pids(reqs)| == |reqs|
  {
    if reqs != [] {
      var n := |reqs| - 1;
      PidsCount(reqs[..n]);
      assert Pids(reqs) == Pids(reqs[..n]) + {reqs[n].pid};
    }
  }

  lemma OnePerPidInserted(front: seq<SleepReq>, req: SleepReq, back: seq<SleepReq>)
    requires OnePerPid(front + back) && req.pid !in Pids(front + back)
    ensures OnePerPid(front + [req] + back)
  {
    var n, before, after := |front|, front + back, front + [req] + back;
    forall i, j | 0 <= i < j < |after| ensures after[i].pid != after[j].pid {
      assert i != n ==> after[i] == before[if i < n then i else i - 1];
      assert j != n ==> after[j] == before[if j < n then j else j - 1];
    }
  }

  /** It stays at one as long as only processes without a request ask. */
  lemma OnePerPidStep(s: Sleepers, e: Event)
    requires OnePerPid(Outstanding(s)) && (e.Arrive? ==> e.req.pid !in Pids(Outstanding(s)))
    ensures OnePerPid(Outstanding(Step(s, e)))
  {
    if e.Arrive? {
      OnePerPidInserted(s.queue, e.req, if s.driver.Holding? then [s.driver.req] else []);
    } else if e.Take? && s.driver.Scanning? && s.queue != [] {
      assert Outstanding(s) == s.queue;
      assert OnePerPid(s.queue[1..]) && OnePerPid(s.queue[1..] + [s.queue[0]]);
    } else {
      assert Outstanding(Step(s, e)) == Outstanding(s);
    }
  }
}
