/** Runs of spork, join, quit and the dispatcher from boot: safety, reaping and Terminate. */
module ProcessRuns {
  import opened Wrappers
  import opened ProcessTable
  import opened ProcessForest

  /** The code never indexes a queue out of range: any call of a running process is possible. */
  lemma RunningMayCall(t: Table, call: Call)
    requires Inv(t) && !t.halted && (call.Join? || call.Quit? ==> t.running.Some?)
    ensures Callable(t, call)
  {
    if t.running.Some? {
      assert InQueue(t.procs[t.running.value], t.running.value, t.ready);
    }
  }

  lemma SporkKeeps(t: Table, priority: int, stackOk: bool)
    requires Inv(t) && !t.halted
    ensures Inv(DoSpork(t, priority, stackOk).0)
  {
    hide Forest, Queued, Pids, Statuses;
    var slot := FreeSlot(t.procs, t.nextPid % |t.procs|);
    if 1 <= priority <= 5 && slot.Some? {
      var u := Add(t, slot.value, NewPid(t.nextPid), priority);
      AddKeeps(t, slot.value, NewPid(t.nextPid), priority);
      NoRunningKeeps(u);
      DispatchKeeps(u);
    }
  }

  lemma NoRunningKeeps(t: Table)
    requires Inv(t)
    ensures Switchable(t)
  {
    hide Forest, Queued, Pids;
  }

  lemma JoinKeeps(t: Table, statusIsNull: bool)
    requires Inv(t) && !t.halted && t.running.Some?
    ensures Inv(DoJoin(t, statusIsNull).0)
  {
    hide Forest, Queued, Pids, Statuses;
    var r := t.running.value;
    if t.kids[r] != [] {
      var i := FirstTerminated(t.procs, t.kids[r]);
      if i < |t.kids[r]| {
        ReapKeeps(t, r, i);
      } else {
        BlockKeeps(t, r);
        DispatchKeeps(t.(procs := t.procs[r := t.procs[r].(status := BLOCKED)]));
      }
    }
  }

  lemma QuitKeeps(t: Table, status: int)
    requires Inv(t) && Callable(t, Quit(status))
    ensures Inv(DoQuit(t, status).0)
  {
    hide Forest, Queued, Pids;
    var r := t.running.value;
    if t.kids[r] == [] {
      TerminateKeeps(t, r, status);
      DispatchKeeps(Terminate(t, r, status));
    }
  }

  lemma StepKeeps(t: Table, call: Call)
    requires Inv(t) && Callable(t, call)
    ensures Inv(Apply(t, call).0)
  {
    hide Forest, Queued, Pids, Statuses;
    match call {
      case Spork(priority, stackOk) => SporkKeeps(t, priority, stackOk);
      case Join(statusIsNull) => JoinKeeps(t, statusIsNull);
      case Quit(status) => QuitKeeps(t, status);
      case Dispatcher =>
        NoRunningKeeps(t);
        DispatchKeeps(t);
    }
  }

  // --- exactly-once reaping ---------------------------------------------------------------------------

  ghost function ParentPid(t: Table, s: nat): int
    requires Shape(t) && s < |t.procs|
  {
    if t.procs[s].parent.Some? then t.procs[t.procs[s].parent.value].pid else UNUSED
  }

  ghost predicate OncePerPid(exits: seq<Exit>) {
    forall i, j :: 0 <= i < j < |exits| ==> exits[i].pid != exits[j].pid
  }

  /** A terminated child still in the table is waiting to be reaped; a live one has not quit. */
  ghost predicate ExitOf(t: Table, s: nat)
    requires Shape(t) && s < |t.procs|
  {
    var p := t.procs[s];
    p.pid != UNUSED ==>
      && (forall e :: e in t.reaped ==> e.pid != p.pid)
      && (p.status == TERMINATED ==> Exit(p.pid, p.exitStatus, ParentPid(t, s)) in t.quits)
      && (p.status != TERMINATED ==> forall e :: e in t.quits ==> e.pid != p.pid)
  }

  ghost predicate Reaping(t: Table)
    requires Shape(t)
  {
    && OncePerPid(t.quits) && OncePerPid(t.reaped)
    && (forall e :: e in t.quits ==> e.pid < t.nextPid)
    && (forall e :: e in t.reaped ==> e in t.quits)
    && (forall s :: 0 <= s < |t.procs| ==> ExitOf(t, s))
  }

  lemma DispatchReaping(t: Table)
    requires Shape(t) && Reaping(t)
    ensures Shape(Dispatch(t)) && Reaping(Dispatch(t))
  {
    var u := Dispatch(t);
    ChoiceInTable(t, 0);
    forall s | 0 <= s < |u.procs| ensures ExitOf(u, s) {
      assert ExitOf(t, s);
    }
  }

  lemma {:induction false} ChoiceInTable(t: Table, q: nat)
    requires Shape(t) && q <= NUM_PRIORITIES
    ensures Choice(t, q).Some? ==> Choice(t, q).value < |t.procs|
    decreases NUM_PRIORITIES - q
  {
    if q < NUM_PRIORITIES {
      ChoiceInTable(t, q + 1);
    }
  }

  /** A used slot's parent is alive, so its pid does not change. */
  lemma ParentIsLive(t: Table, s: nat)
    requires Inv(t) && s < |t.procs| && t.procs[s].pid != UNUSED && t.procs[s].parent.Some?
    ensures Live(t.procs[t.procs[s].parent.value])
  {
    assert OnChain(t.procs[s], s, t.kids);
    assert Chain(t.procs, t.procs[s].parent.value, t.kids[t.procs[s].parent.value]);
    assert ChildOf(t.procs, s, t.procs[s].parent.value);
  }

  lemma AddReaping(t: Table, s: nat, pid: nat, priority: int)
    requires Inv(t) && Reaping(t) && !t.halted && s < |t.procs| && t.procs[s].pid == UNUSED && pid >= t.nextPid
      && 1 <= priority <= 5
    ensures Shape(Add(t, s, pid, priority)) && Reaping(Add(t, s, pid, priority))
  {
    AddKeeps(t, s, pid, priority);
    var u := Add(t, s, pid, priority);
    forall c | 0 <= c < |u.procs| ensures ExitOf(u, c) {
      assert ExitOf(t, c);
      if c != s && t.procs[c].pid != UNUSED && t.procs[c].parent.Some? { ParentIsLive(t, c); }
    }
  }

  lemma ReapReaping(t: Table, r: nat, i: nat)
    requires Inv(t) && Reaping(t) && t.running == Some(r) && !t.halted
    requires i < |t.kids[r]| && t.procs[t.kids[r][i]].status == TERMINATED
    ensures Shape(Reap(t, r, i)) && Reaping(Reap(t, r, i))
  {
    ReapKeeps(t, r, i);
    var u, c := Reap(t, r, i), t.kids[r][i];
    assert Chain(t.procs, r, t.kids[r]);
    assert ChildOf(t.procs, c, r) && ExitOf(t, c);
    hide Queued, Statuses;
    forall s | 0 <= s < |u.procs| ensures ExitOf(u, s) {
      assert ExitOf(t, s);
      if t.procs[s].pid != UNUSED && t.procs[s].parent.Some? { ParentIsLive(t, s); }
    }
  }

  lemma BlockReaping(t: Table, r: nat)
    requires Inv(t) && Reaping(t) && t.running == Some(r) && !t.halted && t.kids[r] != []
    ensures var u := t.(procs := t.procs[r := t.procs[r].(status := BLOCKED)]); Shape(u) && Reaping(u)
  {
    BlockKeeps(t, r);
    hide Forest, Queued, Pids;
    var u := t.(procs := t.procs[r := t.procs[r].(status := BLOCKED)]);
    forall s | 0 <= s < |u.procs| ensures ExitOf(u, s) {
      assert ExitOf(t, s);
    }
  }

  lemma TerminateReaping(t: Table, r: nat, status: int)
    requires Inv(t) && Reaping(t) && t.running == Some(r) && !t.halted && t.kids[r] == []
    ensures 1 <= t.procs[r].priority <= NUM_PRIORITIES
    ensures Shape(Terminate(t, r, status)) && Reaping(Terminate(t, r, status))
  {
    TerminateKeeps(t, r, status);
    hide Forest, Queued;
    var u := Terminate(t, r, status);
    assert ExitOf(t, r);
    hide ExitOf, Pids;
    assert forall e :: e in u.quits <==> e in t.quits || e == u.quits[|t.quits|];
    forall s | 0 <= s < |u.procs| ensures ExitOf(u, s) {
      TerminateExit(t, r, status, s);
    }
  }

  lemma TerminateExit(t: Table, r: nat, status: int, s: nat)
    requires Inv(t) && Reaping(t) && r < |t.procs| && s < |t.procs| && 1 <= t.procs[r].priority <= NUM_PRIORITIES
    requires t.procs[r].pid != UNUSED && t.procs[r].status != TERMINATED && Shape(Terminate(t, r, status))
    ensures ExitOf(Terminate(t, r, status), s)
  {
    hide Forest, Queued;
    var u := Terminate(t, r, status);
    assert ExitOf(t, s);
    assert u.quits[|t.quits|] in u.quits;
    assert forall e :: e in u.quits <==> e in t.quits || e == u.quits[|t.quits|];
  }

  lemma StepReaping(t: Table, call: Call)
    requires Inv(t) && Reaping(t) && Callable(t, call)
    ensures Inv(Apply(t, call).0) && Reaping(Apply(t, call).0)
  {
    StepKeeps(t, call);
    hide Forest, Queued, Pids, Statuses, Reaping;
    match call {
      case Spork(priority, stackOk) =>
        var slot := FreeSlot(t.procs, t.nextPid % |t.procs|);
        if 1 <= priority <= 5 && slot.Some? {
          AddReaping(t, slot.value, NewPid(t.nextPid), priority);
          DispatchReaping(Add(t, slot.value, NewPid(t.nextPid), priority));
        }
      case Join(statusIsNull) =>
        var r := t.running.value;
        if t.kids[r] != [] {
          var i := FirstTerminated(t.procs, t.kids[r]);
          if i < |t.kids[r]| {
            ReapReaping(t, r, i);
          } else {
            BlockReaping(t, r);
            DispatchReaping(t.(procs := t.procs[r := t.procs[r].(status := BLOCKED)]));
          }
        }
      case Quit(status) =>
        if t.kids[t.running.value] == [] {
          TerminateReaping(t, t.running.value, status);
          DispatchReaping(Terminate(t, t.running.value, status));
        } else {
          HaltReaping(t);
        }
      case Dispatcher => DispatchReaping(t);
    }
  }

  lemma HaltReaping(t: Table)
    requires Inv(t) && Reaping(t)
    ensures Shape(t.(halted := true)) && Reaping(t.(halted := true))
  {
    hide Forest, Queued, Pids, Statuses;
    forall s | 0 <= s < |t.procs| ensures ExitOf(t.(halted := true), s) {
      assert ExitOf(t, s);
    }
  }

  // --- whole runs ----------------------------------------------------------------------------------------

  ghost predicate IsRun(t: Table, calls: seq<Call>)
    decreases |calls|
  {
    calls == [] || (Callable(t, calls[0]) && IsRun(Apply(t, calls[0]).0, calls[1..]))
  }

  ghost function Run(t: Table, calls: seq<Call>): Table
    requires IsRun(t, calls)
    decreases |calls|
  {
    if calls == [] then t else Run(Apply(t, calls[0]).0, calls[1..])
  }

  lemma {:induction false} RunKeeps(t: Table, calls: seq<Call>)
    requires Inv(t) && Reaping(t) && IsRun(t, calls)
    ensures Inv(Run(t, calls)) && Reaping(Run(t, calls))
    decreases |calls|
  {
    hide Inv, Reaping, Callable, Apply;
    if calls != [] {
      StepReaping(t, calls[0]);
      RunKeeps(Apply(t, calls[0]).0, calls[1..]);
    }
  }

  lemma InitialKeeps(maxProc: nat)
    requires maxProc >= 2
    ensures Inv(Initial(maxProc)) && Reaping(Initial(maxProc))
  {
    var t := Initial(maxProc);
    assert t.ready[5] == [1] && 1 in t.ready[5];
    forall q | 0 <= q < NUM_PRIORITIES ensures Queue(t.procs, q, t.ready[q]) {
      assert q < 5 ==> t.ready[q] == [];
    }
    forall s | 0 <= s < maxProc ensures InQueue(t.procs[s], s, t.ready) {}
  }

  /** From boot on: forest, queues, pids and exactly-once reaping hold after any calls. */
  lemma EveryRun(maxProc: nat, calls: seq<Call>)
    requires maxProc >= 2 && IsRun(Initial(maxProc), calls)
    ensures var t := Run(Initial(maxProc), calls); Inv(t) && Reaping(t)
  {
    hide Inv, Reaping, Callable;
    InitialKeeps(maxProc);
    RunKeeps(Initial(maxProc), calls);
  }

  /** The pids that spork returns in a run, in order. */
  ghost function SporkedPids(t: Table, calls: seq<Call>): seq<int>
    requires IsRun(t, calls)
    decreases |calls|
  {
    if calls == [] then []
    else
      var (u, r) := Apply(t, calls[0]);
      (if r.Sporked? then [r.pid] else []) + SporkedPids(u, calls[1..])
  }

  ghost predicate Increasing(pids: seq<int>, from: int) {
    && (forall i :: 0 <= i < |pids| ==> pids[i] >= from && (pids[i] > 2 ==> pids[i] % 50 != 1 && pids[i] % 50 != 2))
    && (forall i, j :: 0 <= i < j < |pids| ==> pids[i] < pids[j])
  }

  lemma IncreasingCons(pid: nat, rest: seq<int>, from: int)
    requires Increasing(rest, pid + 1) && pid >= from && !Skipped(pid)
    ensures Increasing([pid] + rest, from)
  {
    var pids := [pid] + rest;
    assert forall i :: 0 < i < |pids| ==> pids[i] == rest[i - 1];
  }

  /** Pids strictly increase and skip 1 and 2 modulo 50, so no pid is ever handed out twice. */
  lemma {:induction false} PidsIncrease(t: Table, calls: seq<Call>)
    requires IsRun(t, calls)
    ensures Increasing(SporkedPids(t, calls), t.nextPid)
    decreases |calls|
  {
    hide Increasing, Apply, Callable;
    if calls == [] {
      IncreasingNil(t.nextPid);
    } else {
      var (u, r) := Apply(t, calls[0]);
      NextPidGrows(t, calls[0]);
      PidsIncrease(u, calls[1..]);
      var rest := SporkedPids(u, calls[1..]);
      if r.Sporked? {
        IncreasingCons(r.pid, rest, t.nextPid);
      } else {
        assert [] + rest == rest;
      }
    }
  }

  lemma IncreasingNil(from: int)
    ensures Increasing([], from)
  {}

  lemma NextPidGrows(t: Table, call: Call)
    requires Callable(t, call)
    ensures var (u, r) := Apply(t, call);
      if r.Sporked? then t.nextPid <= r.pid && u.nextPid == r.pid + 1 && !Skipped(r.pid) else u.nextPid == t.nextPid
  {}

  // --- Terminate -----------------------------------------------------------------------------------------

  /** How one call changes the children of p: only p's own calls do. */
  lemma KidsStep(t: Table, call: Call, p: nat)
    requires Inv(t) && Callable(t, call) && p < |t.procs|
    ensures var (u, r) := Apply(t, call);
      && |u.kids| == |t.kids|
      && (t.running != Some(p) ==> u.kids[p] == t.kids[p])
      && (t.running == Some(p) && !r.Reaped? && !r.Sporked? ==> u.kids[p] == t.kids[p])
      && (t.running == Some(p) && r.Reaped? ==> |u.kids[p]| == |t.kids[p]| - 1)
      && (t.running == Some(p) && call == Join(false) ==> (r.NoChildren? <==> t.kids[p] == []))
      && (r.NoChildren? ==> u == t)
  {
    hide Forest, Queued, Pids, Statuses;
  }

  /** A run in which p is in the join loop of sys_terminate: whenever p runs, it joins. */
  ghost predicate Joining(t: Table, calls: seq<Call>, p: nat)
    requires IsRun(t, calls)
    decreases |calls|
  {
    calls == [] || ((t.running == Some(p) ==> calls[0] == Join(false)) && Joining(Apply(t, calls[0]).0, calls[1..], p))
  }

  /** How many pids join returned to p. */
  ghost function ReapedBy(t: Table, calls: seq<Call>, p: nat): nat
    requires IsRun(t, calls)
    decreases |calls|
  {
    if calls == [] then 0
    else
      var (u, r) := Apply(t, calls[0]);
      (if t.running == Some(p) && r.Reaped? then 1 else 0) + ReapedBy(u, calls[1..], p)
  }

  /**
    Terminate reaps first: each pid the loop gets is one child fewer, and when join
    says there are none, quit ends the process instead of halting the system.
   */
  lemma {:induction false} TerminateReapsFirst(t: Table, calls: seq<Call>, p: nat, status: int)
    requires Inv(t) && IsRun(t, calls) && Joining(t, calls, p) && p < |t.procs|
    ensures var u := Run(t, calls);
      && Inv(u) && |u.procs| == |t.procs|
      && |u.kids[p]| + ReapedBy(t, calls, p) == |t.kids[p]|
      && (u.running == Some(p) && !u.halted && DoJoin(u, false).1.NoChildren? ==>
        Callable(u, Quit(status)) && DoJoin(u, false).0 == u && DoQuit(u, status).1 == Ended)
    decreases |calls|
  {
    hide Forest, Queued, Pids, Statuses;
    if calls == [] {
      if t.running == Some(p) && !t.halted { RunningMayCall(t, Quit(status)); }
    } else {
      StepKeeps(t, calls[0]);
      KidsStep(t, calls[0], p);
      hide Apply, Callable, DoJoin, DoQuit;
      TerminateReapsFirst(Apply(t, calls[0]).0, calls[1..], p, status);
    }
  }
}
