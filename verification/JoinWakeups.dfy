/** A process blocked in join never sleeps through a quit: all its children are alive. */
module JoinWakeups {
  import opened ProcessTable
  import opened ProcessForest
  import opened ProcessRuns

  ghost predicate LiveKids(procs: seq<Proc>, p: Proc, kids: seq<nat>) {
    p.status == BLOCKED ==> forall c :: c in kids ==> c < |procs| && procs[c].status != TERMINATED
  }

  ghost predicate NoneMissed(t: Table) {
    |t.kids| == |t.procs| && forall p :: 0 <= p < |t.procs| ==> LiveKids(t.procs, t.procs[p], t.kids[p])
  }

  lemma AddMissesNone(t: Table, s: nat, pid: nat, priority: int)
    requires Inv(t) && NoneMissed(t) && !t.halted && s < |t.procs| && t.procs[s].pid == UNUSED && 1 <= priority <= 5
    ensures NoneMissed(Add(t, s, pid, priority))
  {
    hide Forest, Queued, Pids;
    var u := Add(t, s, pid, priority);
    forall p | 0 <= p < |u.procs| ensures LiveKids(u.procs, u.procs[p], u.kids[p]) {
      assert LiveKids(t.procs, t.procs[p], t.kids[p]);
    }
  }

  lemma BlockMissesNone(t: Table, r: nat)
    requires Inv(t) && NoneMissed(t) && r < |t.procs| && FirstTerminated(t.procs, t.kids[r]) == |t.kids[r]|
    ensures NoneMissed(t.(procs := t.procs[r := t.procs[r].(status := BLOCKED)]))
  {
    hide Forest, Queued, Pids, Statuses;
    var u := t.(procs := t.procs[r := t.procs[r].(status := BLOCKED)]);
    forall p | 0 <= p < |u.procs| ensures LiveKids(u.procs, u.procs[p], u.kids[p]) {
      assert LiveKids(t.procs, t.procs[p], t.kids[p]);
    }
  }

  /** The parent of a process that quits stops waiting. */
  lemma TerminateMissesNone(t: Table, r: nat, status: int)
    requires Inv(t) && NoneMissed(t) && r < |t.procs| && 1 <= t.procs[r].priority <= NUM_PRIORITIES
    ensures NoneMissed(Terminate(t, r, status))
  {
    hide Queued, Pids, Statuses;
    var u := Terminate(t, r, status);
    forall p | 0 <= p < |u.procs| ensures LiveKids(u.procs, u.procs[p], u.kids[p]) {
      assert LiveKids(t.procs, t.procs[p], t.kids[p]) && Chain(t.procs, p, t.kids[p]);
      assert r in t.kids[p] ==> ChildOf(t.procs, r, p);
    }
  }

  lemma ReapMissesNone(t: Table, r: nat, i: nat)
    requires Inv(t) && NoneMissed(t) && r < |t.procs| && i < |t.kids[r]|
    requires t.procs[r].status != BLOCKED
    ensures NoneMissed(Reap(t, r, i))
  {
    hide Forest, Queued, Pids, Statuses;
    var u := Reap(t, r, i);
    forall p | 0 <= p < |u.procs| ensures LiveKids(u.procs, u.procs[p], u.kids[p]) {
      assert LiveKids(t.procs, t.procs[p], t.kids[p]);
    }
  }

  lemma StepMissesNone(t: Table, call: Call)
    requires Inv(t) && NoneMissed(t) && Callable(t, call)
    ensures NoneMissed(Apply(t, call).0)
  {
    hide Inv, NoneMissed, FirstFree, NewPid, Removed, Choice;
    RunningIsRunnable(t);
    match call {
      case Spork(priority, stackOk) =>
        var slot := FreeSlot(t.procs, t.nextPid % |t.procs|);
        if 1 <= priority <= 5 && slot.Some? {
          var u := Add(t, slot.value, NewPid(t.nextPid), priority);
          AddMissesNone(t, slot.value, NewPid(t.nextPid), priority);
          hide Add;
          DispatchMissesNone(u);
        }
      case Join(statusIsNull) =>
        var r := t.running.value;
        var i := FirstTerminated(t.procs, t.kids[r]);
        if i < |t.kids[r]| {
          ReapMissesNone(t, r, i);
        } else {
          BlockMissesNone(t, r);
          DispatchMissesNone(t.(procs := t.procs[r := t.procs[r].(status := BLOCKED)]));
        }
      case Quit(status) =>
        TerminateMissesNone(t, t.running.value, status);
        hide Terminate;
        DispatchMissesNone(Terminate(t, t.running.value, status));
        HaltMissesNone(t);
      case Dispatcher => DispatchMissesNone(t);
    }
  }

  lemma RunningIsRunnable(t: Table)
    requires Inv(t) && !t.halted
    ensures t.running.Some? ==> t.running.value < |t.procs| && t.procs[t.running.value].status == RUNNABLE
  {}

  /** Only the table matters. */
  lemma DispatchMissesNone(t: Table)
    requires NoneMissed(t)
    ensures Shape(t) ==> NoneMissed(Dispatch(t))
  {}

  lemma HaltMissesNone(t: Table)
    requires NoneMissed(t)
    ensures NoneMissed(t.(halted := true))
  {}

  /** Over any run: while a process is blocked in join, none of its children has terminated. */
  lemma {:induction false} JoinMissesNoQuit(t: Table, calls: seq<Call>)
    requires Inv(t) && NoneMissed(t) && IsRun(t, calls)
    ensures Inv(Run(t, calls)) && NoneMissed(Run(t, calls))
    decreases |calls|
  {
    hide Inv, NoneMissed, Callable, Apply;
    if calls != [] {
      StepKeeps(t, calls[0]);
      StepMissesNone(t, calls[0]);
      JoinMissesNoQuit(Apply(t, calls[0]).0, calls[1..]);
    }
  }

  /** And so from boot on. */
  lemma JoinMissesNoQuitFromBoot(maxProc: nat, calls: seq<Call>)
    requires maxProc >= 2 && IsRun(Initial(maxProc), calls)
    ensures NoneMissed(Run(Initial(maxProc), calls))
  {
    InitialKeeps(maxProc);
    assert NoneMissed(Initial(maxProc));
    hide Inv, NoneMissed;
    JoinMissesNoQuit(Initial(maxProc), calls);
  }
}
