/**
  spork, join, quit and the dispatcher as phase 1b writes them: a fixed table, child
  chains through `sibling`, ready queues through `next`, all updated in place.
 */
module ProcessKernel {
  import opened Wrappers
  import opened ProcessTable
  import opened ProcessForest
  import opened ProcessRuns
  import opened LinkedSlots

  class Phase1 {
    const processTable: array<Proc>
    const children: array<int>      // head of each slot's child chain
    const sibling: array<int>
    const readyQueues: array<int>   // head of each priority's queue
    const next: array<int>
    var running: Option<nat>
    var nextPid: nat
    var halted: bool
    ghost var kids: seq<seq<nat>>
    ghost var ready: seq<seq<nat>>
    ghost var quits: seq<Exit>
    ghost var reaped: seq<Exit>

    ghost function Arrays(): set<object> {
      {processTable as object, children as object, sibling as object, readyQueues as object, next as object}
    }

    ghost predicate Wired()
      reads this, Arrays()
    {
      && children != sibling && children != readyQueues && children != next
      && sibling != readyQueues && sibling != next && readyQueues != next
      && children.Length == sibling.Length == next.Length == processTable.Length && readyQueues.Length == NUM_PRIORITIES
      && AllLinked(children[..], sibling[..], kids)
      && AllLinked(readyQueues[..], next[..], ready)
    }

    ghost function Snap(): Table
      reads this, Arrays()
    {
      Table(processTable[..], kids, ready, running, nextPid, halted, quits, reaped)
    }

    ghost predicate Valid()
      reads this, Arrays()
    {
      Wired() && Inv(Snap())
    }

    /** phase1_init */
    constructor (maxProc: nat)
      requires maxProc >= 2
      ensures Valid() && fresh(Arrays()) && Snap() == Initial(maxProc)
    {
      processTable := new Proc[maxProc];
      children := new int[maxProc];
      sibling := new int[maxProc];
      next := new int[maxProc];
      readyQueues := new int[NUM_PRIORITIES](_ => NULL);
      running, nextPid, halted := None, 0, false;
      kids, ready := Initial(maxProc).kids, Initial(maxProc).ready;
      quits, reaped := [], [];
      new;
      hide Inv, Linked, AllLinked, Reaping;
      ghost var heads := readyQueues[..];
      var i := 0;
      while i < maxProc
        invariant 0 <= i <= maxProc && readyQueues[..] == heads
        invariant forall j :: 0 <= j < i ==> processTable[j] == Proc(UNUSED, 0, TERMINATED, 0, None)
        invariant forall j :: 0 <= j < i ==> children[j] == sibling[j] == next[j] == NULL
        modifies processTable, children, sibling, next
      {
        processTable[i] := Proc(UNUSED, 0, TERMINATED, 0, None);
        children[i], sibling[i], next[i] := NULL, NULL, NULL;
        i := i + 1;
      }
      processTable[1] := Proc(1, 6, RUNNABLE, 0, None);
      readyQueues[5] := 1;
      nextPid := nextPid + 2;
      InitialLinks(maxProc, children[..], sibling[..], readyQueues[..], next[..]);
      assert Snap() == Initial(maxProc);
      InitialKeeps(maxProc);
    }

    /** The two scans of spork. */
    method FindSlot() returns (slot: Option<nat>)
      requires processTable.Length > 0
      ensures slot == FreeSlot(processTable[..], nextPid % processTable.Length)
    {
      ghost var start := nextPid % processTable.Length;
      slot := None;
      var i := nextPid % processTable.Length;
      while i < processTable.Length && slot.None?
        invariant start <= i <= processTable.Length
        invariant FirstFree(processTable[..], start, processTable.Length) ==
          if slot.Some? then slot else FirstFree(processTable[..], i, processTable.Length)
        decreases processTable.Length - i, slot.None?
      {
        if processTable[i].pid == UNUSED {
          slot := Some(i);
        }
        i := i + 1;
      }
      if slot.None? {
        i := 0;
        while i < nextPid % processTable.Length && slot.None?
          invariant 0 <= i <= start
          invariant FirstFree(processTable[..], 0, start) ==
            if slot.Some? then slot else FirstFree(processTable[..], i, start)
        {
          if processTable[i].pid == UNUSED {
            slot := Some(i);
          }
          i := i + 1;
        }
      }
    }

    /** The pid loop: try one, and again while it is one of the skipped. */
    method AllocPid() returns (pid: nat)
      modifies this`nextPid
      ensures pid == NewPid(old(nextPid)) && nextPid == pid + 1
    {
      pid := nextPid;
      nextPid := nextPid + 1;
      while pid > 2 && (pid % 50 == 1 || pid % 50 == 2)
        invariant old(nextPid) <= pid <= NewPid(old(nextPid)) && nextPid == pid + 1
        decreases NewPid(old(nextPid)) - pid
      {
        pid := nextPid;
        nextPid := nextPid + 1;
      }
    }

    /** dispatcher: the head of the first queue, by priority, whose head is not blocked. */
    method DispatcherCall()
      requires Wired() && Shape(Snap())
      modifies this`running, this`halted
      ensures Wired() && Snap() == Dispatch(old(Snap()))
    {
      var choice, q := None, 0;
      while q < NUM_PRIORITIES && choice.None?
        invariant 0 <= q <= NUM_PRIORITIES
        invariant Choice(Snap(), 0) == if choice.Some? then choice else Choice(Snap(), q)
      {
        assert Linked(readyQueues[..][q], next[..], ready[q]);
        if readyQueues[q] != NULL && processTable[readyQueues[q]].status != BLOCKED {
          choice := Some(readyQueues[q]);
        }
        q := q + 1;
      }
      if choice.None? || choice == running {
        halted := true;
      } else {
        running := choice;
      }
    }

    method Dispatcher()
      requires Valid() && !halted
      modifies this`running, this`halted
      ensures Valid() && Snap() == Dispatch(old(Snap()))
    {
      hide Linked, AllLinked, Inv, Dispatch;
      InvShape(Snap());
      NoRunningKeeps(Snap());
      DispatchKeeps(Snap());
      DispatcherCall();
    }

    /** Fill in slot s, link it to the chain of the running process, and queue it. */
    method AddProc(s: nat, pid: nat, priority: int)
      requires Wired() && Shape(Snap()) && Apart(kids) && Apart(ready) && OnNone(kids, s) && OnNone(ready, s)
      requires s < processTable.Length && 1 <= priority <= 5
      requires running.Some? ==> running.value != s
      modifies processTable, children, sibling, readyQueues, next, this`kids, this`ready
      ensures Wired()
      ensures processTable[..] ==
        old(processTable[..])[s := Proc(pid, priority, RUNNABLE, old(processTable[s].exitStatus), running)]
      ensures ready == old(ready)[priority - 1 := old(ready)[priority - 1] + [s]]
      ensures running.None? ==> kids == old(kids)
      ensures running.Some? ==> var p := running.value;
        kids == old(kids)[p :=
          if priority > old(processTable[p].priority) then old(kids)[p] + [s] else [s] + old(kids)[p]]
    {
      hide Linked, Apart, OnNone, AllLinked;
      processTable[s] := Proc(pid, priority, RUNNABLE, processTable[s].exitStatus, running);
      if running.Some? {
        LinkChild(running.value, s, priority > processTable[running.value].priority);
      }
      LinkIn(readyQueues, priority - 1, next, s, true, ready);
      ready := ready[priority - 1 := ready[priority - 1] + [s]];
    }

    method Spork(priority: int, stackOk: bool) returns (r: Result)
      requires Valid() && !halted
      modifies this, Arrays()
      ensures Valid() && (Snap(), r) == DoSpork(old(Snap()), priority, stackOk)
    {
      hide Linked, Apart, Inv, AllLinked, OnNone, FreeSlot, FirstFree, NewPid, Choice;
      ghost var t := Snap();
      SporkKeeps(t, priority, stackOk);
      InvShape(t);
      if priority < 1 || priority > 5 {
        return BadPriority;
      }
      if !stackOk {
        return SmallStack;
      }
      var slot := FindSlot();
      if slot.None? {
        return NoSlots;
      }
      var s := slot.value;
      SpareSlot(t, s);
      var pid := AllocPid();
      AddProc(s, pid, priority);
      assert Snap() == Add(t, s, pid, priority);
      if running.Some? && priority <= processTable[running.value].priority {
        AddShape(t, s, pid, priority);
        DispatcherCall();
      }
      r := Sporked(pid);
    }

    /** The new process goes to the end of its parent's chain, or to the front. */
    method LinkChild(p: nat, s: nat, atEnd: bool)
      requires Wired() && Apart(kids) && OnNone(kids, s) && p < |kids| && s < sibling.Length
      modifies children, sibling, this`kids
      ensures Wired() && kids == old(kids)[p := if atEnd then old(kids)[p] + [s] else [s] + old(kids)[p]]
    {
      hide Linked, Apart, OnNone;
      LinkIn(children, p, sibling, s, atEnd, kids);
      kids := kids[p := if atEnd then kids[p] + [s] else [s] + kids[p]];
    }

    /** The scan of join: the first terminated slot of a chain, and the one before it. */
    method FindTerminated(p: nat) returns (prev: int, child: int)
      requires Wired() && Shape(Snap()) && p < |kids|
      ensures var i := FirstTerminated(processTable[..], kids[p]);
        && child == (if i < |kids[p]| then kids[p][i] else NULL)
        && prev == if i == 0 then NULL else kids[p][i - 1]
    {
      ghost var list, i := kids[p], 0;
      assert Linked(children[..][p], sibling[..], list);
      prev, child := NULL, children[p];
      while child != NULL && processTable[child].status != TERMINATED
        invariant i <= |list| && child == (if i < |list| then list[i] else NULL)
        invariant prev == if i == 0 then NULL else list[i - 1]
        invariant forall j :: 0 <= j < i ==> processTable[list[j]].status != TERMINATED
        decreases |list| - i
      {
        LinkAt(children[p], sibling[..], list, i);
        prev, child, i := child, sibling[child], i + 1;
      }
    }

    method TakeChild(p: nat, prev: int, child: nat, ghost i: nat)
      requires Wired() && Apart(kids) && p < |kids| && i < |kids[p]| && child == kids[p][i] < processTable.Length
      requires prev == if i == 0 then NULL else kids[p][i - 1]
      modifies children, sibling, processTable, this`kids, this`reaped
      ensures Wired() && kids == old(kids)[p := Without(old(kids)[p], i)]
      ensures processTable[..] == old(processTable[..])[child := old(processTable[child]).(pid := UNUSED)]
      ensures reaped ==
        old(reaped) +
        [Exit(old(processTable[child].pid), old(processTable[child].exitStatus), old(processTable[p].pid))]
    {
      hide Linked, Apart, OnNone;
      reaped := reaped + [Exit(processTable[child].pid, processTable[child].exitStatus, processTable[p].pid)];
      TakeOut(children, p, sibling, prev, child, kids, i);
      kids := kids[p := Without(kids[p], i)];
      processTable[child] := processTable[child].(pid := UNUSED);
    }

    method Join(statusIsNull: bool) returns (r: Result)
      requires Valid() && !halted && running.Some?
      modifies this, Arrays()
      ensures Valid() && (Snap(), r) == DoJoin(old(Snap()), statusIsNull)
    {
      hide Apart, Inv, Linked, AllLinked;
      ghost var t := Snap();
      JoinKeeps(t, statusIsNull);
      InvShape(t);
      ListsApart(t);
      if statusIsNull {
        return NullStatus;
      }
      var p := running.value;
      HeadOf(p);
      if children[p] == NULL {
        return NoChildren;
      }
      var prev, child := FindTerminated(p);
      ghost var i := FirstTerminated(processTable[..], kids[p]);
      if child != NULL {
        r := Result.Reaped(processTable[child].pid, processTable[child].exitStatus);
        TakeChild(p, prev, child, i);
        assert Snap() == Reap(t, p, i);
      } else {
        processTable[p] := processTable[p].(status := BLOCKED);
        ghost var u := t.(procs := t.procs[p := t.procs[p].(status := BLOCKED)]);
        assert Snap() == u;
        BlockShape(t, p);
        DispatcherCall();
        r := JoinBlocks;
      }
    }

    lemma HeadOf(p: nat)
      requires Wired() && p < |kids|
      ensures p < children.Length && children[p] == if kids[p] == [] then NULL else kids[p][0]
    {
      assert Linked(children[..][p], sibling[..], kids[p]);
    }

    /** The caller terminates, a parent blocked in join is woken, and the caller leaves its ready queue. */
    method MarkQuit(c: nat, status: int)
      requires Wired() && Shape(Snap()) && Apart(ready) && c < processTable.Length
        && 1 <= processTable[c].priority <= NUM_PRIORITIES
      modifies processTable, readyQueues, next, this`quits, this`ready
      ensures Wired() && Snap() == Terminate(old(Snap()), c, status)
    {
      hide Apart, Linked, AllLinked;
      ghost var t := Snap();
      var parent := processTable[c].parent;
      ParentInTable(t, c);
      quits := quits +
        [Exit(processTable[c].pid, status, if parent.Some? then processTable[parent.value].pid else UNUSED)];
      processTable[c] := processTable[c].(status := TERMINATED, exitStatus := status);
      if parent.Some? && processTable[parent.value].status == BLOCKED {
        processTable[parent.value] := processTable[parent.value].(status := RUNNABLE);
      }
      var q := processTable[c].priority - 1;
      FindAndTakeOut(readyQueues, q, next, c, ready);
      ready := ready[q := Removed(ready[q], c)];
    }

    method Quit(status: int) returns (r: Result)
      requires Valid() && !halted && running.Some?
      modifies this, Arrays()
      ensures Callable(old(Snap()), Call.Quit(status))
      ensures Valid() && (Snap(), r) == DoQuit(old(Snap()), status)
    {
      hide Apart, Inv, Linked, AllLinked;
      ghost var t := Snap();
      RunningMayCall(t, Call.Quit(status));
      QuitKeeps(t, status);
      InvShape(t);
      ListsApart(t);
      var c := running.value;
      HeadOf(c);
      if children[c] != NULL {
        halted := true;
        return Halted;
      }
      MarkQuit(c, status);
      TerminateShape(t, c, status);
      DispatcherCall();
      r := Ended;
    }
  }

  lemma InitialLinks(n: nat, children: seq<int>, sibling: seq<int>, heads: seq<int>, next: seq<int>)
    requires n >= 2 && |children| == n && (forall p :: 0 <= p < n ==> children[p] == NULL)
    requires |next| == n && next[1] == NULL && heads == [NULL, NULL, NULL, NULL, NULL, 1]
    ensures AllLinked(children, sibling, Initial(n).kids) && AllLinked(heads, next, Initial(n).ready)
  {}

  lemma InvShape(t: Table)
    requires Inv(t)
    ensures Shape(t)
  {}

  /** A slot has one parent and one priority, so no two chains, and no two queues, share a slot. */
  lemma ListsApart(t: Table)
    requires Inv(t)
    ensures Apart(t.kids) && Apart(t.ready)
  {
    assert forall p :: 0 <= p < |t.kids| ==> Chain(t.procs, p, t.kids[p]);
    forall p, c | 0 <= p < |t.kids| && c in t.kids[p] ensures c < |t.procs| && t.procs[c].parent == Some(p) {
      assert ChildOf(t.procs, c, p);
    }
    assert forall q :: 0 <= q < |t.ready| ==> Queue(t.procs, q, t.ready[q]);
  }

  /** The slot spork finds is on no chain and in no queue, and is not the caller's. */
  lemma SpareSlot(t: Table, s: nat)
    requires Inv(t) && !t.halted && FreeSlot(t.procs, t.nextPid % |t.procs|) == Some(s)
    ensures s < |t.procs| && t.procs[s].pid == UNUSED && t.running != Some(s)
    ensures Apart(t.kids) && Apart(t.ready) && OnNone(t.kids, s) && OnNone(t.ready, s)
  {
    ListsApart(t);
    forall p | 0 <= p < |t.kids| ensures s !in t.kids[p] {
      assert Chain(t.procs, p, t.kids[p]);
      UnusedOffChain(t.procs, s, p, t.kids[p]);
    }
    assert forall q :: 0 <= q < |t.ready| ==> Queue(t.procs, q, t.ready[q]);
  }

  lemma ParentInTable(t: Table, c: nat)
    requires Shape(t) && c < |t.procs|
    ensures ParentBelow(t.procs[c], |t.procs|)
  {}

  lemma AddShape(t: Table, s: nat, pid: nat, priority: int)
    requires Inv(t) && !t.halted && s < |t.procs| && t.procs[s].pid == UNUSED && pid >= t.nextPid && 1 <= priority <= 5
    ensures Shape(Add(t, s, pid, priority))
  {
    AddKeeps(t, s, pid, priority);
  }

  lemma BlockShape(t: Table, p: nat)
    requires Inv(t) && t.running == Some(p) && !t.halted && t.kids[p] != []
    ensures Shape(t.(procs := t.procs[p := t.procs[p].(status := BLOCKED)]))
  {
    BlockKeeps(t, p);
  }

  lemma TerminateShape(t: Table, c: nat, status: int)
    requires Inv(t) && t.running == Some(c) && !t.halted && t.kids[c] == []
      && 1 <= t.procs[c].priority <= NUM_PRIORITIES
    ensures Shape(Terminate(t, c, status))
  {
    TerminateKeeps(t, c, status);
  }
}
