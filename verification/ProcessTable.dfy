/**
  The process table of phase 1b on values: the fragment made of spork, join and quit.
  A child chain and a ready queue are the sequences of table slots they link.
 */
module ProcessTable {
  import opened Wrappers
  import opened Sequences

  const UNUSED: int := -1
  const TERMINATED: int := -1
  const RUNNABLE: int := 0
  const BLOCKED: int := 1
  const NUM_PRIORITIES: nat := 6

  datatype Proc = Proc(pid: int, priority: int, status: int, exitStatus: int, parent: Option<nat>)

  /** A termination: who, with what status, and the pid of the parent. */
  datatype Exit = Exit(pid: int, status: int, parent: int)

  /** `quits` and `reaped` log what was passed to quit and what join returned. */
  datatype Table = Table(
    procs: seq<Proc>,
    kids: seq<seq<nat>>,
    ready: seq<seq<nat>>,
    running: Option<nat>,
    nextPid: nat,
    halted: bool,
    quits: seq<Exit>,
    reaped: seq<Exit>)

  datatype Call = Spork(priority: int, stackOk: bool) | Join(statusIsNull: bool) | Quit(status: int) | Dispatcher

  datatype Result =
    | BadPriority           // -1
    | SmallStack            // -2
    | NoSlots               // -1
    | Sporked(pid: int)     // the pid, once the caller runs again
    | NullStatus            // -3
    | NoChildren            // -2
    | Reaped(pid: int, status: int)
    | JoinBlocks            // the scan is repeated when the caller runs again
    | Ended                 // quit does not return
    | Halted
    | Switched

  ghost predicate Shape(t: Table) {
    && |t.kids| == |t.procs| > 0 && |t.ready| == NUM_PRIORITIES
    && (t.running.Some? ==> t.running.value < |t.procs|)
    && (forall p :: 0 <= p < |t.kids| ==> Below(t.kids[p], |t.procs|))
    && (forall q :: 0 <= q < NUM_PRIORITIES ==> Below(t.ready[q], |t.procs|))
    && (forall s :: 0 <= s < |t.procs| ==> ParentBelow(t.procs[s], |t.procs|))
  }

  predicate ParentBelow(p: Proc, n: nat) {
    p.parent.Some? ==> p.parent.value < n
  }

  // --- pids and slots --------------------------------------------------------------------------

  predicate Skipped(pid: nat) {
    pid > 2 && (pid % 50 == 1 || pid % 50 == 2)
  }

  /** The pid the skip loop ends with: at most two are skipped. */
  function NewPid(next: nat): (pid: nat)
    ensures next <= pid <= next + 2 && !Skipped(pid)
    ensures forall p :: next <= p < pid ==> Skipped(p)
  {
    if !Skipped(next) then next else if !Skipped(next + 1) then next + 1 else next + 2
  }

  /** The first unused slot from lo up to hi. */
  function FirstFree(procs: seq<Proc>, lo: nat, hi: nat): (s: Option<nat>)
    requires lo <= hi <= |procs|
    ensures s.Some? ==> lo <= s.value < hi && procs[s.value].pid == UNUSED
    ensures forall i :: lo <= i < (if s.Some? then s.value else hi) ==> procs[i].pid != UNUSED
    decreases hi - lo
  {
    if lo == hi then None else if procs[lo].pid == UNUSED then Some(lo) else FirstFree(procs, lo + 1, hi)
  }

  /** The two-part scan: from `start` to the end, then from the beginning up to `start`. */
  function FreeSlot(procs: seq<Proc>, start: nat): Option<nat>
    requires start < |procs|
  {
    var s := FirstFree(procs, start, |procs|);
    if s.Some? then s else FirstFree(procs, 0, start)
  }

  /** The k-th slot from `start` on, in circular order: (start + k) modulo n. */
  function Around(start: nat, k: nat, n: nat): (i: nat)
    requires start < n && k < n
    ensures i < n
  {
    if start + k < n then start + k else start + k - n
  }

  predicate Taken(procs: seq<Proc>, i: nat) {
    i < |procs| && procs[i].pid != UNUSED
  }

  /** The scan fails exactly when every slot is taken, and otherwise finds the first free one in circular order. */
  lemma FreeSlotIsCircularFirst(procs: seq<Proc>, start: nat) returns (d: nat)
    requires start < |procs|
    ensures FreeSlot(procs, start).None? <==> forall i :: 0 <= i < |procs| ==> Taken(procs, i)
    ensures FreeSlot(procs, start).Some? ==>
      && d < |procs| && FreeSlot(procs, start).value == Around(start, d, |procs|)
      && !Taken(procs, Around(start, d, |procs|))
      && forall k :: 0 <= k < d ==> Taken(procs, Around(start, k, |procs|))
  {
    var n, s := |procs|, FreeSlot(procs, start);
    if s.None? {
      d := 0;
    } else {
      d := if s.value >= start then s.value - start else s.value + n - start;
      assert !Taken(procs, s.value);
    }
  }

  // --- the calls -----------------------------------------------------------------------------------

  /** The head of the first queue, in priority order, whose head is not blocked. */
  function Choice(t: Table, q: nat): Option<nat>
    requires Shape(t) && q <= NUM_PRIORITIES
    decreases NUM_PRIORITIES - q
  {
    if q == NUM_PRIORITIES then None
    else if t.ready[q] != [] && t.procs[t.ready[q][0]].status != BLOCKED then Some(t.ready[q][0])
    else Choice(t, q + 1)
  }

  /** dispatcher and contextSwitch: no choice, or the running process itself, halts the system. */
  function Dispatch(t: Table): Table
    requires Shape(t)
  {
    var next := Choice(t, 0);
    if next.None? || next == t.running then t.(halted := true) else t.(running := next)
  }

  /** A new process in slot s, linked to its parent and queued. */
  function Add(t: Table, s: nat, pid: nat, priority: int): Table
    requires Shape(t) && s < |t.procs| && 1 <= priority <= 5
  {
    var q := priority - 1;
    var u := t.(procs := t.procs[s := Proc(pid, priority, RUNNABLE, t.procs[s].exitStatus, t.running)],
                ready := t.ready[q := t.ready[q] + [s]],
                nextPid := pid + 1);
    match t.running
    case None => u
    case Some(r) =>
      u.(kids := t.kids[r := if priority > t.procs[r].priority then t.kids[r] + [s] else [s] + t.kids[r]])
  }

  function DoSpork(t: Table, priority: int, stackOk: bool): (Table, Result)
    requires Shape(t)
  {
    if priority < 1 || priority > 5 then (t, BadPriority)
    else if !stackOk then (t, SmallStack)
    else
      match FreeSlot(t.procs, t.nextPid % |t.procs|)
      case None => (t, NoSlots)
      case Some(s) =>
        var pid := NewPid(t.nextPid);
        var u := Add(t, s, pid, priority);
        (if t.running.Some? && priority <= u.procs[t.running.value].priority then Dispatch(u) else u, Sporked(pid))
  }

  /** Position of the first terminated child, or the number of children. */
  function FirstTerminated(procs: seq<Proc>, kids: seq<nat>): (i: nat)
    requires Below(kids, |procs|)
    ensures i <= |kids|
    ensures forall j :: 0 <= j < i ==> procs[kids[j]].status != TERMINATED
    ensures i < |kids| ==> procs[kids[i]].status == TERMINATED
  {
    if kids == [] || procs[kids[0]].status == TERMINATED then 0 else 1 + FirstTerminated(procs, kids[1..])
  }

  function Without<T>(list: seq<T>, i: nat): seq<T>
    requires i < |list|
  {
    list[..i] + list[i + 1..]
  }

  function Reap(t: Table, r: nat, i: nat): Table
    requires Shape(t) && r < |t.procs| && i < |t.kids[r]|
  {
    var c := t.kids[r][i];
    t.(procs := t.procs[c := t.procs[c].(pid := UNUSED)],
       kids := t.kids[r := Without(t.kids[r], i)],
       reaped := t.reaped + [Exit(t.procs[c].pid, t.procs[c].exitStatus, t.procs[r].pid)])
  }

  function DoJoin(t: Table, statusIsNull: bool): (Table, Result)
    requires Shape(t) && t.running.Some?
  {
    var r := t.running.value;
    if statusIsNull then (t, NullStatus)
    else if t.kids[r] == [] then (t, NoChildren)
    else
      var i := FirstTerminated(t.procs, t.kids[r]);
      if i < |t.kids[r]| then
        var c := t.kids[r][i];
        (Reap(t, r, i), Result.Reaped(t.procs[c].pid, t.procs[c].exitStatus))
      else (Dispatch(t.(procs := t.procs[r := t.procs[r].(status := BLOCKED)])), JoinBlocks)
  }

  /** Mark the caller terminated, wake a parent blocked in join, and leave the ready queue. */
  function Terminate(t: Table, r: nat, status: int): Table
    requires Shape(t) && r < |t.procs| && 1 <= t.procs[r].priority <= NUM_PRIORITIES
  {
    var p := t.procs[r];
    var dead := t.procs[r := p.(status := TERMINATED, exitStatus := status)];
    var q := p.priority - 1;
    t.(procs := if p.parent.Some? && dead[p.parent.value].status == BLOCKED
                then dead[p.parent.value := dead[p.parent.value].(status := RUNNABLE)] else dead,
       ready := t.ready[q := Removed(t.ready[q], r)],
       quits := t.quits + [Exit(p.pid, status, if p.parent.Some? then t.procs[p.parent.value].pid else UNUSED)])
  }

  /** The first occurrence of s taken out. */
  function Removed(list: seq<nat>, s: nat): (rest: seq<nat>)
    ensures forall i :: 0 <= i < |rest| ==> rest[i] in list
  {
    if list == [] then [] else if list[0] == s then list[1..] else [list[0]] + Removed(list[1..], s)
  }

  function DoQuit(t: Table, status: int): (Table, Result)
    requires Shape(t) && t.running.Some? && 1 <= t.procs[t.running.value].priority <= NUM_PRIORITIES
  {
    var r := t.running.value;
    if t.kids[r] != [] then (t.(halted := true), Halted) else (Dispatch(Terminate(t, r, status)), Ended)
  }

  /** Calls made by the running process; before the first dispatch there is none. */
  ghost predicate Callable(t: Table, call: Call) {
    && Shape(t) && !t.halted
    && (call.Join? || call.Quit? ==> t.running.Some?)
    && (call.Quit? ==> 1 <= t.procs[t.running.value].priority <= NUM_PRIORITIES)
  }

  function Apply(t: Table, call: Call): (Table, Result)
    requires Callable(t, call)
  {
    match call
    case Spork(priority, stackOk) => DoSpork(t, priority, stackOk)
    case Join(statusIsNull) => DoJoin(t, statusIsNull)
    case Quit(status) => DoQuit(t, status)
    case Dispatcher => (Dispatch(t), Switched)
  }

  /** phase1_init: only init, in slot 1, with pid 1 and priority 6. */
  function Initial(maxProc: nat): Table
    requires maxProc >= 2
  {
    Table(seq(maxProc, s => if s == 1 then Proc(1, 6, RUNNABLE, 0, None) else Proc(UNUSED, 0, TERMINATED, 0, None)),
          seq(maxProc, s => []), [[], [], [], [], [], [1]], None, 2, false, [], [])
  }
}
