/**
  What the calls of phase 1b answer: who runs after each of them, what each changes, which child
  join returns, and what the answers of a whole run have to do with the calls made in it.
 */
module ProcessCalls {
  import opened Wrappers
  import opened ProcessTable
  import opened ProcessForest
  import opened ProcessRuns

  // --- who runs next ------------------------------------------------------------------------------

  /** The head of the first ready queue whose head is not blocked. */
  ghost predicate FirstHead(t: Table, next: Option<nat>)
    requires Shape(t)
  {
    match next
    case None => forall q :: 0 <= q < NUM_PRIORITIES ==> Idle(t, q)
    case Some(c) =>
      exists q :: 0 <= q < NUM_PRIORITIES && !Idle(t, q) && t.ready[q][0] == c && forall p :: 0 <= p < q ==> Idle(t, p)
  }

  lemma FirstHeadIsOne(t: Table, a: Option<nat>, b: Option<nat>)
    requires Shape(t) && FirstHead(t, a) && FirstHead(t, b)
    ensures a == b
  {
    if a.Some? && b.Some? {
      var p :| 0 <= p < NUM_PRIORITIES && !Idle(t, p) && t.ready[p][0] == a.value
        && forall i :: 0 <= i < p ==> Idle(t, i);
      var q :| 0 <= q < NUM_PRIORITIES && !Idle(t, q) && t.ready[q][0] == b.value
        && forall i :: 0 <= i < q ==> Idle(t, i);
      assert !(p < q) && !(q < p);
    }
  }

  lemma ChoiceIsFirst(t: Table)
    requires Shape(t)
    ensures FirstHead(t, Choice(t, 0))
  {
    var p := ChoiceIsFirstHead(t, 0);
  }

  /** The calls that end in the dispatcher, told before they are made. */
  ghost predicate GivesWay(t: Table, call: Call)
    requires Callable(t, call)
  {
    match call
    case Dispatcher => true
    case Spork(priority, stackOk) =>
      && 1 <= priority <= 5 && stackOk && (exists s :: 0 <= s < |t.procs| && !Taken(t.procs, s))
      && t.running.Some? && priority <= t.procs[t.running.value].priority
    case Join(statusIsNull) =>
      && !statusIsNull && t.kids[t.running.value] != []
      && forall i :: 0 <= i < |t.kids[t.running.value]| ==> Alive(t, t.kids[t.running.value][i])
    case Quit(_) => t.kids[t.running.value] == []
  }

  ghost predicate Alive(t: Table, c: nat) {
    c < |t.procs| && t.procs[c].status != TERMINATED
  }

  /** After a call of the dispatcher: the first head runs, or there is none besides the caller and the system halts. */
  ghost predicate HandedOver(caller: Option<nat>, u: Table)
    requires Shape(u)
  {
    exists next :: FirstHead(u, next) && RunsOrHalts(caller, next, u)
  }

  ghost predicate RunsOrHalts(caller: Option<nat>, next: Option<nat>, u: Table) {
    if next == None || next == caller then u.halted && u.running == caller else !u.halted && u.running == next
  }

  /** Who runs after a call, in terms of the queues it leaves. */
  ghost predicate Turns(t: Table, call: Call, u: Table)
    requires Callable(t, call) && Shape(u)
  {
    if GivesWay(t, call) then HandedOver(t.running, u) else u.running == t.running && (u.halted <==> call.Quit?)
  }

  lemma DispatchTurns(t: Table)
    requires Shape(t) && Shape(Dispatch(t)) && !t.halted
    ensures HandedOver(t.running, Dispatch(t))
  {
    ChoiceIsFirst(t);
    var u := Dispatch(t);
    assert forall q :: 0 <= q < NUM_PRIORITIES ==> (Idle(u, q) <==> Idle(t, q));
    assert FirstHead(u, Choice(t, 0)) && RunsOrHalts(t.running, Choice(t, 0), u);
  }

  lemma InvTurns(t: Table)
    requires Inv(t) && !t.halted
    ensures Shape(Dispatch(t)) && HandedOver(t.running, Dispatch(t))
  {
    NoRunningKeeps(t);
    DispatchKeeps(t);
    DispatchTurns(t);
  }

  lemma FreeSlotFound(t: Table)
    requires Shape(t)
    ensures |t.procs| > 0
    ensures var slot := FreeSlot(t.procs, t.nextPid % |t.procs|);
      && (slot.None? <==> forall s :: 0 <= s < |t.procs| ==> Taken(t.procs, s))
      && (slot.Some? ==> slot.value < |t.procs| && t.procs[slot.value].pid == UNUSED)
  {
    var d := FreeSlotIsCircularFirst(t.procs, t.nextPid % |t.procs|);
  }

  lemma AddLeavesCaller(t: Table, s: nat, pid: nat, priority: int)
    requires Inv(t) && !t.halted && s < |t.procs| && t.procs[s].pid == UNUSED && 1 <= priority <= 5
    ensures var v := Add(t, s, pid, priority);
      && v.running == t.running && v.halted == t.halted && |v.procs| == |t.procs|
      && (t.running.Some? ==> v.procs[t.running.value] == t.procs[t.running.value])
  {}

  lemma SporkTurns(t: Table, priority: int, stackOk: bool)
    requires Inv(t) && Callable(t, Spork(priority, stackOk)) && Shape(DoSpork(t, priority, stackOk).0)
    ensures Turns(t, Spork(priority, stackOk), DoSpork(t, priority, stackOk).0)
  {
    hide Inv, FreeSlot, Choice, NewPid, HandedOver, Dispatch, Add;
    FreeSlotFound(t);
    var slot := FreeSlot(t.procs, t.nextPid % |t.procs|);
    if 1 <= priority <= 5 && stackOk && slot.Some? {
      var v := Add(t, slot.value, NewPid(t.nextPid), priority);
      AddKeeps(t, slot.value, NewPid(t.nextPid), priority);
      AddLeavesCaller(t, slot.value, NewPid(t.nextPid), priority);
      InvTurns(v);
    }
  }

  lemma JoinTurns(t: Table, statusIsNull: bool)
    requires Inv(t) && Callable(t, Join(statusIsNull)) && Shape(DoJoin(t, statusIsNull).0)
    ensures Turns(t, Join(statusIsNull), DoJoin(t, statusIsNull).0)
  {
    hide Inv, Choice, HandedOver, Dispatch;
    var r := t.running.value;
    var i := FirstTerminated(t.procs, t.kids[r]);
    assert i < |t.kids[r]| ==> !Alive(t, t.kids[r][i]);
    if !statusIsNull && t.kids[r] != [] && i == |t.kids[r]| {
      BlockKeeps(t, r);
      DispatchTurns(t.(procs := t.procs[r := t.procs[r].(status := BLOCKED)]));
    }
  }

  lemma QuitTurns(t: Table, status: int)
    requires Inv(t) && Callable(t, Quit(status)) && Shape(DoQuit(t, status).0)
    ensures Turns(t, Quit(status), DoQuit(t, status).0)
  {
    hide Inv, Choice, HandedOver, Dispatch, Terminate;
    var r := t.running.value;
    if t.kids[r] == [] {
      TerminateKeeps(t, r, status);
      TerminateLogs(t, r, status);
      DispatchTurns(Terminate(t, r, status));
    }
  }

  lemma TerminateLogs(t: Table, r: nat, status: int)
    requires Shape(t) && r < |t.procs| && 1 <= t.procs[r].priority <= NUM_PRIORITIES
    ensures Terminate(t, r, status).running == t.running && Terminate(t, r, status).halted == t.halted
  {}

  /** After every call: the first head of the queues it leaves, if it ends in the dispatcher, and the caller if not. */
  lemma WhoRunsNext(t: Table, call: Call)
    requires Inv(t) && Callable(t, call)
    ensures Inv(Apply(t, call).0) && Turns(t, call, Apply(t, call).0)
  {
    StepKeeps(t, call);
    hide Forest, Queued, Pids, Statuses, Turns, DoSpork, DoJoin, DoQuit;
    match call {
      case Spork(priority, stackOk) => SporkTurns(t, priority, stackOk);
      case Join(statusIsNull) => JoinTurns(t, statusIsNull);
      case Quit(status) => QuitTurns(t, status);
      case Dispatcher => DispatcherTurns(t);
    }
  }

  lemma DispatcherTurns(t: Table)
    requires Inv(t) && Callable(t, Dispatcher)
    ensures Shape(Dispatch(t)) && Turns(t, Dispatcher, Dispatch(t))
  {
    hide Inv, Choice, HandedOver, Dispatch;
    InvTurns(t);
  }

  // --- what each call answers and changes ------------------------------------------------------------

  ghost predicate Reserved(pid: int) {
    pid > 2 && (pid % 50 == 1 || pid % 50 == 2)
  }

  /** The least pid from `next` on that is not reserved. */
  ghost predicate NextPid(pid: int, next: nat) {
    pid >= next && !Reserved(pid) && forall p :: next <= p < pid ==> Reserved(p)
  }

  /** s is the first free slot in circular order. */
  ghost predicate NextSlot(procs: seq<Proc>, start: nat, s: nat)
    requires start < |procs|
  {
    exists d ::
      && 0 <= d < |procs| && s == Around(start, d, |procs|) && !Taken(procs, s)
      && forall k :: 0 <= k < d ==> Taken(procs, Around(start, k, |procs|))
  }

  /** All of a table but its logs and whose turn it is. */
  ghost predicate IsNow(u: Table, procs: seq<Proc>, kids: seq<seq<nat>>, ready: seq<seq<nat>>, nextPid: nat) {
    u.procs == procs && u.kids == kids && u.ready == ready && u.nextPid == nextPid
  }

  ghost predicate SameLogs(t: Table, u: Table) {
    u.quits == t.quits && u.reaped == t.reaped
  }

  /**
    The new process is runnable, last in the queue of its priority, and on the chain of its
    parent: in front, unless its priority is lower than the parent's.
   */
  ghost predicate Sporks(t: Table, u: Table, s: nat, pid: int, priority: int)
    requires Shape(t) && s < |t.procs| && 1 <= priority <= 5
  {
    && NextPid(pid, t.nextPid) && SameLogs(t, u)
    && IsNow(u,
         t.procs[s := Proc(pid, priority, 0, t.procs[s].exitStatus, t.running)],
         match t.running
         case None => t.kids
         case Some(r) => t.kids[r := if priority <= t.procs[r].priority then [s] + t.kids[r] else t.kids[r] + [s]],
         t.ready[priority - 1 := t.ready[priority - 1] + [s]],
         pid + 1)
  }

  ghost predicate SporkAnswers(t: Table, priority: int, stackOk: bool, u: Table, r: Result)
    requires Shape(t)
  {
    if priority < 1 || priority > 5 then r == BadPriority && u == t
    else if !stackOk then r == SmallStack && u == t
    else if forall s :: 0 <= s < |t.procs| ==> Taken(t.procs, s) then r == NoSlots && u == t
    else r.Sporked? && exists s: nat ::
      s < |t.procs| && NextSlot(t.procs, t.nextPid % |t.procs|, s) && Sporks(t, u, s, r.pid, priority)
  }

  /** The first terminated child in list order. */
  ghost predicate FirstDead(t: Table, kids: seq<nat>, i: nat) {
    i < |kids| && kids[i] < |t.procs| && !Alive(t, kids[i]) && forall j :: 0 <= j < i ==> Alive(t, kids[j])
  }

  ghost predicate Reaps(t: Table, u: Table, p: nat, i: nat, r: Result)
    requires Shape(t) && p < |t.procs| && i < |t.kids[p]|
  {
    var c, list := t.kids[p][i], t.kids[p];
    && r == Result.Reaped(t.procs[c].pid, t.procs[c].exitStatus)
    && IsNow(u, t.procs[c := t.procs[c].(pid := -1)], t.kids[p := list[..i] + list[i + 1..]], t.ready, t.nextPid)
    && u.quits == t.quits && u.reaped == t.reaped + [Exit(r.pid, r.status, t.procs[p].pid)]
  }

  /** The caller reaps its first terminated child, or blocks if it has children but none that terminated. */
  ghost predicate JoinAnswers(t: Table, statusIsNull: bool, u: Table, r: Result)
    requires Shape(t) && t.running.Some?
  {
    var p := t.running.value;
    if statusIsNull then r == NullStatus && u == t
    else if t.kids[p] == [] then r == NoChildren && u == t
    else if forall i :: 0 <= i < |t.kids[p]| ==> Alive(t, t.kids[p][i]) then
      && r == JoinBlocks && SameLogs(t, u)
      && IsNow(u, t.procs[p := t.procs[p].(status := 1)], t.kids, t.ready, t.nextPid)
    else exists i: nat :: FirstDead(t, t.kids[p], i) && Reaps(t, u, p, i, r)
  }

  /** The place of r in a queue. */
  ghost predicate PlaceOf(list: seq<nat>, r: nat, i: nat) {
    i < |list| && list[i] == r && r !in list[..i]
  }

  ghost predicate Ends(t: Table, u: Table, r: nat, status: int)
    requires Shape(t) && r < |t.procs| && 1 <= t.procs[r].priority <= NUM_PRIORITIES
  {
    var p, q := t.procs[r], t.ready[t.procs[r].priority - 1];
    && |u.procs| == |t.procs|
    && u.procs[r] == p.(status := -1, exitStatus := status)
    && (forall s :: 0 <= s < |t.procs| && s != r ==>
         u.procs[s] == if p.parent == Some(s) && t.procs[s].status == 1 then t.procs[s].(status := 0) else t.procs[s])
    && (exists i: nat :: PlaceOf(q, r, i) &&
          IsNow(u, u.procs, t.kids, t.ready[p.priority - 1 := q[..i] + q[i + 1..]], t.nextPid))
    && u.reaped == t.reaped
    && u.quits == t.quits + [Exit(p.pid, status, if p.parent == None then -1 else t.procs[p.parent.value].pid)]
  }

  /** A caller with children halts the system; any other terminates, with this status, and wakes a blocked parent. */
  ghost predicate QuitAnswers(t: Table, status: int, u: Table, r: Result)
    requires Shape(t) && t.running.Some? && 1 <= t.procs[t.running.value].priority <= NUM_PRIORITIES
  {
    var p := t.running.value;
    if t.kids[p] != [] then r == Halted && u == t.(halted := true) else r == Ended && Ends(t, u, p, status)
  }

  /** What is promised of a call: whose turn it is afterwards, its answer, and the rest of the table. */
  ghost predicate Promised(t: Table, call: Call, u: Table, r: Result)
    requires Callable(t, call)
  {
    && Shape(u) && Turns(t, call, u)
    && match call
       case Spork(priority, stackOk) => SporkAnswers(t, priority, stackOk, u, r)
       case Join(statusIsNull) => JoinAnswers(t, statusIsNull, u, r)
       case Quit(status) => QuitAnswers(t, status, u, r)
       case Dispatcher =>
         r == Switched && SameLogs(t, u) && IsNow(u, t.procs, t.kids, t.ready, t.nextPid)
  }

  lemma DispatchChanges(t: Table)
    requires Shape(t)
    ensures SameLogs(t, Dispatch(t)) && IsNow(Dispatch(t), t.procs, t.kids, t.ready, t.nextPid)
  {}

  lemma FreeSlotIsNext(t: Table)
    requires Shape(t)
    ensures var slot := FreeSlot(t.procs, t.nextPid % |t.procs|);
      slot.Some? ==> NextSlot(t.procs, t.nextPid % |t.procs|, slot.value)
  {
    var d := FreeSlotIsCircularFirst(t.procs, t.nextPid % |t.procs|);
  }

  lemma AddSporks(t: Table, s: nat, pid: nat, priority: int)
    requires Shape(t) && s < |t.procs| && 1 <= priority <= 5 && NextPid(pid, t.nextPid)
    ensures Sporks(t, Add(t, s, pid, priority), s, pid, priority)
  {
    hide NextPid;
  }

  /** The dispatcher changes nothing else. */
  lemma SporksAndTurns(t: Table, v: Table, s: nat, pid: int, priority: int)
    requires Shape(t) && Shape(v) && s < |t.procs| && 1 <= priority <= 5 && Sporks(t, v, s, pid, priority)
    ensures Sporks(t, Dispatch(v), s, pid, priority)
  {
    hide NextPid, Shape, Choice;
  }

  lemma NewPidIsNext(next: nat)
    ensures NextPid(NewPid(next), next)
  {}

  lemma SporkKeepsPromise(t: Table, priority: int, stackOk: bool)
    requires Inv(t) && Callable(t, Spork(priority, stackOk))
    ensures var (u, r) := DoSpork(t, priority, stackOk); SporkAnswers(t, priority, stackOk, u, r)
  {
    hide Inv, FreeSlot, Choice, Dispatch, NextSlot, Add, Sporks, NextPid, NewPid, Shape;
    FreeSlotFound(t);
    FreeSlotIsNext(t);
    var slot, pid := FreeSlot(t.procs, t.nextPid % |t.procs|), NewPid(t.nextPid);
    if 1 <= priority <= 5 && stackOk && slot.Some? {
      NewPidIsNext(t.nextPid);
      AddKeeps(t, slot.value, pid, priority);
      AddSporks(t, slot.value, pid, priority);
      SporkShape(t, slot.value, pid, priority);
      SporksAndTurns(t, Add(t, slot.value, pid, priority), slot.value, pid, priority);
    }
  }

  lemma SporkShape(t: Table, s: nat, pid: nat, priority: int)
    requires Shape(t) && s < |t.procs| && 1 <= priority <= 5 && Inv(Add(t, s, pid, priority))
    ensures Shape(Add(t, s, pid, priority))
  {
    hide Add;
  }

  lemma JoinKeepsPromise(t: Table, statusIsNull: bool)
    requires Inv(t) && Callable(t, Join(statusIsNull))
    ensures var (u, r) := DoJoin(t, statusIsNull); JoinAnswers(t, statusIsNull, u, r)
  {
    hide Forest, Queued, Pids, Statuses, Choice, Dispatch;
    var p := t.running.value;
    var i := FirstTerminated(t.procs, t.kids[p]);
    if i < |t.kids[p]| {
      assert FirstDead(t, t.kids[p], i);
      assert Reaps(t, Reap(t, p, i), p, i, Result.Reaped(t.procs[t.kids[p][i]].pid, t.procs[t.kids[p][i]].exitStatus));
    } else if t.kids[p] != [] {
      BlockKeeps(t, p);
      DispatchChanges(t.(procs := t.procs[p := t.procs[p].(status := BLOCKED)]));
    }
  }

  /** Taking out the first occurrence. */
  lemma {:induction false} RemovedAt(list: seq<nat>, r: nat) returns (i: nat)
    requires r in list
    ensures PlaceOf(list, r, i) && Removed(list, r) == list[..i] + list[i + 1..]
  {
    if list[0] == r {
      i := 0;
    } else {
      var rest := list[1..];
      var j := RemovedAt(rest, r);
      i := j + 1;
      PlaceAfter(list[0], rest, r, j);
      assert list == [list[0]] + rest;
    }
  }

  lemma PlaceAfter(x: nat, rest: seq<nat>, r: nat, j: nat)
    requires PlaceOf(rest, r, j) && x != r
    ensures var list := [x] + rest;
      PlaceOf(list, r, j + 1) && [x] + (rest[..j] + rest[j + 1..]) == list[..j + 1] + list[j + 2..]
  {
    var list := [x] + rest;
    assert list[..j + 1] == [x] + rest[..j] && list[j + 2..] == rest[j + 1..];
  }

  lemma QuitKeepsPromise(t: Table, status: int)
    requires Inv(t) && Callable(t, Quit(status))
    ensures var (u, r) := DoQuit(t, status); QuitAnswers(t, status, u, r)
  {
    hide Forest, Pids, Choice, Dispatch, Queue, Removed;
    var p := t.running.value;
    if t.kids[p] == [] {
      var q, v := t.procs[p].priority - 1, Terminate(t, p, status);
      assert InQueue(t.procs[p], p, t.ready);
      var i := RemovedAt(t.ready[q], p);
      TerminateKeeps(t, p, status);
      DispatchChanges(v);
      assert IsNow(v, v.procs, t.kids, t.ready[q := t.ready[q][..i] + t.ready[q][i + 1..]], t.nextPid);
      assert Ends(t, v, p, status);
    }
  }

  lemma KeepsPromise(t: Table, call: Call)
    requires Inv(t) && Callable(t, call)
    ensures var (u, r) := Apply(t, call); Promised(t, call, u, r)
  {
    WhoRunsNext(t, call);
    hide Inv, Turns, SporkAnswers, JoinAnswers, QuitAnswers, DoSpork, DoJoin, DoQuit;
    match call {
      case Spork(priority, stackOk) => SporkKeepsPromise(t, priority, stackOk);
      case Join(statusIsNull) => JoinKeepsPromise(t, statusIsNull);
      case Quit(status) => QuitKeepsPromise(t, status);
      case Dispatcher => DispatchChanges(t);
    }
  }

  /** Equal but for whose turn it is. */
  ghost predicate AlikeButTurn(u: Table, v: Table) {
    u == v.(running := u.running, halted := u.halted)
  }

  lemma TurnsDecide(t: Table, call: Call, u: Table, v: Table)
    requires Callable(t, call) && Shape(u) && Shape(v) && AlikeButTurn(u, v) && Turns(t, call, u) && Turns(t, call, v)
    ensures u == v
  {
    if GivesWay(t, call) {
      var a :| FirstHead(u, a) && RunsOrHalts(t.running, a, u);
      var b :| FirstHead(v, b) && RunsOrHalts(t.running, b, v);
      assert forall q :: 0 <= q < NUM_PRIORITIES ==> (Idle(u, q) <==> Idle(v, q));
      assert FirstHead(u, b);
      FirstHeadIsOne(u, a, b);
    }
  }

  lemma SlotsDecide(procs: seq<Proc>, start: nat, a: nat, b: nat)
    requires start < |procs| && NextSlot(procs, start, a) && NextSlot(procs, start, b)
    ensures a == b
  {}

  lemma SporkDecides(t: Table, priority: int, stackOk: bool, u: Table, r: Result, v: Table, q: Result)
    requires Shape(t) && SporkAnswers(t, priority, stackOk, u, r) && SporkAnswers(t, priority, stackOk, v, q)
    ensures r == q && AlikeButTurn(u, v)
  {
    hide NextSlot;
    if r.Sporked? {
      var n := t.nextPid % |t.procs|;
      var a: nat :| a < |t.procs| && NextSlot(t.procs, n, a) && Sporks(t, u, a, r.pid, priority);
      var b: nat :| b < |t.procs| && NextSlot(t.procs, n, b) && Sporks(t, v, b, q.pid, priority);
      SlotsDecide(t.procs, n, a, b);
    }
  }

  lemma JoinDecides(t: Table, statusIsNull: bool, u: Table, r: Result, v: Table, q: Result)
    requires Shape(t) && t.running.Some? && JoinAnswers(t, statusIsNull, u, r) && JoinAnswers(t, statusIsNull, v, q)
    ensures r == q && AlikeButTurn(u, v)
  {
    var kids := t.kids[t.running.value];
    if r.Reaped? {
      var i: nat :| FirstDead(t, kids, i) && Reaps(t, u, t.running.value, i, r);
      var j: nat :| FirstDead(t, kids, j) && Reaps(t, v, t.running.value, j, q);
      assert i == j;
    }
  }

  lemma QuitDecides(t: Table, status: int, u: Table, r: Result, v: Table, q: Result)
    requires Callable(t, Quit(status)) && QuitAnswers(t, status, u, r) && QuitAnswers(t, status, v, q)
    ensures r == q && AlikeButTurn(u, v)
  {
    hide Shape;
    if r == Ended {
      assert u.procs == v.procs;
      assert forall i: nat, j: nat, list: seq<nat>, c: nat :: PlaceOf(list, c, i) && PlaceOf(list, c, j) ==> i == j;
    }
  }

  /** The promise leaves no choice. */
  lemma PromiseDecides(t: Table, call: Call, u: Table, r: Result, v: Table, q: Result)
    requires Callable(t, call) && Promised(t, call, u, r) && Promised(t, call, v, q)
    ensures r == q && u == v
  {
    hide Shape, Turns, SporkAnswers, JoinAnswers, QuitAnswers;
    match call {
      case Spork(priority, stackOk) => SporkDecides(t, priority, stackOk, u, r, v, q);
      case Join(statusIsNull) => JoinDecides(t, statusIsNull, u, r, v, q);
      case Quit(status) => QuitDecides(t, status, u, r, v, q);
      case Dispatcher =>
    }
    TurnsDecide(t, call, u, v);
  }

  // --- the answers of a whole run -----------------------------------------------------------------------

  /** What the calls of join returned, with the pid of the caller. */
  ghost function JoinsOf(t: Table, calls: seq<Call>): seq<Exit>
    requires Inv(t) && IsRun(t, calls)
    decreases |calls|
  {
    if calls == [] then []
    else
      var (u, r) := Apply(t, calls[0]);
      StepKeeps(t, calls[0]);
      (if r.Reaped? then [Exit(r.pid, r.status, t.procs[t.running.value].pid)] else []) + JoinsOf(u, calls[1..])
  }

  /** The calls of quit: by whom, with what status, and the pid of the caller's parent. */
  ghost function QuitsOf(t: Table, calls: seq<Call>): seq<Exit>
    requires Inv(t) && IsRun(t, calls)
    decreases |calls|
  {
    if calls == [] then []
    else
      StepKeeps(t, calls[0]);
      var made := if !calls[0].Quit? || t.kids[t.running.value] != [] then []
                  else [Exit(t.procs[t.running.value].pid, calls[0].status, ParentPid(t, t.running.value))];
      made + QuitsOf(Apply(t, calls[0]).0, calls[1..])
  }

  lemma LogsStep(t: Table, call: Call)
    requires Inv(t) && Callable(t, call)
    ensures var (u, r) := Apply(t, call);
      && u.reaped == t.reaped + (if r.Reaped? then [Exit(r.pid, r.status, t.procs[t.running.value].pid)] else [])
      && u.quits == t.quits + if !call.Quit? || t.kids[t.running.value] != [] then []
                              else [Exit(t.procs[t.running.value].pid, call.status, ParentPid(t, t.running.value))]
  {
    hide Inv, Turns, NextSlot, NextPid, IsNow, Apply, Shape;
    KeepsPromise(t, call);
  }

  lemma {:induction false} LogsAreAnswers(t: Table, calls: seq<Call>)
    requires Inv(t) && IsRun(t, calls)
    ensures Run(t, calls).reaped == t.reaped + JoinsOf(t, calls)
    ensures Run(t, calls).quits == t.quits + QuitsOf(t, calls)
    decreases |calls|
  {
    hide Inv, Callable, Apply;
    if calls != [] {
      StepKeeps(t, calls[0]);
      LogsStep(t, calls[0]);
      LogsAreAnswers(Apply(t, calls[0]).0, calls[1..]);
    }
  }

  /**
    From boot: what join returns is the pid and the status of a quit by a child of its caller,
    and no quit is answered twice.
   */
  lemma JoinsAnswerQuits(maxProc: nat, calls: seq<Call>)
    requires maxProc >= 2 && IsRun(Initial(maxProc), calls)
    ensures Inv(Initial(maxProc))
    ensures var joins, quits := JoinsOf(Initial(maxProc), calls), QuitsOf(Initial(maxProc), calls);
      && (forall e :: e in joins ==> e in quits)
      && OncePerPid(joins) && OncePerPid(quits)
  {
    InitialKeeps(maxProc);
    EveryRun(maxProc, calls);
    LogsAreAnswers(Initial(maxProc), calls);
    hide Inv, Callable, Apply, Run, IsRun;
    var u := Run(Initial(maxProc), calls);
    assert u.reaped == JoinsOf(Initial(maxProc), calls) && u.quits == QuitsOf(Initial(maxProc), calls);
  }

  /** From boot: the dispatcher runs init, with pid 1; the first process it sporks has pid 2, and runs at once. */
  lemma InitComesFirst(maxProc: nat, priority: int)
    requires maxProc >= 2 && 1 <= priority <= 5
    ensures var t := Dispatch(Initial(maxProc)); var call := Spork(priority, true);
      && Callable(t, call) && t.running == Some(1) && t.procs[1].pid == 1 && t.procs[1].priority == 6
      && var (u, r) := Apply(t, call);
         && r == Sporked(2) && !u.halted
         && u.running.Some? && u.running.value < |u.procs| && u.procs[u.running.value].pid == 2
  {
    var t := Dispatch(Initial(maxProc));
    BootDispatch(maxProc);
    FreeSlotFound(t);
    assert !Taken(t.procs, 0);
    var s := FreeSlot(t.procs, 2 % maxProc).value;
    var v := Add(t, s, 2, priority);
    ChoiceOfOne(v, priority - 1, s, 0);
  }

  lemma BootDispatch(maxProc: nat)
    requires maxProc >= 2
    ensures var t := Dispatch(Initial(maxProc));
      Shape(t) && !t.halted && t.running == Some(1) && t == Initial(maxProc).(running := Some(1))
  {
    var t := Initial(maxProc);
    assert t.ready[5][0] == 1;
    ChoiceOfOne(t, 5, 1, 0);
  }

  /** All queues before q are empty, and s is the head of queue q. */
  lemma {:induction false} ChoiceOfOne(t: Table, q: nat, s: nat, from: nat)
    requires Shape(t) && from <= q < NUM_PRIORITIES && t.ready[q] != [] && t.ready[q][0] == s
    requires t.procs[s].status != BLOCKED && forall p :: from <= p < q ==> t.ready[p] == []
    ensures Choice(t, from) == Some(s)
    decreases q - from
  {
    if from < q { ChoiceOfOne(t, q, s, from + 1); }
  }
}
