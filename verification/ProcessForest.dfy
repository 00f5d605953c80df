/**
  What every run of spork, join and quit keeps: the children form a forest, the ready
  queues hold the live processes in pid order, pids are never reused, and every
  terminated child is reaped at most once, by its parent.
 */
module ProcessForest {
  import opened Wrappers
  import opened Sequences
  import opened ProcessTable

  predicate Live(p: Proc) {
    p.pid != UNUSED && p.status != TERMINATED
  }

  /** c is a child of p: it points at p, and p is alive and older. */
  ghost predicate ChildOf(procs: seq<Proc>, c: nat, p: nat) {
    && c < |procs| && p < |procs|
    && procs[c].pid != UNUSED && procs[c].parent == Some(p)
    && Live(procs[p]) && procs[p].pid < procs[c].pid
  }

  ghost predicate Chain(procs: seq<Proc>, p: nat, list: seq<nat>) {
    (forall c :: c in list ==> ChildOf(procs, c, p)) && Distinct(list)
  }

  ghost predicate OnChain(p: Proc, s: nat, kids: seq<seq<nat>>) {
    p.pid != UNUSED && p.parent.Some? ==> p.parent.value < |kids| && s in kids[p.parent.value]
  }

  /** Every used slot with a parent is on exactly one chain, its parent's. */
  ghost predicate Forest(procs: seq<Proc>, kids: seq<seq<nat>>) {
    && |kids| == |procs|
    && (forall p :: 0 <= p < |kids| ==> Chain(procs, p, kids[p]))
    && (forall s :: 0 <= s < |procs| ==> OnChain(procs[s], s, kids))
  }

  ghost predicate ByPid(procs: seq<Proc>, list: seq<nat>)
    requires Below(list, |procs|)
  {
    forall i, j :: 0 <= i < j < |list| ==> procs[list[i]].pid < procs[list[j]].pid
  }

  ghost predicate Queue(procs: seq<Proc>, q: nat, list: seq<nat>) {
    && Below(list, |procs|)
    && (forall s :: s in list && s < |procs| ==> Live(procs[s]) && procs[s].priority == q + 1)
    && ByPid(procs, list)
  }

  ghost predicate InQueue(p: Proc, s: nat, ready: seq<seq<nat>>) {
    Live(p) ==> 1 <= p.priority <= |ready| && s in ready[p.priority - 1]
  }

  /** Queue q holds exactly the live processes of priority q + 1, oldest pid first. */
  ghost predicate Queued(procs: seq<Proc>, ready: seq<seq<nat>>) {
    && |ready| == NUM_PRIORITIES
    && (forall q :: 0 <= q < NUM_PRIORITIES ==> Queue(procs, q, ready[q]))
    && (forall s :: 0 <= s < |procs| ==> InQueue(procs[s], s, ready))
  }

  ghost predicate Pids(procs: seq<Proc>, nextPid: nat) {
    && (forall s :: 0 <= s < |procs| && procs[s].pid != UNUSED ==> 0 < procs[s].pid < nextPid)
    && (forall s, u :: 0 <= s < u < |procs| && procs[s].pid != UNUSED ==> procs[s].pid != procs[u].pid)
  }

  ghost predicate StatusOk(p: Proc, kids: seq<nat>) {
    && (p.status == TERMINATED || p.status == RUNNABLE || p.status == BLOCKED)
    && (p.pid == UNUSED ==> p.status == TERMINATED)
    && (p.status == BLOCKED ==> kids != [])
  }

  /** A process blocked in join has children; the running process is runnable. */
  ghost predicate Statuses(t: Table)
    requires Shape(t)
  {
    && (forall s :: 0 <= s < |t.procs| ==> StatusOk(t.procs[s], t.kids[s]))
    && (t.running.Some? && !t.halted ==>
       t.procs[t.running.value].pid != UNUSED && t.procs[t.running.value].status == RUNNABLE)
  }

  ghost predicate Inv(t: Table) {
    Shape(t) && t.nextPid > 0 && Forest(t.procs, t.kids) && Queued(t.procs, t.ready) && Pids(t.procs, t.nextPid)
      && Statuses(t)
  }

  // --- dispatcher --------------------------------------------------------------------------------

  lemma {:induction false} ChoiceIsRunnable(t: Table, q: nat)
    requires Inv(t) && q <= NUM_PRIORITIES
    ensures Choice(t, q).Some? ==>
      Choice(t, q).value < |t.procs| && t.procs[Choice(t, q).value].pid != UNUSED
      && t.procs[Choice(t, q).value].status == RUNNABLE
    decreases NUM_PRIORITIES - q
  {
    if q < NUM_PRIORITIES {
      ChoiceIsRunnable(t, q + 1);
      if t.ready[q] != [] {
        assert t.ready[q][0] in t.ready[q];
        assert StatusOk(t.procs[t.ready[q][0]], t.kids[t.ready[q][0]]);
      }
    }
  }

  /** Nothing to run at the head of queue q. */
  ghost predicate Idle(t: Table, q: nat)
    requires Shape(t) && q < NUM_PRIORITIES
  {
    t.ready[q] == [] || t.procs[t.ready[q][0]].status == BLOCKED
  }

  /** The dispatcher takes the head of queue p; it is not blocked, and no queue before p has such a head. */
  lemma {:induction false} ChoiceIsFirstHead(t: Table, q: nat) returns (p: nat)
    requires Shape(t) && q <= NUM_PRIORITIES
    ensures q <= p <= NUM_PRIORITIES && forall p' :: q <= p' < p ==> Idle(t, p')
    ensures p == NUM_PRIORITIES ==> Choice(t, q).None?
    ensures p < NUM_PRIORITIES ==> !Idle(t, p) && Choice(t, q) == Some(t.ready[p][0])
    decreases NUM_PRIORITIES - q
  {
    p := q;
    if q < NUM_PRIORITIES && Idle(t, q) {
      p := ChoiceIsFirstHead(t, q + 1);
    }
  }

  /** Switching away from a process that may just have blocked. */
  ghost predicate Switchable(t: Table) {
    Inv(t.(running := None))
  }

  lemma DispatchKeeps(t: Table)
    requires Shape(t) && Switchable(t)
    ensures Inv(Dispatch(t))
  {
    ChoiceIsRunnable(t.(running := None), 0);
    SameChoice(t, 0);
  }

  lemma {:induction false} SameChoice(t: Table, q: nat)
    requires Shape(t) && q <= NUM_PRIORITIES
    ensures Choice(t.(running := None), q) == Choice(t, q)
    decreases NUM_PRIORITIES - q
  {
    if q < NUM_PRIORITIES {
      SameChoice(t, q + 1);
    }
  }

  // --- spork ------------------------------------------------------------------------------------------

  /** A chain survives changes to slots that are not on it, as long as its parent stays alive with its pid. */
  lemma ChainFrame(procs: seq<Proc>, procs': seq<Proc>, p: nat, list: seq<nat>)
    requires Chain(procs, p, list) && |procs'| == |procs|
    requires forall c :: c in list ==> procs'[c].pid == procs[c].pid && procs'[c].parent == procs[c].parent
    requires list != [] ==> p < |procs| && Live(procs'[p]) && procs'[p].pid == procs[p].pid
    ensures Chain(procs', p, list)
  {
    forall c | c in list ensures ChildOf(procs', c, p) {
      assert ChildOf(procs, c, p);
    }
  }

  /** An unused slot is on no chain, and has none. */
  lemma UnusedOffChain(procs: seq<Proc>, s: nat, p: nat, list: seq<nat>)
    requires Chain(procs, p, list) && s < |procs| && procs[s].pid == UNUSED
    ensures s !in list && (p == s ==> list == [])
  {
    if list != [] { assert ChildOf(procs, list[0], p); }
  }

  lemma ParentAlive(procs: seq<Proc>, p: nat, list: seq<nat>)
    requires Chain(procs, p, list) && list != []
    ensures p < |procs| && Live(procs[p])
  {
    assert ChildOf(procs, list[0], p);
  }

  lemma AddKeepsChain(t: Table, s: nat, pid: nat, priority: int, p: nat)
    requires Inv(t) && s < |t.procs| && t.procs[s].pid == UNUSED && pid >= t.nextPid && 1 <= priority <= 5
      && p < |t.kids|
    requires t.running.Some? ==> Live(t.procs[t.running.value])
    ensures Chain(Add(t, s, pid, priority).procs, p, Add(t, s, pid, priority).kids[p])
  {
    hide Queued, Statuses;
    var u, list := Add(t, s, pid, priority), t.kids[p];
    assert Chain(t.procs, p, list);
    UnusedOffChain(t.procs, s, p, list);
    if list != [] { ParentAlive(t.procs, p, list); }
    ChainFrame(t.procs, u.procs, p, list);
    if t.running == Some(p) {
      assert ChildOf(u.procs, s, p);
      hide Shape, Forest, Pids;
      assert forall c :: c in u.kids[p] <==> c in list || c == s;
    }
  }

  lemma AddKeepsForest(t: Table, s: nat, pid: nat, priority: int)
    requires Inv(t) && s < |t.procs| && t.procs[s].pid == UNUSED && pid >= t.nextPid && 1 <= priority <= 5
    requires t.running.Some? ==> Live(t.procs[t.running.value])
    ensures Forest(Add(t, s, pid, priority).procs, Add(t, s, pid, priority).kids)
  {
    hide Queued, Statuses, Chain, Pids;
    var u := Add(t, s, pid, priority);
    forall p | 0 <= p < |t.kids| ensures Chain(u.procs, p, u.kids[p]) {
      AddKeepsChain(t, s, pid, priority, p);
    }
    forall c | 0 <= c < |u.procs| ensures OnChain(u.procs[c], c, u.kids) {
      assert OnChain(t.procs[c], c, t.kids);
    }
  }

  /** A queue survives a newer process at its end, or nothing at its end. */
  lemma QueueAppend(procs: seq<Proc>, s: nat, p: Proc, q: nat, list: seq<nat>)
    requires Queue(procs, q, list) && s < |procs| && s !in list
    requires forall c :: c in list && c < |procs| ==> procs[c].pid < p.pid
    ensures Queue(procs[s := p], q, list)
    ensures Live(p) && p.priority == q + 1 ==> Queue(procs[s := p], q, list + [s])
  {
    var procs', longer := procs[s := p], list + [s];
    assert forall i :: 0 <= i < |list| ==> list[i] in list;
    if Live(p) && p.priority == q + 1 {
      assert forall c :: c in longer ==> c in list || c == s;
      assert ByPid(procs', longer);
    }
  }

  lemma AddKeepsQueue(t: Table, s: nat, pid: nat, priority: int, q: nat)
    requires Inv(t) && s < |t.procs| && t.procs[s].pid == UNUSED && pid >= t.nextPid && 1 <= priority <= 5
      && q < NUM_PRIORITIES
    ensures Queue(Add(t, s, pid, priority).procs, q, Add(t, s, pid, priority).ready[q])
  {
    hide Forest, Statuses, ByPid;
    var u := Add(t, s, pid, priority);
    assert Queue(t.procs, q, t.ready[q]) && s !in t.ready[q];
    QueueAppend(t.procs, s, u.procs[s], q, t.ready[q]);
  }

  lemma AddKeepsQueues(t: Table, s: nat, pid: nat, priority: int)
    requires Inv(t) && s < |t.procs| && t.procs[s].pid == UNUSED && pid >= t.nextPid && 1 <= priority <= 5
    ensures Queued(Add(t, s, pid, priority).procs, Add(t, s, pid, priority).ready)
  {
    hide Forest, Statuses, Queue, Pids;
    var u := Add(t, s, pid, priority);
    forall q | 0 <= q < NUM_PRIORITIES ensures Queue(u.procs, q, u.ready[q]) {
      AddKeepsQueue(t, s, pid, priority, q);
    }
    forall c | 0 <= c < |u.procs| ensures InQueue(u.procs[c], c, u.ready) {
      assert InQueue(t.procs[c], c, t.ready);
    }
  }

  lemma AddKeepsPids(t: Table, s: nat, pid: nat, priority: int)
    requires Inv(t) && s < |t.procs| && pid >= t.nextPid && 1 <= priority <= 5
    ensures Pids(Add(t, s, pid, priority).procs, pid + 1)
  {
    hide Forest, Queued, Statuses;
  }

  lemma AddKeepsStatuses(t: Table, s: nat, pid: nat, priority: int)
    requires Inv(t) && !t.halted && s < |t.procs| && t.procs[s].pid == UNUSED && pid > 0 && 1 <= priority <= 5
    ensures Shape(Add(t, s, pid, priority)) && Statuses(Add(t, s, pid, priority))
  {
    hide Forest, Queued, Pids;
    var u := Add(t, s, pid, priority);
    forall c | 0 <= c < |u.procs| ensures StatusOk(u.procs[c], u.kids[c]) && ParentBelow(u.procs[c], |u.procs|) {
      assert StatusOk(t.procs[c], t.kids[c]) && ParentBelow(t.procs[c], |t.procs|);
    }
  }

  lemma AddKeeps(t: Table, s: nat, pid: nat, priority: int)
    requires Inv(t) && !t.halted && s < |t.procs| && t.procs[s].pid == UNUSED && pid >= t.nextPid && 1 <= priority <= 5
    ensures Inv(Add(t, s, pid, priority))
  {
    RunningLives(t);
    hide Forest, Queued, Statuses, Pids;
    AddKeepsForest(t, s, pid, priority);
    AddKeepsQueues(t, s, pid, priority);
    AddKeepsPids(t, s, pid, priority);
    AddKeepsStatuses(t, s, pid, priority);
  }

  lemma RunningLives(t: Table)
    requires Inv(t) && !t.halted
    ensures t.running.Some? ==> Live(t.procs[t.running.value])
  {}

  // --- join ----------------------------------------------------------------------------------------------

  lemma WithoutHas(list: seq<nat>, i: nat, x: nat)
    requires Distinct(list) && i < |list|
    ensures x in Without(list, i) <==> x in list && x != list[i]
    ensures Distinct(Without(list, i))
  {
    var rest := Without(list, i);
    assert forall j :: 0 <= j < |rest| ==> rest[j] == list[if j < i then j else j + 1];
    if x in list && x != list[i] {
      var j :| 0 <= j < |list| && list[j] == x;
      assert rest[if j < i then j else j - 1] == x;
    }
  }

  lemma ReapKeepsChain(t: Table, r: nat, i: nat, p: nat)
    requires Inv(t) && r < |t.procs| && i < |t.kids[r]| && t.procs[t.kids[r][i]].status == TERMINATED && p < |t.kids|
    ensures Chain(Reap(t, r, i).procs, p, Reap(t, r, i).kids[p])
  {
    hide Queued, Statuses, Pids;
    var c, u, list := t.kids[r][i], Reap(t, r, i), Reap(t, r, i).kids[p];
    assert Chain(t.procs, p, t.kids[p]) && Chain(t.procs, r, t.kids[r]);
    assert ChildOf(t.procs, c, r);
    if t.kids[p] != [] { ParentAlive(t.procs, p, t.kids[p]); }
    forall x ensures p == r ==> (x in list <==> x in t.kids[r] && x != c) { WithoutHas(t.kids[r], i, x); }
    if p == r { WithoutHas(t.kids[r], i, c); }
    hide Shape, Forest;
    forall x | x in list ensures ChildOf(u.procs, x, p) {
      assert ChildOf(t.procs, x, p);
    }
  }

  lemma ReapKeepsForest(t: Table, r: nat, i: nat)
    requires Inv(t) && r < |t.procs| && i < |t.kids[r]| && t.procs[t.kids[r][i]].status == TERMINATED
    ensures Forest(Reap(t, r, i).procs, Reap(t, r, i).kids)
  {
    hide Queued, Statuses, Pids, Chain;
    var u := Reap(t, r, i);
    forall p | 0 <= p < |u.kids| ensures Chain(u.procs, p, u.kids[p]) {
      ReapKeepsChain(t, r, i, p);
    }
    forall s | 0 <= s < |u.procs| ensures OnChain(u.procs[s], s, u.kids) {
      assert OnChain(t.procs[s], s, t.kids) && Chain(t.procs, r, t.kids[r]);
      ChainIsDistinct(t.procs, r, t.kids[r]);
      WithoutHas(t.kids[r], i, s);
    }
  }

  lemma ChainIsDistinct(procs: seq<Proc>, p: nat, list: seq<nat>)
    requires Chain(procs, p, list)
    ensures Distinct(list)
  {}

  /** Slots that are not alive do not matter to the queues. */
  lemma QueuedFrame(procs: seq<Proc>, procs': seq<Proc>, ready: seq<seq<nat>>)
    requires Queued(procs, ready) && |procs'| == |procs|
    requires forall s :: 0 <= s < |procs| ==> SameToQueues(procs[s], procs'[s])
    ensures Queued(procs', ready)
  {
    forall q | 0 <= q < NUM_PRIORITIES ensures Queue(procs', q, ready[q]) {
      assert Queue(procs, q, ready[q]);
      assert forall i :: 0 <= i < |ready[q]| ==>
        ready[q][i] in ready[q] && SameToQueues(procs[ready[q][i]], procs'[ready[q][i]]);
    }
    forall s | 0 <= s < |procs| ensures InQueue(procs'[s], s, ready) {
      assert InQueue(procs[s], s, ready) && SameToQueues(procs[s], procs'[s]);
    }
  }

  ghost predicate SameToQueues(p: Proc, p': Proc) {
    (Live(p) <==> Live(p')) && (Live(p) ==> p'.pid == p.pid && p'.priority == p.priority)
  }

  lemma ReapKeeps(t: Table, r: nat, i: nat)
    requires Inv(t) && t.running == Some(r) && !t.halted && i < |t.kids[r]|
      && t.procs[t.kids[r][i]].status == TERMINATED
    ensures Inv(Reap(t, r, i))
  {
    var u, c := Reap(t, r, i), t.kids[r][i];
    ReapKeepsForest(t, r, i);
    QueuedFrame(t.procs, u.procs, t.ready);
    hide Forest, Queued;
    WithoutBelow(t.kids[r], i, |t.procs|);
    forall s | 0 <= s < |u.procs| ensures StatusOk(u.procs[s], u.kids[s]) && ParentBelow(u.procs[s], |u.procs|) {
      assert StatusOk(t.procs[s], t.kids[s]) && ParentBelow(t.procs[s], |t.procs|);
    }
  }

  lemma WithoutBelow(list: seq<nat>, i: nat, n: nat)
    requires Below(list, n) && i < |list|
    ensures Below(Without(list, i), n)
  {}

  lemma SwitchableFrom(t: Table)
    requires Shape(t) && t.nextPid > 0 && Forest(t.procs, t.kids) && Queued(t.procs, t.ready)
      && Pids(t.procs, t.nextPid)
    requires forall s :: 0 <= s < |t.procs| ==> StatusOk(t.procs[s], t.kids[s])
    ensures Switchable(t)
  {
    hide Forest, Queued, Pids;
  }

  lemma PidsFrame(procs: seq<Proc>, procs': seq<Proc>, nextPid: nat)
    requires Pids(procs, nextPid) && |procs'| == |procs|
    requires forall s :: 0 <= s < |procs| ==> procs'[s].pid == procs[s].pid
    ensures Pids(procs', nextPid)
  {}

  lemma BlockKeepsStatuses(t: Table, r: nat)
    requires Inv(t) && t.running == Some(r) && !t.halted && t.kids[r] != []
    ensures var u := t.(procs := t.procs[r := t.procs[r].(status := BLOCKED)]);
      Shape(u) && forall s :: 0 <= s < |u.procs| ==> StatusOk(u.procs[s], u.kids[s])
  {
    hide Forest, Queued, Pids;
    var u := t.(procs := t.procs[r := t.procs[r].(status := BLOCKED)]);
    forall s | 0 <= s < |u.procs| ensures StatusOk(u.procs[s], u.kids[s]) && ParentBelow(u.procs[s], |u.procs|) {
      assert StatusOk(t.procs[s], t.kids[s]) && ParentBelow(t.procs[s], |t.procs|);
    }
  }

  lemma BlockKeeps(t: Table, r: nat)
    requires Inv(t) && t.running == Some(r) && !t.halted && t.kids[r] != []
    ensures Shape(t.(procs := t.procs[r := t.procs[r].(status := BLOCKED)]))
    ensures Switchable(t.(procs := t.procs[r := t.procs[r].(status := BLOCKED)]))
  {
    var u := t.(procs := t.procs[r := t.procs[r].(status := BLOCKED)]);
    RunningLives(t);
    hide Forest, Queued, Pids, Statuses, StatusOk;
    RestatusKeepsForest(t.procs, u.procs, t.kids);
    QueuedFrame(t.procs, u.procs, t.ready);
    PidsFrame(t.procs, u.procs, t.nextPid);
    BlockKeepsStatuses(t, r);
    hide Inv, Switchable;
    SwitchableFrom(u);
  }

  /** Only the status of childless processes may turn to terminated. */
  ghost predicate Restatus(p: Proc, p': Proc, kids: seq<nat>) {
    && p'.pid == p.pid && p'.parent == p.parent && p'.priority == p.priority
    && (kids != [] && Live(p) ==> Live(p'))
  }

  lemma RestatusKeepsForest(procs: seq<Proc>, procs': seq<Proc>, kids: seq<seq<nat>>)
    requires Forest(procs, kids) && |procs'| == |procs|
    requires forall s :: 0 <= s < |procs| ==> Restatus(procs[s], procs'[s], kids[s])
    ensures Forest(procs', kids)
  {
    forall p | 0 <= p < |kids| ensures Chain(procs', p, kids[p]) {
      assert Chain(procs, p, kids[p]) && Restatus(procs[p], procs'[p], kids[p]);
      if kids[p] != [] { ParentAlive(procs, p, kids[p]); }
      forall c | c in kids[p]
        ensures c < |procs| && procs'[c].pid == procs[c].pid && procs'[c].parent == procs[c].parent {
        assert ChildOf(procs, c, p) && Restatus(procs[c], procs'[c], kids[c]);
      }
      ChainFrame(procs, procs', p, kids[p]);
    }
    forall s | 0 <= s < |procs'| ensures OnChain(procs'[s], s, kids) {
      assert OnChain(procs[s], s, kids) && Restatus(procs[s], procs'[s], kids[s]);
    }
  }

  // --- quit -----------------------------------------------------------------------------------------------

  lemma {:induction false} RemovedHas(list: seq<nat>, s: nat, x: nat)
    ensures x in Removed(list, s) ==> x in list
    ensures x in list && x != s ==> x in Removed(list, s)
    ensures s !in list ==> Removed(list, s) == list
  {
    if list != [] {
      RemovedHas(list[1..], s, x);
      assert list == [list[0]] + list[1..];
    }
  }

  /** A list is ordered by pid when its tail is and its head comes first. */
  lemma ByPidCons(procs: seq<Proc>, x: nat, rest: seq<nat>)
    requires x < |procs| && Below(rest, |procs|)
    ensures Below([x] + rest, |procs|)
    ensures ByPid(procs, [x] + rest) <==>
      ByPid(procs, rest) && forall i :: 0 <= i < |rest| ==> procs[x].pid < procs[rest[i]].pid
  {
    var list := [x] + rest;
    assert forall i :: 0 <= i < |rest| ==> list[i + 1] == rest[i];
    assert list[0] == x;
  }

  lemma {:induction false} RemovedSorted(procs: seq<Proc>, list: seq<nat>, s: nat)
    requires Below(list, |procs|) && ByPid(procs, list)
    ensures Below(Removed(list, s), |procs|) && ByPid(procs, Removed(list, s)) && s !in Removed(list, s)
  {
    if list != [] {
      var rest, kept := list[1..], Removed(list[1..], s);
      assert list == [list[0]] + rest;
      ByPidCons(procs, list[0], rest);
      RemovedSorted(procs, rest, s);
      hide ByPid;
      if list[0] != s {
        assert forall i :: 0 <= i < |kept| ==> kept[i] in rest;
        ByPidCons(procs, list[0], kept);
      }
    }
  }

  lemma QueueRemove(procs: seq<Proc>, procs': seq<Proc>, q: nat, list: seq<nat>, r: nat)
    requires Queue(procs, q, list) && |procs'| == |procs|
    requires forall s :: 0 <= s < |procs| && s != r ==> SameToQueues(procs[s], procs'[s])
    ensures Queue(procs', q, Removed(list, r))
  {
    RemovedSorted(procs, list, r);
    var kept := Removed(list, r);
    forall i | 0 <= i < |kept|
      ensures kept[i] != r && Live(procs'[kept[i]])
      ensures procs'[kept[i]].priority == q + 1 && procs'[kept[i]].pid == procs[kept[i]].pid
    {
      assert kept[i] in kept && kept[i] in list;
      assert SameToQueues(procs[kept[i]], procs'[kept[i]]);
    }
  }

  lemma TerminateKeepsQueues(t: Table, r: nat, status: int)
    requires Inv(t) && r < |t.procs| && Live(t.procs[r])
    ensures 1 <= t.procs[r].priority <= NUM_PRIORITIES
      && Queued(Terminate(t, r, status).procs, Terminate(t, r, status).ready)
  {
    hide Forest, Pids, Queue;
    assert InQueue(t.procs[r], r, t.ready);
    var u := Terminate(t, r, status);
    forall s | 0 <= s < |t.procs| && s != r ensures SameToQueues(t.procs[s], u.procs[s]) {}
    forall q | 0 <= q < NUM_PRIORITIES ensures Queue(u.procs, q, u.ready[q]) {
      assert Queue(t.procs, q, t.ready[q]);
      QueueRemove(t.procs, u.procs, q, t.ready[q], r);
      NotInOtherQueue(t.procs, q, t.ready[q], r);
      RemovedHas(t.ready[q], r, r);
    }
    forall s | 0 <= s < |u.procs| ensures InQueue(u.procs[s], s, u.ready) {
      assert InQueue(t.procs[s], s, t.ready);
      if s != r { RemovedHas(t.ready[t.procs[r].priority - 1], r, s); }
    }
  }

  lemma NotInOtherQueue(procs: seq<Proc>, q: nat, list: seq<nat>, r: nat)
    requires Queue(procs, q, list) && r < |procs|
    ensures procs[r].priority != q + 1 ==> r !in list
  {}

  lemma TerminateKeepsForest(t: Table, r: nat, status: int)
    requires Inv(t) && r < |t.procs| && Live(t.procs[r]) && t.kids[r] == []
      && 1 <= t.procs[r].priority <= NUM_PRIORITIES
    ensures Forest(Terminate(t, r, status).procs, t.kids)
  {
    hide Queued, Pids, Forest;
    var u := Terminate(t, r, status);
    forall s | 0 <= s < |u.procs| ensures Restatus(t.procs[s], u.procs[s], t.kids[s]) {}
    RestatusKeepsForest(t.procs, u.procs, t.kids);
  }

  lemma TerminateKeepsShape(t: Table, r: nat, status: int)
    requires Inv(t) && r < |t.procs| && Live(t.procs[r]) && 1 <= t.procs[r].priority <= NUM_PRIORITIES
    ensures Shape(Terminate(t, r, status))
  {
    hide Queued, Pids, Forest, Statuses;
    var u, q := Terminate(t, r, status), t.procs[r].priority - 1;
    RemovedBelow(t.ready[q], r, |t.procs|);
    forall s | 0 <= s < |u.procs| ensures ParentBelow(u.procs[s], |u.procs|) {
      assert ParentBelow(t.procs[s], |t.procs|);
    }
  }

  lemma RemovedBelow(list: seq<nat>, s: nat, n: nat)
    requires Below(list, n)
    ensures Below(Removed(list, s), n)
  {}

  lemma TerminateKeepsStatuses(t: Table, r: nat, status: int)
    requires Inv(t) && r < |t.procs| && Live(t.procs[r]) && t.kids[r] == []
      && 1 <= t.procs[r].priority <= NUM_PRIORITIES
    ensures var u := Terminate(t, r, status);
      forall s :: 0 <= s < |u.procs| ==> StatusOk(u.procs[s], u.kids[s])
  {
    hide Forest, Queued, Pids;
    var u := Terminate(t, r, status);
    forall s | 0 <= s < |u.procs| ensures StatusOk(u.procs[s], u.kids[s]) {
      assert StatusOk(t.procs[s], t.kids[s]);
    }
  }

  lemma TerminateKeepsPids(t: Table, r: nat, status: int)
    requires Inv(t) && r < |t.procs| && 1 <= t.procs[r].priority <= NUM_PRIORITIES
    ensures Pids(Terminate(t, r, status).procs, t.nextPid)
  {
    hide Queued, Forest, Statuses;
    PidsFrame(t.procs, Terminate(t, r, status).procs, t.nextPid);
  }

  lemma TerminateKeeps(t: Table, r: nat, status: int)
    requires Inv(t) && t.running == Some(r) && !t.halted && t.kids[r] == []
    ensures 1 <= t.procs[r].priority <= NUM_PRIORITIES
    ensures Shape(Terminate(t, r, status)) && Switchable(Terminate(t, r, status))
  {
    RunningLives(t);
    hide Queued, Forest, Statuses, Pids, StatusOk;
    TerminateKeepsQueues(t, r, status);
    TerminateKeepsForest(t, r, status);
    TerminateKeepsShape(t, r, status);
    TerminateKeepsPids(t, r, status);
    TerminateKeepsStatuses(t, r, status);
    hide Shape, Switchable;
    SwitchableFrom(Terminate(t, r, status));
  }
}
