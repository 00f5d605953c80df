/**
  The order in which join of phase 1b returns terminated children: the newest of those that
  do not yield to their parent first, then the oldest of the others.
 */
module JoinOrder {
  import opened Wrappers
  import opened Sequences
  import opened ProcessTable
  import opened ProcessForest
  import opened ProcessRuns
  import opened ProcessCalls

  /** Child a comes before child b: a lower number is a higher priority. */
  predicate Before(parent: Proc, a: Proc, b: Proc) {
    if a.priority <= parent.priority then b.priority > parent.priority || a.pid > b.pid
    else b.priority > parent.priority && a.pid < b.pid
  }

  ghost predicate PairArranged(procs: seq<Proc>, p: nat, a: nat, b: nat) {
    p < |procs| && a < |procs| && b < |procs| && Before(procs[p], procs[a], procs[b])
  }

  ghost predicate Arranged(procs: seq<Proc>, p: nat, list: seq<nat>) {
    forall i, j :: 0 <= i < j < |list| ==> PairArranged(procs, p, list[i], list[j])
  }

  ghost predicate AllArranged(t: Table) {
    forall p :: 0 <= p < |t.kids| ==> Arranged(t.procs, p, t.kids[p])
  }

  // --- each call keeps the order ---------------------------------------------------------------------

  ghost predicate SameKin(p: Proc, p': Proc) {
    p'.pid == p.pid && p'.priority == p.priority
  }

  lemma ArrangedFrame(procs: seq<Proc>, procs': seq<Proc>, p: nat, list: seq<nat>)
    requires Arranged(procs, p, list) && |procs'| == |procs|
    requires forall c :: c in list && c < |procs| ==> SameKin(procs[c], procs'[c])
    requires p < |procs| && (list != [] ==> SameKin(procs[p], procs'[p]))
    ensures Arranged(procs', p, list)
  {
    forall i, j | 0 <= i < j < |list| ensures PairArranged(procs', p, list[i], list[j]) {
      assert PairArranged(procs, p, list[i], list[j]);
      assert list[i] in list && list[j] in list;
    }
  }

  /** A child newer than all others goes to the front, or to the end, by its priority. */
  lemma ArrangedWith(procs: seq<Proc>, p: nat, list: seq<nat>, s: nat)
    requires Arranged(procs, p, list) && p < |procs| && s < |procs|
    requires forall c :: c in list ==> c < |procs| && procs[c].pid < procs[s].pid
    ensures procs[s].priority <= procs[p].priority ==> Arranged(procs, p, [s] + list)
    ensures procs[s].priority > procs[p].priority ==> Arranged(procs, p, list + [s])
  {
    var front, back := [s] + list, list + [s];
    forall i, j | 0 <= i < j < |front| && procs[s].priority <= procs[p].priority
      ensures PairArranged(procs, p, front[i], front[j])
    {
      if i == 0 { assert front[j] in list; } else { assert PairArranged(procs, p, list[i - 1], list[j - 1]); }
    }
    forall i, j | 0 <= i < j < |back| && procs[s].priority > procs[p].priority
      ensures PairArranged(procs, p, back[i], back[j])
    {
      if j == |list| { assert back[i] in list; } else { assert PairArranged(procs, p, list[i], list[j]); }
    }
  }

  lemma ArrangedWithout(procs: seq<Proc>, p: nat, list: seq<nat>, i: nat)
    requires Arranged(procs, p, list) && i < |list|
    ensures Arranged(procs, p, list[..i] + list[i + 1..])
  {
    var rest := list[..i] + list[i + 1..];
    forall j, k | 0 <= j < k < |rest| ensures PairArranged(procs, p, rest[j], rest[k]) {
      assert PairArranged(procs, p, list[if j < i then j else j + 1], list[if k < i then k else k + 1]);
    }
  }

  /** Kin are used slots with pids already handed out. */
  lemma KinAreOld(t: Table, p: nat, c: nat)
    requires Inv(t) && p < |t.kids| && c in t.kids[p]
    ensures c < |t.procs| && p < |t.procs| && t.procs[c].pid != UNUSED && t.procs[p].pid != UNUSED
    ensures t.procs[c].pid < t.nextPid && t.procs[c].parent == Some(p)
  {
    assert Chain(t.procs, p, t.kids[p]);
    assert ChildOf(t.procs, c, p);
  }

  lemma SporksArranged(t: Table, u: Table, s: nat, pid: int, priority: int, p: nat)
    requires Inv(t) && AllArranged(t) && s < |t.procs| && t.procs[s].pid == UNUSED && 1 <= priority <= 5
    requires Sporks(t, u, s, pid, priority) && p < |t.kids| && (t.running.Some? ==> t.running.value != s)
    ensures |u.kids| == |t.kids| && Arranged(u.procs, p, u.kids[p])
  {
    hide Forest, Queued, Pids, Statuses, Arranged, Shape;
    InvTable(t);
    var list := t.kids[p];
    assert Arranged(t.procs, p, list);
    forall c | c in list ensures c < |t.procs| && c != s && p != s && t.procs[c].pid < pid { KinAreOld(t, p, c); }
    assert list != [] ==> list[0] in list;
    ArrangedFrame(t.procs, u.procs, p, list);
    if t.running == Some(p) { ArrangedWith(u.procs, p, list, s); }
  }

  lemma InvTable(t: Table)
    requires Inv(t)
    ensures |t.kids| == |t.procs| > 0 && Shape(t) && (t.running.Some? ==> t.running.value < |t.procs|)
  {}

  lemma ReapsArranged(t: Table, u: Table, q: nat, i: nat, r: Result, p: nat)
    requires Inv(t) && AllArranged(t) && q < |t.procs| && i < |t.kids[q]| && Reaps(t, u, q, i, r) && p < |t.kids|
    requires t.kids[q][i] < |t.procs| && !Alive(t, t.kids[q][i])
    ensures |u.kids| == |t.kids| && Arranged(u.procs, p, u.kids[p])
  {
    var c := t.kids[q][i];
    assert Chain(t.procs, q, t.kids[q]) && Distinct(t.kids[q]);
    assert t.kids[p] != [] ==> Chain(t.procs, p, t.kids[p]) && ChildOf(t.procs, t.kids[p][0], p);
    hide Forest, Queued, Pids, Statuses, Arranged, Chain;
    assert Arranged(t.procs, p, t.kids[p]);
    KinAreOld(t, q, c);
    if p == q { ArrangedWithout(t.procs, p, t.kids[p], i); }
    var list := u.kids[p];
    forall x | x in list ensures x in t.kids[p] && x != c {
      if x in t.kids[p] { KinAreOld(t, p, x); }
    }
    ArrangedFrame(t.procs, u.procs, p, list);
  }

  /** Nothing else changes chains, pids or priorities. */
  lemma RestArranged(t: Table, u: Table)
    requires AllArranged(t) && |t.kids| == |t.procs| == |u.procs| && u.kids == t.kids
    requires forall s :: 0 <= s < |t.procs| ==> SameKin(t.procs[s], u.procs[s])
    ensures AllArranged(u)
  {
    hide Arranged, SameKin;
    forall p | 0 <= p < |u.kids| ensures Arranged(u.procs, p, u.kids[p]) {
      assert Arranged(t.procs, p, t.kids[p]);
      ArrangedFrame(t.procs, u.procs, p, t.kids[p]);
    }
  }

  lemma SporkArranged(t: Table, priority: int, stackOk: bool, u: Table, r: Result)
    requires Inv(t) && Callable(t, Spork(priority, stackOk)) && AllArranged(t)
    requires SporkAnswers(t, priority, stackOk, u, r)
    ensures AllArranged(u)
  {
    hide Forest, Queued, Pids, Arranged, Sporks;
    if r.Sporked? {
      var s: nat :| s < |t.procs| && NextSlot(t.procs, t.nextPid % |t.procs|, s) && Sporks(t, u, s, r.pid, priority);
      forall p | 0 <= p < |u.kids| ensures Arranged(u.procs, p, u.kids[p]) {
        SporksKids(t, u, s, r.pid, priority);
        SporksArranged(t, u, s, r.pid, priority, p);
      }
    }
  }

  lemma SporksKids(t: Table, u: Table, s: nat, pid: int, priority: int)
    requires Shape(t) && s < |t.procs| && 1 <= priority <= 5 && Sporks(t, u, s, pid, priority)
    ensures |u.kids| == |t.kids|
  {}

  lemma JoinArranged(t: Table, statusIsNull: bool, u: Table, r: Result)
    requires Inv(t) && Callable(t, Join(statusIsNull)) && AllArranged(t) && JoinAnswers(t, statusIsNull, u, r)
    ensures AllArranged(u)
  {
    hide Forest, Queued, Pids, Statuses, Arranged, Reaps;
    var q := t.running.value;
    if i: nat :| FirstDead(t, t.kids[q], i) && Reaps(t, u, q, i, r) {
      forall p | 0 <= p < |u.kids| ensures Arranged(u.procs, p, u.kids[p]) {
        ReapsKids(t, u, q, i, r);
        ReapsArranged(t, u, q, i, r, p);
      }
    } else if r == JoinBlocks {
      RestArranged(t, u);
    }
  }

  lemma ReapsKids(t: Table, u: Table, q: nat, i: nat, r: Result)
    requires Shape(t) && q < |t.procs| && i < |t.kids[q]| && Reaps(t, u, q, i, r)
    ensures |u.kids| == |t.kids|
  {}

  lemma QuitArranged(t: Table, status: int, u: Table, r: Result)
    requires Inv(t) && Callable(t, Quit(status)) && AllArranged(t) && QuitAnswers(t, status, u, r)
    ensures AllArranged(u)
  {
    hide Forest, Queued, Pids, Statuses, Arranged;
    if r == Ended { RestArranged(t, u); }
  }

  lemma StepArranged(t: Table, call: Call)
    requires Inv(t) && Callable(t, call) && AllArranged(t)
    ensures AllArranged(Apply(t, call).0)
  {
    hide Inv, AllArranged, Turns, SporkAnswers, JoinAnswers, QuitAnswers, Apply, Shape;
    KeepsPromise(t, call);
    var (u, r) := Apply(t, call);
    match call {
      case Spork(priority, stackOk) => SporkArranged(t, priority, stackOk, u, r);
      case Join(statusIsNull) => JoinArranged(t, statusIsNull, u, r);
      case Quit(status) => QuitArranged(t, status, u, r);
      case Dispatcher => DispatcherArranged(t, u);
    }
  }

  lemma DispatcherArranged(t: Table, u: Table)
    requires AllArranged(t) && u.procs == t.procs && u.kids == t.kids
    ensures AllArranged(u)
  {}

  lemma {:induction false} RunArranged(t: Table, calls: seq<Call>)
    requires Inv(t) && AllArranged(t) && IsRun(t, calls)
    ensures Inv(Run(t, calls)) && AllArranged(Run(t, calls))
    decreases |calls|
  {
    hide Inv, AllArranged, Callable, Apply;
    if calls != [] {
      StepKeeps(t, calls[0]);
      StepArranged(t, calls[0]);
      RunArranged(Apply(t, calls[0]).0, calls[1..]);
    }
  }

  // --- which child join returns ----------------------------------------------------------------------------

  /** c is the terminated child of p that comes before every other one. */
  ghost predicate FirstOfDead(t: Table, p: nat, c: nat) {
    && p < |t.kids| == |t.procs| && c in t.kids[p] && c < |t.procs| && !Alive(t, c)
    && forall d :: d in t.kids[p] && d != c && !Alive(t, d) ==> PairArranged(t.procs, p, c, d)
  }

  /** In any run from boot: a join of p that finds a terminated child returns the first of them in that order. */
  lemma JoinReturnsFirst(maxProc: nat, calls: seq<Call>) returns (c: nat)
    requires maxProc >= 2 && IsRun(Initial(maxProc), calls)
    requires var t := Run(Initial(maxProc), calls); Callable(t, Join(false)) && Apply(t, Join(false)).1.Reaped?
    ensures var t := Run(Initial(maxProc), calls);
      && t.running.Some? && FirstOfDead(t, t.running.value, c)
      && Apply(t, Join(false)).1 == Result.Reaped(t.procs[c].pid, t.procs[c].exitStatus)
  {
    InitialKeeps(maxProc);
    InitialArranged(maxProc);
    RunArranged(Initial(maxProc), calls);
    c := FirstDeadIsFirst(Run(Initial(maxProc), calls));
  }

  lemma InitialArranged(maxProc: nat)
    requires maxProc >= 2
    ensures AllArranged(Initial(maxProc))
  {}

  lemma FirstDeadIsFirst(t: Table) returns (c: nat)
    requires Inv(t) && AllArranged(t) && Callable(t, Join(false)) && Apply(t, Join(false)).1.Reaped?
    ensures FirstOfDead(t, t.running.value, c)
    ensures Apply(t, Join(false)).1 == Result.Reaped(t.procs[c].pid, t.procs[c].exitStatus)
  {
    KeepsPromise(t, Join(false));
    hide Forest, Queued, Pids, Statuses, Apply, Turns;
    var p := t.running.value;
    var (u, r) := Apply(t, Join(false));
    var i: nat :| FirstDead(t, t.kids[p], i) && Reaps(t, u, p, i, r);
    c := t.kids[p][i];
    forall d | d in t.kids[p] && d != c && !Alive(t, d) ensures PairArranged(t.procs, p, c, d) {
      var j :| 0 <= j < |t.kids[p]| && t.kids[p][j] == d;
      assert !(j < i);
      assert Arranged(t.procs, p, t.kids[p]);
    }
  }
}
