/**
  What the calls of phase 1a answer and change, and what the answers of join have to do with
  the calls of quit in a whole run.
 */
module TermOrderCalls {
  import opened Wrappers
  import opened Sequences
  import opened TermOrderJoin

  // --- what each call answers and changes ------------------------------------------------------------

  /** The first slot with that pid runs; with none, or with the pid of unused slots, the system halts. */
  ghost predicate SwitchesTo(t: Table, pid: int, u: Table) {
    if pid == -1 || forall s :: 0 <= s < |t.procs| ==> t.procs[s].pid != pid then u == t.(halted := true)
    else exists s: nat :: FirstWith(t.procs, pid, s) && u == t.(running := Some(s))
  }

  ghost predicate FirstWith(procs: seq<Proc>, pid: int, s: nat) {
    s < |procs| && procs[s].pid == pid && forall i :: 0 <= i < s ==> procs[i].pid != pid
  }

  /** The pid is used up in any case; the slot tried is the one after the pid's. */
  ghost predicate SporkAnswers(t: Table, u: Table, r: Result)
    requires Callable(t, Spork)
  {
    var p, s, next := t.running.value, (t.nextPid + 1) % |t.procs|, t.nextPid + 1;
    if t.procs[s].pid != -1 then r == NoSlot && u == t.(nextPid := next)
    else
      && r == Sporked(t.nextPid)
      && |u.kids| == |t.kids|
      && (forall q :: 0 <= q < |t.kids| ==>
           u.kids[q] == if q == p then t.kids[p] + [s] else if q == s then [] else t.kids[q])
      && u == t.(nextPid := next, kids := u.kids, procs := t.procs[s := t.procs[s].(pid := t.nextPid, status := 0)])
  }

  /** The caller is stamped with its place among all quits. */
  ghost predicate QuitAnswers(t: Table, status: int, to: int, u: Table)
    requires t.running.Some? && t.running.value < |t.procs|
  {
    var p := t.running.value;
    var stamped := t.procs[p].(status := -1, exitStatus := status, termOrder := |t.quits|);
    SwitchesTo(t.(procs := t.procs[p := stamped], quits := t.quits + [p]), to, u)
  }

  ghost predicate HasQuit(t: Table, c: nat) {
    c < |t.procs| && t.procs[c].status == -1
  }

  /** The child at place i has terminated, and no other one later. */
  ghost predicate QuitLast(t: Table, kids: seq<nat>, i: nat) {
    && i < |kids| && HasQuit(t, kids[i])
    && forall j :: 0 <= j < |kids| && j != i && HasQuit(t, kids[j]) ==>
         t.procs[kids[j]].termOrder < t.procs[kids[i]].termOrder
  }

  ghost predicate JoinAnswers(t: Table, statusIsNull: bool, u: Table, r: Result)
    requires Callable(t, Join(statusIsNull))
  {
    var p := t.running.value;
    if statusIsNull then r == NullStatus && u == t
    else if forall i :: 0 <= i < |t.kids[p]| ==> !HasQuit(t, t.kids[p][i]) then r == NoneTerminated && u == t
    else exists i: nat :: QuitLast(t, t.kids[p], i) && Reaps(t, u, p, i, r)
  }

  ghost predicate Reaps(t: Table, u: Table, p: nat, i: nat, r: Result)
    requires p < |t.kids| && i < |t.kids[p]| && t.kids[p][i] < |t.procs|
  {
    var c, list := t.kids[p][i], t.kids[p];
    && r == Reaped(t.procs[c].pid, t.procs[c].exitStatus)
    && u == t.(procs := t.procs[c := t.procs[c].(pid := -1, status := 0)],
               kids := t.kids[p := list[..i] + list[i + 1..]])
  }

  ghost predicate Promised(t: Table, call: Call, u: Table, r: Result)
    requires Callable(t, call)
  {
    match call
    case Spork => SporkAnswers(t, u, r)
    case Quit(status, to) => r == Switched && QuitAnswers(t, status, to, u)
    case Join(statusIsNull) => JoinAnswers(t, statusIsNull, u, r)
    case SwitchTo(pid) => r == Switched && SwitchesTo(t, pid, u)
  }

  lemma SwitchKeepsPromise(t: Table, pid: int)
    ensures SwitchesTo(t, pid, DoSwitch(t, pid))
  {
    var s := WithPid(t.procs, pid, 0);
    if s.Some? {
      FirstIsFirst(t.procs, pid, 0);
      assert FirstWith(t.procs, pid, s.value);
    }
  }

  lemma {:induction false} FirstIsFirst(procs: seq<Proc>, pid: int, i: nat)
    requires i <= |procs|
    ensures var s := WithPid(procs, pid, i); s.Some? ==> forall k :: i <= k < s.value ==> procs[k].pid != pid
    decreases |procs| - i
  {
    if i < |procs| && procs[i].pid != pid { FirstIsFirst(procs, pid, i + 1); }
  }

  /** The scan of join ends with the child that quit last. */
  lemma LatestQuitLast(t: Table, p: nat)
    requires Inv(t) && p < |t.kids| && Below(t.kids[p], |t.procs|)
    ensures var list := t.kids[p]; var i := Latest(t.procs, list, |list|);
      && (i.Some? ==> QuitLast(t, list, i.value))
      && (i.None? <==> forall j :: 0 <= j < |list| ==> !HasQuit(t, list[j]))
  {
    var list := t.kids[p];
    var i := Latest(t.procs, list, |list|);
    ChildrenAreOrdered(t, p);
    hide Inv, Latest;
    forall j | 0 <= j < |list| && HasQuit(t, list[j])
      ensures i.Some? && (j != i.value ==> t.procs[list[j]].termOrder < t.procs[list[i.value]].termOrder)
    {
      assert HasOrder(t.procs[list[j]]);
      if i.Some? && j != i.value {
        assert if j < i.value then Differ(t.procs, list[j], list[i.value]) else Differ(t.procs, list[i.value], list[j]);
      }
    }
  }

  lemma KeepsPromise(t: Table, call: Call)
    requires Callable(t, call)
    ensures var (u, r) := Apply(t, call); Promised(t, call, u, r)
  {
    match call {
      case Spork => SporkKeepsPromise(t);
      case Quit(status, to) => QuitKeepsPromise(t, status, to);
      case Join(statusIsNull) => JoinKeepsPromise(t, statusIsNull);
      case SwitchTo(pid) => SwitchKeepsPromise(t, pid);
    }
  }

  lemma SporkKeepsPromise(t: Table)
    requires Callable(t, Spork)
    ensures SporkAnswers(t, DoSpork(t).0, DoSpork(t).1)
  {
    hide Kids, Stamped;
  }

  lemma QuitKeepsPromise(t: Table, status: int, to: int)
    requires Callable(t, Quit(status, to))
    ensures QuitAnswers(t, status, to, DoQuit(t, status, to))
  {
    var p := t.running.value;
    var stamped := t.procs[p].(status := -1, exitStatus := status, termOrder := |t.quits|);
    SwitchKeepsPromise(t.(procs := t.procs[p := stamped], quits := t.quits + [p]), to);
  }

  lemma JoinKeepsPromise(t: Table, statusIsNull: bool)
    requires Callable(t, Join(statusIsNull))
    ensures var (u, r) := Apply(t, Join(statusIsNull)); JoinAnswers(t, statusIsNull, u, r)
  {
    var p := t.running.value;
    KidsInTable(t, p);
    LatestQuitLast(t, p);
    hide Kids, Stamped, Latest, QuitLast;
    var i := Latest(t.procs, t.kids[p], |t.kids[p]|);
    if !statusIsNull && i.Some? {
      var (u, r) := Apply(t, Join(false));
      assert Reaps(t, u, p, i.value, r);
    }
  }

  lemma SwitchDecides(t: Table, pid: int, u: Table, v: Table)
    requires SwitchesTo(t, pid, u) && SwitchesTo(t, pid, v)
    ensures u == v
  {
    assert forall a: nat, b: nat :: FirstWith(t.procs, pid, a) && FirstWith(t.procs, pid, b) ==> a == b;
  }

  /** The promise leaves no choice. */
  lemma PromiseDecides(t: Table, call: Call, u: Table, r: Result, v: Table, q: Result)
    requires Callable(t, call) && Promised(t, call, u, r) && Promised(t, call, v, q)
    ensures r == q && u == v
  {
    hide SwitchesTo, Kids, Stamped;
    match call {
      case Spork => if r.Sporked? { assert u.kids == v.kids; }
      case Quit(status, to) =>
        var p := t.running.value;
        var stamped := t.procs[p].(status := -1, exitStatus := status, termOrder := |t.quits|);
        SwitchDecides(t.(procs := t.procs[p := stamped], quits := t.quits + [p]), to, u, v);
      case Join(_) =>
        var list := t.kids[t.running.value];
        assert forall a: nat, b: nat :: QuitLast(t, list, a) && QuitLast(t, list, b) ==> a == b;
      case SwitchTo(pid) => SwitchDecides(t, pid, u, v);
    }
  }

  // --- joins and quits of a whole run --------------------------------------------------------------------

  /** One call of quit: the slot of the caller, and its status. */
  datatype Leaving = Leaving(slot: nat, status: int)

  /** The calls of quit in a run. */
  ghost function QuitsOf(t: Table, calls: seq<Call>): seq<Leaving>
    requires IsRun(t, calls)
    decreases |calls|
  {
    if calls == [] then []
    else
      (if calls[0].Quit? then [Leaving(t.running.value, calls[0].status)] else []) +
      QuitsOf(Apply(t, calls[0]).0, calls[1..])
  }

  ghost predicate LeftWith(p: Proc, s: nat, quits: seq<Leaving>) {
    p.status == -1 ==>
      && 0 <= p.termOrder < |quits| && quits[p.termOrder] == Leaving(s, p.exitStatus)
      && forall i :: p.termOrder < i < |quits| ==> quits[i].slot != s
  }

  /** A terminated process has the status of its last quit, and the place of that among all. */
  ghost predicate AllLeftWith(t: Table, quits: seq<Leaving>) {
    |quits| == |t.quits| && forall s :: 0 <= s < |t.procs| ==> LeftWith(t.procs[s], s, quits)
  }

  /** Only quit stamps anybody, and only its caller. */
  lemma StampsStep(t: Table, call: Call)
    requires Callable(t, call)
    ensures var u := Apply(t, call).0;
      && |u.procs| == |t.procs| && |u.quits| == |t.quits| + (if call.Quit? then 1 else 0)
      && forall s :: 0 <= s < |t.procs| && u.procs[s].status == -1 ==>
           if call.Quit? && t.running == Some(s) then
             u.procs[s].exitStatus == call.status && u.procs[s].termOrder == |t.quits|
           else u.procs[s] == t.procs[s]
  {
    KeepsPromise(t, call);
    hide Inv, Apply, FirstWith, QuitLast;
  }

  lemma LeftWithStep(t: Table, call: Call, quits: seq<Leaving>)
    requires Callable(t, call) && AllLeftWith(t, quits)
    ensures AllLeftWith(Apply(t, call).0,
      quits + if call.Quit? then [Leaving(t.running.value, call.status)] else [])
  {
    StampsStep(t, call);
    hide Inv, Apply;
    var u, more := Apply(t, call).0, quits + if call.Quit? then [Leaving(t.running.value, call.status)] else [];
    forall s | 0 <= s < |u.procs| ensures LeftWith(u.procs[s], s, more) {
      assert LeftWith(t.procs[s], s, quits);
    }
  }

  lemma {:induction false} RunLeftWith(t: Table, calls: seq<Call>, quits: seq<Leaving>)
    requires Inv(t) && IsRun(t, calls) && AllLeftWith(t, quits)
    ensures Inv(Run(t, calls)) && AllLeftWith(Run(t, calls), quits + QuitsOf(t, calls))
    decreases |calls|
  {
    hide Inv, AllLeftWith, Apply;
    if calls == [] {
      assert quits + [] == quits;
    } else {
      var now := if calls[0].Quit? then [Leaving(t.running.value, calls[0].status)] else [];
      StepKeeps(t, calls[0]);
      LeftWithStep(t, calls[0], quits);
      RunLeftWith(Apply(t, calls[0]).0, calls[1..], quits + now);
      assert (quits + now) + QuitsOf(Apply(t, calls[0]).0, calls[1..]) == quits + QuitsOf(t, calls);
    }
  }

  /** The child in slot c left last among the children of p that have left and were not joined. */
  ghost predicate LeftLast(t: Table, quits: seq<Leaving>, p: nat, c: nat, r: Result) {
    && p < |t.kids| && c in t.kids[p] && HasQuit(t, c) && 0 <= t.procs[c].termOrder < |quits|
    && quits[t.procs[c].termOrder].slot == c
    && (forall i :: t.procs[c].termOrder < i < |quits| ==> quits[i].slot != c)
    && (forall d :: d in t.kids[p] && d != c && HasQuit(t, d) ==> t.procs[d].termOrder < t.procs[c].termOrder)
    && r == Reaped(t.procs[c].pid, quits[t.procs[c].termOrder].status)
  }

  /**
    In any run from boot, a join that finds a terminated child returns the one whose last quit
    is the latest in the run, with the status of that quit.
   */
  lemma JoinAnswersLastQuit(maxProc: nat, calls: seq<Call>) returns (c: nat)
    requires maxProc >= 2 && IsRun(Initial(maxProc), calls)
    requires var t := Run(Initial(maxProc), calls); Callable(t, Join(false)) && Apply(t, Join(false)).1.Reaped?
    ensures var t := Run(Initial(maxProc), calls);
      && t.running.Some?
      && LeftLast(t, QuitsOf(Initial(maxProc), calls), t.running.value, c, Apply(t, Join(false)).1)
  {
    assert Inv(Initial(maxProc)) && AllLeftWith(Initial(maxProc), []);
    RunLeftWith(Initial(maxProc), calls, []);
    assert [] + QuitsOf(Initial(maxProc), calls) == QuitsOf(Initial(maxProc), calls);
    c := JoinIsLeftLast(Run(Initial(maxProc), calls), QuitsOf(Initial(maxProc), calls));
  }

  lemma JoinIsLeftLast(t: Table, quits: seq<Leaving>) returns (c: nat)
    requires Callable(t, Join(false)) && AllLeftWith(t, quits) && Apply(t, Join(false)).1.Reaped?
    ensures LeftLast(t, quits, t.running.value, c, Apply(t, Join(false)).1)
  {
    KeepsPromise(t, Join(false));
    hide Apply, Kids, Stamped;
    var p := t.running.value;
    var (u, r) := Apply(t, Join(false));
    var i: nat :| QuitLast(t, t.kids[p], i) && Reaps(t, u, p, i, r);
    c := t.kids[p][i];
    assert LeftWith(t.procs[c], c, quits);
    forall d | d in t.kids[p] && d != c && HasQuit(t, d) ensures t.procs[d].termOrder < t.procs[c].termOrder {
      var j :| 0 <= j < |t.kids[p]| && t.kids[p][j] == d;
    }
  }
}
