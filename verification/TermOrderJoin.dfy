/**
  The process table of phase 1a: spork appends children, quit stamps a termination order,
  and join takes the child that terminated last.
 */
module TermOrderJoin {
  import opened Wrappers
  import opened Sequences
  import P = ProcessTable
  import F = ProcessForest
  import opened LinkedSlots

  const UNUSED: int := -1
  const TERMINATED: int := -1
  const RUNNABLE: int := 0

  datatype Proc = Proc(pid: int, status: int, exitStatus: int, termOrder: int)

  /** `quits` logs the slots that quit; its length is the termination counter. */
  datatype Table = Table(
    procs: seq<Proc>,
    kids: seq<seq<nat>>,
    running: Option<nat>,
    nextPid: nat,
    halted: bool,
    quits: seq<nat>)

  datatype Call = Spork | Quit(status: int, switchToPid: int) | Join(statusIsNull: bool) | SwitchTo(pid: int)

  datatype Result =
    | NoSlot                // -1, and the pid is used up
    | Sporked(pid: int)
    | NullStatus            // -3
    | NoneTerminated        // -2
    | Reaped(pid: int, status: int)
    | Switched

  predicate Dead(p: Proc) {
    p.status == TERMINATED
  }

  ghost predicate Kids(procs: seq<Proc>, p: nat, list: seq<nat>) {
    forall c :: c in list ==> c < |procs| && procs[c].pid != UNUSED && c != p
  }

  /** The termination order of a terminated process is its last place in the log of quits. */
  ghost predicate Stamped(p: Proc, s: nat, quits: seq<nat>) {
    Dead(p) ==>
      && 0 <= p.termOrder < |quits| && quits[p.termOrder] == s
      && forall i :: p.termOrder < i < |quits| ==> quits[i] != s
  }

  ghost predicate Inv(t: Table) {
    && |t.kids| == |t.procs| > 0 && t.nextPid > 0
    && (t.running.Some? ==> t.running.value < |t.procs| && t.procs[t.running.value].pid != UNUSED)
    && Apart(t.kids)
    && (forall p :: 0 <= p < |t.kids| ==> Kids(t.procs, p, t.kids[p]))
    && (forall s :: 0 <= s < |t.procs| ==> Stamped(t.procs[s], s, t.quits))
  }

  // --- the calls ---------------------------------------------------------------------------------

  /** The first slot with this pid, from i on. */
  function WithPid(procs: seq<Proc>, pid: int, i: nat): (s: Option<nat>)
    requires i <= |procs|
    ensures s.Some? ==> i <= s.value < |procs| && procs[s.value].pid == pid
    ensures s.None? ==> forall k :: i <= k < |procs| ==> procs[k].pid != pid
    decreases |procs| - i
  {
    if i == |procs| then None else if procs[i].pid == pid then Some(i) else WithPid(procs, pid, i + 1)
  }

  function DoSwitch(t: Table, pid: int): Table {
    var s := WithPid(t.procs, pid, 0);
    if s.None? || pid == UNUSED then t.(halted := true) else t.(running := s)
  }

  function DoSpork(t: Table): (Table, Result)
    requires |t.kids| == |t.procs| > 0 && t.running.Some? && t.running.value < |t.procs|
  {
    var r, s := t.running.value, (t.nextPid + 1) % |t.procs|;
    var u := t.(nextPid := t.nextPid + 1);
    if t.procs[s].pid != UNUSED then (u, NoSlot)
    else
      var kids := t.kids[s := []];
      (u.(procs := t.procs[s := t.procs[s].(pid := t.nextPid, status := RUNNABLE)], kids := kids[r := kids[r] + [s]]),
       Sporked(t.nextPid))
  }

  function DoQuit(t: Table, status: int, switchToPid: int): Table
    requires t.running.Some? && t.running.value < |t.procs|
  {
    var r := t.running.value;
    DoSwitch(t.(procs := t.procs[r := t.procs[r].(status := TERMINATED, exitStatus := status, termOrder := |t.quits|)],
                quits := t.quits + [r]), switchToPid)
  }

  /** The scan of join over the first n children: where the highest termination order so far is. */
  ghost function Latest(procs: seq<Proc>, list: seq<nat>, n: nat): (i: Option<nat>)
    requires n <= |list| && Below(list, |procs|)
    ensures i.Some? ==> i.value < n && Dead(procs[list[i.value]]) && procs[list[i.value]].termOrder >= 0
    ensures forall j :: 0 <= j < n && Dead(procs[list[j]]) ==>
      procs[list[j]].termOrder <= if i.Some? then procs[list[i.value]].termOrder else -1
  {
    if n == 0 then None
    else
      var best, p := Latest(procs, list, n - 1), procs[list[n - 1]];
      if Dead(p) && p.termOrder > (if best.Some? then procs[list[best.value]].termOrder else -1) then Some(n - 1)
      else best
  }

  ghost function DoJoin(t: Table, statusIsNull: bool): (Table, Result)
    requires t.running.Some? && t.running.value < |t.kids| && Below(t.kids[t.running.value], |t.procs|)
  {
    var r := t.running.value;
    var i := Latest(t.procs, t.kids[r], |t.kids[r]|);
    if statusIsNull then (t, NullStatus)
    else if i.None? then (t, NoneTerminated)
    else
      var c := t.kids[r][i.value];
      (t.(procs := t.procs[c := t.procs[c].(pid := UNUSED, status := RUNNABLE)],
          kids := t.kids[r := P.Without(t.kids[r], i.value)]),
       Reaped(t.procs[c].pid, t.procs[c].exitStatus))
  }

  /** Every call but the first switch is made by a running process. */
  ghost predicate Callable(t: Table, call: Call) {
    Inv(t) && !t.halted && (call.SwitchTo? || t.running.Some?)
  }

  ghost function Apply(t: Table, call: Call): (Table, Result)
    requires Callable(t, call)
  {
    match call
    case Spork => DoSpork(t)
    case Quit(status, to) => (DoQuit(t, status, to), Switched)
    case Join(statusIsNull) => KidsInTable(t, t.running.value); DoJoin(t, statusIsNull)
    case SwitchTo(pid) => (DoSwitch(t, pid), Switched)
  }

  lemma KidsInTable(t: Table, p: nat)
    requires Inv(t) && p < |t.kids|
    ensures Below(t.kids[p], |t.procs|)
  {
    assert Kids(t.procs, p, t.kids[p]);
    assert forall i :: 0 <= i < |t.kids[p]| ==> t.kids[p][i] in t.kids[p];
  }

  // --- every run -----------------------------------------------------------------------------------

  lemma SporkKeeps(t: Table)
    requires Callable(t, Spork)
    ensures Inv(DoSpork(t).0)
  {
    var r, s, u := t.running.value, (t.nextPid + 1) % |t.procs|, DoSpork(t).0;
    if t.procs[s].pid == UNUSED {
      forall p | 0 <= p < |t.kids| ensures s !in t.kids[p] && Distinct(u.kids[p]) && Kids(u.procs, p, u.kids[p]) {
        assert Kids(t.procs, p, t.kids[p]);
      }
      forall c | 0 <= c < |u.procs| ensures Stamped(u.procs[c], c, u.quits) {
        assert Stamped(t.procs[c], c, t.quits);
      }
    }
  }

  lemma QuitKeeps(t: Table, status: int, switchToPid: int)
    requires Callable(t, Quit(status, switchToPid))
    ensures Inv(DoQuit(t, status, switchToPid))
  {
    hide Apart;
    var u := DoQuit(t, status, switchToPid);
    forall p | 0 <= p < |t.kids| ensures Kids(u.procs, p, u.kids[p]) {
      assert Kids(t.procs, p, t.kids[p]);
    }
    forall s | 0 <= s < |u.procs| ensures Stamped(u.procs[s], s, u.quits) {
      assert Stamped(t.procs[s], s, t.quits);
    }
  }

  lemma WithoutApart(lists: seq<seq<nat>>, h: nat, i: nat)
    requires Apart(lists) && h < |lists| && i < |lists[h]|
    ensures Apart(lists[h := P.Without(lists[h], i)])
    ensures forall x :: x in P.Without(lists[h], i) <==> x in lists[h] && x != lists[h][i]
  {
    WithoutMembers(lists[h], i);
    F.WithoutHas(lists[h], i, 0);
  }

  lemma JoinKeeps(t: Table, statusIsNull: bool)
    requires Callable(t, Join(statusIsNull)) && Below(t.kids[t.running.value], |t.procs|)
    ensures Inv(DoJoin(t, statusIsNull).0)
  {
    var r, u := t.running.value, DoJoin(t, statusIsNull).0;
    var i := Latest(t.procs, t.kids[r], |t.kids[r]|);
    if !statusIsNull && i.Some? {
      var c := t.kids[r][i.value];
      WithoutApart(t.kids, r, i.value);
      assert Kids(t.procs, r, t.kids[r]);
      forall p | 0 <= p < |t.kids| ensures Kids(u.procs, p, u.kids[p]) {
        assert Kids(t.procs, p, t.kids[p]);
      }
      forall s | 0 <= s < |u.procs| ensures Stamped(u.procs[s], s, u.quits) {
        assert Stamped(t.procs[s], s, t.quits);
      }
    }
  }

  lemma StepKeeps(t: Table, call: Call)
    requires Callable(t, call)
    ensures Inv(Apply(t, call).0)
  {
    match call {
      case Spork => SporkKeeps(t);
      case Quit(status, to) => QuitKeeps(t, status, to);
      case Join(statusIsNull) =>
        KidsInTable(t, t.running.value);
        JoinKeeps(t, statusIsNull);
      case SwitchTo(pid) =>
    }
  }

  ghost predicate IsRun(t: Table, calls: seq<Call>)
    decreases |calls|
  {
    calls == [] || (Callable(t, calls[0]) && IsRun(Apply(t, calls[0]).0, calls[1..]))
  }

  ghost function Run(t: Table, calls: seq<Call>): Table
    requires IsRun(t, calls)
    decreases |calls|
  {
    if calls == [] then t else Run(Apply(t, calls[0]).0, calls[1..])
  }

  /** phase1_init: only init, in slot 1, with pid 1; nothing runs until the first switch. */
  function Initial(maxProc: nat): Table
    requires maxProc >= 2
  {
    Table(seq(maxProc, s => Proc(if s == 1 then 1 else UNUSED, RUNNABLE, 0, 0)), seq(maxProc, s => []), None, 2,
      false, [])
  }

  lemma {:induction false} RunKeeps(t: Table, calls: seq<Call>)
    requires Inv(t) && IsRun(t, calls)
    ensures Inv(Run(t, calls))
    decreases |calls|
  {
    hide Inv, Callable, Apply;
    if calls != [] {
      StepKeeps(t, calls[0]);
      RunKeeps(Apply(t, calls[0]).0, calls[1..]);
    }
  }

  /** From boot on, every termination order is the place of that process in the log of quits. */
  lemma EveryRun(maxProc: nat, calls: seq<Call>)
    requires maxProc >= 2 && IsRun(Initial(maxProc), calls)
    ensures Inv(Run(Initial(maxProc), calls))
  {
    assert Inv(Initial(maxProc));
    RunKeeps(Initial(maxProc), calls);
  }

  // --- consecutive joins -------------------------------------------------------------------------------

  /** The terminated children, the one that quit last first. */
  ghost function LatestFirst(procs: seq<Proc>, list: seq<nat>): (order: seq<nat>)
    requires Below(list, |procs|)
    ensures Below(order, |procs|)
    decreases |list|
  {
    var i := Latest(procs, list, |list|);
    if i.None? then [] else [list[i.value]] + LatestFirst(procs, P.Without(list, i.value))
  }

  ghost function Survivors(procs: seq<Proc>, list: seq<nat>): seq<nat>
    requires Below(list, |procs|)
  {
    if list == [] then []
    else (if Dead(procs[list[0]]) then [] else [list[0]]) + Survivors(procs, list[1..])
  }

  /** n joins of the running process in a row. */
  ghost function Joins(t: Table, n: nat): (Table, seq<Result>)
    requires Inv(t) && !t.halted && t.running.Some?
    decreases n
  {
    if n == 0 then (t, [])
    else
      var (u, r) := Apply(t, Join(false));
      StepKeeps(t, Join(false));
      var (v, rest) := Joins(u, n - 1);
      (v, [r] + rest)
  }

  ghost predicate Ordered(procs: seq<Proc>, list: seq<nat>) {
    && Below(list, |procs|)
    && (forall i :: 0 <= i < |list| ==> HasOrder(procs[list[i]]))
    && (forall i, j :: 0 <= i < j < |list| ==> Differ(procs, list[i], list[j]))
  }

  ghost predicate HasOrder(p: Proc) {
    Dead(p) ==> p.termOrder >= 0
  }

  ghost predicate Differ(procs: seq<Proc>, c: nat, d: nat) {
    && c < |procs| && d < |procs| && c != d
    && (Dead(procs[c]) && Dead(procs[d]) ==> procs[c].termOrder != procs[d].termOrder)
  }

  lemma OrderedDistinct(procs: seq<Proc>, list: seq<nat>)
    requires Ordered(procs, list)
    ensures Distinct(list)
  {
    assert forall i, j :: 0 <= i < j < |list| ==> Differ(procs, list[i], list[j]);
  }

  /** What is left when the child that quit last is taken out; all others quit before it. */
  lemma OrderedWithout(procs: seq<Proc>, list: seq<nat>, i: nat, rest: seq<nat>)
    requires Ordered(procs, list) && Latest(procs, list, |list|) == Some(i) && rest == P.Without(list, i)
    ensures i < |list| && list[i] < |procs| && Below(rest, |procs|) && Ordered(procs, rest) && Dead(procs[list[i]])
    ensures list[i] !in rest && forall x :: x in list <==> x in rest || x == list[i]
    ensures forall x :: x in rest && x < |procs| && Dead(procs[x]) ==> procs[x].termOrder < procs[list[i]].termOrder
  {
    OrderedDistinct(procs, list);
    WithoutMembers(list, i);
    RestIsOrdered(procs, list, i, rest);
    hide Ordered, Distinct, P.Without;
    forall x | x in rest && Dead(procs[x]) ensures procs[x].termOrder < procs[list[i]].termOrder {
      var k :| 0 <= k < |list| && list[k] == x;
      QuitBefore(procs, list, i, k);
    }
  }

  lemma RestIsOrdered(procs: seq<Proc>, list: seq<nat>, i: nat, rest: seq<nat>)
    requires Ordered(procs, list) && i < |list| && rest == P.Without(list, i)
    ensures Below(rest, |procs|) && Ordered(procs, rest)
  {
    hide HasOrder, Differ;
    assert forall k :: 0 <= k < |rest| ==> rest[k] == list[if k < i then k else k + 1];
  }

  lemma QuitBefore(procs: seq<Proc>, list: seq<nat>, i: nat, k: nat)
    requires Ordered(procs, list) && Latest(procs, list, |list|) == Some(i)
    requires k < |list| && list[k] < |procs| && i < |list| && list[i] < |procs| && list[k] != list[i]
      && Dead(procs[list[k]])
    ensures procs[list[k]].termOrder < procs[list[i]].termOrder
  {
    assert if k < i then Differ(procs, list[k], list[i]) else Differ(procs, list[i], list[k]);
  }

  lemma WithoutMembers(list: seq<nat>, i: nat)
    requires Distinct(list) && i < |list|
    ensures forall x :: x in P.Without(list, i) <==> x in list && x != list[i]
  {
    forall x ensures x in P.Without(list, i) <==> x in list && x != list[i] { F.WithoutHas(list, i, x); }
  }

  /** They are exactly the terminated children. */
  lemma {:induction false} LatestFirstIsAllDead(procs: seq<Proc>, list: seq<nat>)
    requires Below(list, |procs|) && Ordered(procs, list)
    ensures forall c :: c in LatestFirst(procs, list) <==> c in list && c < |procs| && Dead(procs[c])
    decreases |list|
  {
    hide Ordered, Latest;
    var i, order := Latest(procs, list, |list|), LatestFirst(procs, list);
    if i.Some? {
      var c, rest := list[i.value], P.Without(list, i.value);
      OrderedWithout(procs, list, i.value, rest);
      LatestFirstIsAllDead(procs, rest);
      var tail := LatestFirst(procs, rest);
      assert order == [c] + tail;
      hide LatestFirst, P.Without;
      forall x ensures x in order <==> x in list && x < |procs| && Dead(procs[x]) {
        assert x in order <==> x == c || x in tail;
      }
    } else {
      NoneIsDead(procs, list);
    }
  }

  /** They come in strictly decreasing termination order. */
  lemma {:induction false} LatestFirstIsSorted(procs: seq<Proc>, list: seq<nat>, j: nat, k: nat)
    requires Below(list, |procs|) && Ordered(procs, list) && j < k < |LatestFirst(procs, list)|
    ensures procs[LatestFirst(procs, list)[j]].termOrder > procs[LatestFirst(procs, list)[k]].termOrder
    decreases |list|
  {
    hide Ordered, Latest;
    var i := Latest(procs, list, |list|);
    var rest := P.Without(list, i.value);
    OrderedWithout(procs, list, i.value, rest);
    if j > 0 {
      LatestFirstIsSorted(procs, rest, j - 1, k - 1);
    } else {
      LatestFirstIsAllDead(procs, rest);
      assert LatestFirst(procs, rest)[k - 1] in LatestFirst(procs, rest);
    }
  }

  lemma NoneIsDead(procs: seq<Proc>, list: seq<nat>)
    requires Ordered(procs, list) && Latest(procs, list, |list|).None?
    ensures forall c :: c in list ==> c < |procs| && !Dead(procs[c])
  {}

  lemma {:induction false} SurvivorsWithout(procs: seq<Proc>, list: seq<nat>, i: nat)
    requires Below(list, |procs|) && i < |list| && Dead(procs[list[i]])
    ensures Below(P.Without(list, i), |procs|) && Survivors(procs, P.Without(list, i)) == Survivors(procs, list)
  {
    if i == 0 {
      assert P.Without(list, 0) == list[1..];
    } else {
      SurvivorsWithout(procs, list[1..], i - 1);
      WithoutCons(list, i);
    }
  }

  ghost predicate SameOn(procs: seq<Proc>, procs': seq<Proc>, list: seq<nat>) {
    |procs'| == |procs| && Below(list, |procs|) && forall i :: 0 <= i < |list| ==> procs'[list[i]] == procs[list[i]]
  }

  lemma {:induction false} SameLatest(procs: seq<Proc>, procs': seq<Proc>, list: seq<nat>, n: nat)
    requires SameOn(procs, procs', list) && n <= |list|
    ensures Latest(procs', list, n) == Latest(procs, list, n)
  {
    if n > 0 {
      SameLatest(procs, procs', list, n - 1);
    }
  }

  lemma {:induction false} SameOrder(procs: seq<Proc>, procs': seq<Proc>, list: seq<nat>)
    requires SameOn(procs, procs', list)
    ensures LatestFirst(procs', list) == LatestFirst(procs, list)
    decreases |list|
  {
    SameLatest(procs, procs', list, |list|);
    var i := Latest(procs, list, |list|);
    if i.Some? { SameOrder(procs, procs', P.Without(list, i.value)); }
  }

  lemma {:induction false} SameSurvivors(procs: seq<Proc>, procs': seq<Proc>, list: seq<nat>)
    requires SameOn(procs, procs', list)
    ensures Survivors(procs', list) == Survivors(procs, list)
  {
    if list != [] { SameSurvivors(procs, procs', list[1..]); }
  }

  lemma ChildrenAreOrdered(t: Table, p: nat)
    requires Inv(t) && p < |t.kids|
    ensures Below(t.kids[p], |t.procs|) && Ordered(t.procs, t.kids[p])
  {
    KidsInTable(t, p);
    var list := t.kids[p];
    assert forall i :: 0 <= i < |list| ==> Stamped(t.procs[list[i]], list[i], t.quits);
  }

  /** What the k-th of several joins returns when `order` are the terminated children. */
  ghost function Answer(procs: seq<Proc>, order: seq<nat>, k: nat): Result
    requires Below(order, |procs|)
  {
    if k < |order| then Reaped(procs[order[k]].pid, procs[order[k]].exitStatus) else NoneTerminated
  }

  ghost function Answers(procs: seq<Proc>, order: seq<nat>, n: nat): (results: seq<Result>)
    requires Below(order, |procs|)
    ensures |results| == n
  {
    seq(n, k requires 0 <= k < n => Answer(procs, order, k))
  }

  lemma TakeLatest(procs: seq<Proc>, list: seq<nat>, i: nat, rest: seq<nat>, procs': seq<Proc>, n: nat)
    requires Below(list, |procs|) && Ordered(procs, list) && Latest(procs, list, |list|) == Some(i)
      && rest == P.Without(list, i)
    requires |procs'| == |procs| && forall x :: 0 <= x < |procs| && x != list[i] ==> procs'[x] == procs[x]
    ensures Below(rest, |procs|) && LatestFirst(procs, list) == [list[i]] + LatestFirst(procs', rest)
    ensures Survivors(procs', rest) == Survivors(procs, list)
    ensures Answers(procs, LatestFirst(procs, list), n + 1) ==
      [Answer(procs, LatestFirst(procs, list), 0)] + Answers(procs', LatestFirst(procs', rest), n)
  {
    hide Latest, Ordered, Survivors, Answer, Answers;
    OrderedWithout(procs, list, i, rest);
    assert LatestFirst(procs, list) == [list[i]] + LatestFirst(procs, rest);
    hide LatestFirst;
    OthersAgree(procs, procs', list[i], rest);
    SurvivorsWithout(procs, list, i);
    SameOrder(procs, procs', rest);
    SameSurvivors(procs, procs', rest);
    LatestFirstIsAllDead(procs, rest);
    AnswerShift(procs, procs', list[i], LatestFirst(procs, rest), n);
  }

  lemma OthersAgree(procs: seq<Proc>, procs': seq<Proc>, c: nat, rest: seq<nat>)
    requires Below(rest, |procs|) && c !in rest
    requires |procs'| == |procs| && forall x :: 0 <= x < |procs| && x != c ==> procs'[x] == procs[x]
    ensures SameOn(procs, procs', rest)
  {
    assert forall k :: 0 <= k < |rest| ==> rest[k] in rest;
  }

  lemma AnswerShift(procs: seq<Proc>, procs': seq<Proc>, c: nat, tail: seq<nat>, n: nat)
    requires Below([c] + tail, |procs|) && Below(tail, |procs|) && c !in tail
    requires |procs'| == |procs| && forall x :: 0 <= x < |procs| && x != c ==> procs'[x] == procs[x]
    ensures Answers(procs, [c] + tail, n + 1) == [Answer(procs, [c] + tail, 0)] + Answers(procs', tail, n)
  {
    assert forall k :: 0 <= k < |tail| ==> tail[k] in tail;
    forall k: nat | k < n ensures Answer(procs', tail, k) == Answer(procs, [c] + tail, k + 1) {}
  }

  lemma NoAnswers(procs: seq<Proc>, n: nat)
    ensures Answers(procs, [], n + 1) == [NoneTerminated] + Answers(procs, [], n)
  {}

  /** One join returns the head of the order and leaves the rest of it. */
  lemma JoinTakesLatest(t: Table, n: nat)
    requires Inv(t) && !t.halted && t.running.Some?
    ensures var u, r := Apply(t, Join(false)).0, t.running.value;
      && Inv(u) && u.running == t.running && u.halted == t.halted
      && Below(t.kids[r], |t.procs|) && Below(u.kids[r], |u.procs|)
      && (forall p :: 0 <= p < |t.kids| && p != r ==> u.kids[p] == t.kids[p])
      && var order, order' := LatestFirst(t.procs, t.kids[r]), LatestFirst(u.procs, u.kids[r]);
      && Apply(t, Join(false)).1 == Answer(t.procs, order, 0)
      && |order'| == (if order == [] then 0 else |order| - 1)
      && Answers(t.procs, order, n + 1) == [Answer(t.procs, order, 0)] + Answers(u.procs, order', n)
      && Survivors(u.procs, u.kids[r]) == Survivors(t.procs, t.kids[r])
  {
    hide Ordered, Survivors, Latest;
    var u, r := Apply(t, Join(false)).0, t.running.value;
    KidsInTable(t, r);
    StepKeeps(t, Join(false));
    ChildrenAreOrdered(t, r);
    KidsInTable(u, r);
    hide Inv, Answers;
    var i := Latest(t.procs, t.kids[r], |t.kids[r]|);
    if i.Some? {
      TakeLatest(t.procs, t.kids[r], i.value, P.Without(t.kids[r], i.value), u.procs, n);
    } else {
      NoAnswers(t.procs, n);
    }
  }

  /**
    Consecutive joins: the terminated children, last terminated first, each with the status
    it quit with; then -2 for ever. The children that have not terminated keep their order.
   */
  lemma {:induction false} JoinsAreLatestFirst(t: Table, n: nat)
    requires Inv(t) && !t.halted && t.running.Some?
    ensures var u, results, r := Joins(t, n).0, Joins(t, n).1, t.running.value;
      && Inv(u) && u.running == t.running && Below(t.kids[r], |t.procs|)
      && var order := LatestFirst(t.procs, t.kids[r]);
      && results == Answers(t.procs, order, n)
      && (n >= |order| ==> u.kids[r] == Survivors(t.procs, t.kids[r]))
    decreases n
  {
    hide LatestFirst, Survivors, Answer, Answers, Ordered, Inv, Apply, Joins, Callable, Below;
    var r := t.running.value;
    if n == 0 {
      NoJoins(t);
    } else {
      JoinStep(t, n - 1);
      JoinsAreLatestFirst(Apply(t, Join(false)).0, n - 1);
    }
  }

  lemma NoJoins(t: Table)
    requires Inv(t) && !t.halted && t.running.Some?
    ensures var r := t.running.value;
      && r < |t.kids| && Below(t.kids[r], |t.procs|) && Joins(t, 0) == (t, [])
      && var order := LatestFirst(t.procs, t.kids[r]);
      && Answers(t.procs, order, 0) == [] && (order == [] ==> t.kids[r] == Survivors(t.procs, t.kids[r]))
  {
    ChildrenAreOrdered(t, t.running.value);
    AllSurvive(t.procs, t.kids[t.running.value]);
  }

  /** The first of n + 1 joins, and what is left for the others. */
  lemma JoinStep(t: Table, n: nat)
    requires Inv(t) && !t.halted && t.running.Some?
    ensures Callable(t, Join(false))
    ensures var u, r := Apply(t, Join(false)).0, t.running.value;
      && Inv(u) && !u.halted && u.running == t.running && Below(t.kids[r], |t.procs|) && Below(u.kids[r], |u.procs|)
      && var order, order' := LatestFirst(t.procs, t.kids[r]), LatestFirst(u.procs, u.kids[r]);
      && Answers(t.procs, order, n + 1) == [Apply(t, Join(false)).1] + Answers(u.procs, order', n)
      && (n + 1 >= |order| ==> n >= |order'|)
      && Survivors(u.procs, u.kids[r]) == Survivors(t.procs, t.kids[r])
      && Joins(t, n + 1) == (Joins(u, n).0, [Apply(t, Join(false)).1] + Joins(u, n).1)
  {
    hide LatestFirst, Survivors, Answer, Answers, Ordered, Inv, Apply, Joins, Callable, Below;
    JoinTakesLatest(t, n);
    JoinsUnfold(t, n + 1);
  }

  lemma JoinsUnfold(t: Table, n: nat)
    requires Inv(t) && !t.halted && t.running.Some?
    ensures n == 0 ==> Joins(t, n) == (t, [])
    ensures n > 0 ==> var u := Apply(t, Join(false)).0;
      && Callable(t, Join(false)) && Inv(u) && !u.halted && u.running == t.running
      && Joins(t, n) == (Joins(u, n - 1).0, [Apply(t, Join(false)).1] + Joins(u, n - 1).1)
  {
    if n > 0 { StepKeeps(t, Join(false)); }
  }

  lemma AllSurvive(procs: seq<Proc>, list: seq<nat>)
    requires Below(list, |procs|) && Ordered(procs, list)
    ensures LatestFirst(procs, list) == [] ==> Survivors(procs, list) == list
  {
    if LatestFirst(procs, list) == [] {
      NoneIsDead(procs, list);
      LiveSurvive(procs, list);
    }
  }

  lemma {:induction false} LiveSurvive(procs: seq<Proc>, list: seq<nat>)
    requires Below(list, |procs|) && forall i :: 0 <= i < |list| ==> !Dead(procs[list[i]])
    ensures Survivors(procs, list) == list
  {
    if list != [] { LiveSurvive(procs, list[1..]); }
  }

  // --- the table in place --------------------------------------------------------------------------------

  class Phase1a {
    const processTable: array<Proc>
    const children: array<int>
    const next: array<int>
    var terminationCounter: nat
    var running: Option<nat>
    var nextPid: nat
    var halted: bool
    ghost var kids: seq<seq<nat>>
    ghost var quits: seq<nat>

    ghost function Snap(): Table
      reads this, processTable
    {
      Table(processTable[..], kids, running, nextPid, halted, quits)
    }

    ghost predicate Wired()
      reads this, children, next
    {
      && children != next && children.Length == next.Length == processTable.Length
      && AllLinked(children[..], next[..], kids)
      && terminationCounter == |quits|
    }

    ghost predicate Valid()
      reads this, processTable, children, next
    {
      Wired() && Inv(Snap())
    }

    /** phase1_init */
    constructor (maxProc: nat)
      requires maxProc >= 2
      ensures Valid() && fresh(processTable) && fresh(children) && fresh(next) && Snap() == Initial(maxProc)
    {
      processTable := new Proc[maxProc];
      children := new int[maxProc];
      next := new int[maxProc];
      terminationCounter, running, nextPid, halted := 0, None, 0, false;
      kids, quits := Initial(maxProc).kids, [];
      new;
      hide Inv;
      var i := 0;
      while i < maxProc
        invariant 0 <= i <= maxProc
        invariant forall j :: 0 <= j < i ==> processTable[j] == Proc(UNUSED, RUNNABLE, 0, 0)
        invariant forall j :: 0 <= j < i ==> children[j] == next[j] == NULL
        modifies processTable, children, next
      {
        processTable[i] := Proc(UNUSED, RUNNABLE, 0, 0);
        children[i], next[i] := NULL, NULL;
        i := i + 1;
      }
      processTable[1] := Proc(1, RUNNABLE, 0, 0);
      nextPid := nextPid + 2;
      assert Snap() == Initial(maxProc);
      EveryRun(maxProc, []);
    }

    method Spork() returns (r: Result)
      requires Valid() && !halted && running.Some?
      modifies this, processTable, children, next
      ensures Valid() && (Snap(), r) == DoSpork(old(Snap()))
    {
      hide Inv, Linked, Apart, Stamped, Kids;
      ghost var t := Snap();
      assert Callable(t, Call.Spork);
      SporkKeeps(t);
      InTable(t);
      var parent, pid := running.value, nextPid;
      nextPid := nextPid + 1;
      var slot := nextPid % processTable.Length;
      if processTable[slot].pid != UNUSED {
        return NoSlot;
      }
      SpareSlot(t, slot);
      processTable[slot] := processTable[slot].(pid := pid, status := RUNNABLE);
      children[slot] := NULL;
      next[slot] := NULL;
      kids := kids[slot := []];
      DropList(old(children[..]), children[..], old(next[..]), next[..], t.kids, slot);
      LinkIn(children, parent, next, slot, true, kids);
      kids := kids[parent := kids[parent] + [slot]];
      assert Snap() == DoSpork(t).0;
      r := Sporked(pid);
    }

    /** quit_phase_1a */
    method QuitTo(status: int, switchToPid: int)
      requires Valid() && !halted && running.Some?
      modifies this, processTable
      ensures Valid() && Snap() == DoQuit(old(Snap()), status, switchToPid)
    {
      hide Inv, Linked, Stamped;
      ghost var t := Snap();
      assert Callable(t, Quit(status, switchToPid));
      QuitKeeps(t, status, switchToPid);
      InTable(t);
      var r := running.value;
      processTable[r] := processTable[r].(status := TERMINATED, exitStatus := status, termOrder := terminationCounter);
      terminationCounter := terminationCounter + 1;
      quits := quits + [r];
      FindAndSwitch(switchToPid);
    }

    method FindAndSwitch(pid: int)
      modifies this`running, this`halted
      ensures Snap() == DoSwitch(old(Snap()), pid)
    {
      var i, found := 0, None;
      while i < processTable.Length && found.None?
        invariant 0 <= i <= processTable.Length
        invariant WithPid(processTable[..], pid, 0) == if found.Some? then found else WithPid(processTable[..], pid, i)
      {
        if processTable[i].pid == pid {
          found := Some(i);
        }
        i := i + 1;
      }
      if found.None? || processTable[found.value].pid == UNUSED {
        halted := true;
      } else {
        running := found;
      }
    }

    /** TEMP_switchTo */
    method SwitchTo(pid: int)
      requires Valid() && !halted
      modifies this`running, this`halted
      ensures Valid() && Snap() == DoSwitch(old(Snap()), pid)
    {
      FindAndSwitch(pid);
    }

    method Join(statusIsNull: bool) returns (r: Result)
      requires Valid() && !halted && running.Some?
      modifies processTable, children, next, this`kids
      ensures Below(old(kids)[running.value], |old(kids)|)
      ensures Valid() && (Snap(), r) == DoJoin(old(Snap()), statusIsNull)
    {
      hide Inv, Linked, Apart, Stamped, Kids, AllLinked;
      ghost var t := Snap();
      assert Callable(t, Call.Join(statusIsNull));
      InTable(t);
      KidsInTable(t, running.value);
      JoinKeeps(t, statusIsNull);
      if statusIsNull {
        return NullStatus;
      }
      var parent := running.value;
      var target := LatestChild(parent);
      if target == NULL {
        return NoneTerminated;
      }
      r := Result.Reaped(processTable[target].pid, processTable[target].exitStatus);
      UnlinkChild(parent, target, Latest(processTable[..], kids[parent], |kids[parent]|).value);
      processTable[target] := processTable[target].(pid := UNUSED, status := RUNNABLE);
    }

    /** The scan of join. */
    method LatestChild(parent: nat) returns (target: int)
      requires Wired() && parent < |kids| && Below(kids[parent], processTable.Length)
      ensures var i := Latest(processTable[..], kids[parent], |kids[parent]|);
        target == if i.None? then NULL else kids[parent][i.value]
    {
      ghost var list, i := kids[parent], 0;
      assert Linked(children[..][parent], next[..], list);
      var child, highestOrder := children[parent], -1;
      target := NULL;
      while child != NULL
        invariant i <= |list| && child == if i < |list| then list[i] else NULL
        invariant var best := Latest(processTable[..], list, i);
          if best.None? then target == NULL && highestOrder == -1
          else target == list[best.value] && highestOrder == processTable[target].termOrder
        decreases |list| - i
      {
        LinkAt(children[parent], next[..], list, i);
        if processTable[child].status == TERMINATED && processTable[child].termOrder > highestOrder {
          highestOrder := processTable[child].termOrder;
          target := child;
        }
        child, i := next[child], i + 1;
      }
    }

    method UnlinkChild(parent: nat, target: nat, ghost i: nat)
      requires Wired() && Apart(kids) && parent < |kids| && i < |kids[parent]|
        && target == kids[parent][i] < next.Length
      modifies children, next, this`kids
      ensures Wired() && kids == old(kids)[parent := P.Without(old(kids)[parent], i)]
    {
      ghost var list, head, before := kids[parent], children[parent], next[..];
      assert Linked(children[..][parent], before, list);
      LinkAt(head, before, list, i);
      if children[parent] == target {
        assert i == 0;
        children[parent] := next[target];
      } else {
        ghost var k := 0;
        var prev := children[parent];
        while prev != NULL && next[prev] != target
          invariant k < i && prev == list[k] && next[..] == before && children[..] == old(children[..])
            && kids == old(kids)
          decreases |list| - k
        {
          LinkAt(head, before, list, k);
          prev, k := next[prev], k + 1;
          LinkAt(head, before, list, k - 1);
        }
        LinkAt(head, before, list, k);
        next[prev] := next[target];
      }
      UnlinkedIs(head, before, next[..], list, i, P.Without(list, i));
      kids := kids[parent := P.Without(list, i)];
      OthersLinked(old(children[..]), children[..], before, next[..], old(kids), parent, P.Without(list, i));
    }
  }

  lemma InTable(t: Table)
    requires Inv(t)
    ensures |t.kids| == |t.procs| > 0 && Apart(t.kids) && (t.running.Some? ==> t.running.value < |t.procs|)
  {}

  lemma SpareSlot(t: Table, s: nat)
    requires Inv(t) && s < |t.procs| && t.procs[s].pid == UNUSED
    ensures Apart(t.kids) && Apart(t.kids[s := []]) && OnNone(t.kids, s) && OnNone(t.kids[s := []], s)
  {
    assert forall p :: 0 <= p < |t.kids| ==> Kids(t.procs, p, t.kids[p]);
  }

  /** Emptying the list of a slot that is on none. */
  lemma DropList(heads: seq<int>, heads': seq<int>, links: seq<int>, links': seq<int>, lists: seq<seq<nat>>, s: nat)
    requires AllLinked(heads, links, lists) && Apart(lists) && OnNone(lists, s) && s < |lists| && s < |links|
    requires heads' == heads[s := NULL] && links' == links[s := NULL]
    ensures AllLinked(heads', links', lists[s := []])
  {
    OthersLinked(heads, heads', links, links', lists, s, []);
  }
}
