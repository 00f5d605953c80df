/**
  Counting semaphores of phase 3: a signed value, a count of blocked processes, and a
  zero-slot mailbox on which blocked processes wait.  The mailbox is a rendezvous: a
  send wakes one waiting receiver, or blocks if there is none.
 */
module Semaphores {

  datatype Sem = Sem(value: int, blocked: int, inUse: bool)

  /** Calls since creation: the initial value, P and V calls, and P calls that returned. */
  datatype SemLog = SemLog(initial: int, ps: nat, vs: nat, done: nat)

  datatype Table = Table(sems: seq<Sem>, waiting: seq<seq<int>>, logs: seq<SemLog>)

  datatype Event =
    | SemCreate(value: int)
    | SemP(pid: int, index: int)
    | SemV(index: int, choice: nat)   // `choice` picks the receiver the rendezvous wakes

  datatype Result =
    | Failed                 // arg4 = -1
    | Created(index: nat)
    | Passed                 // returned 0
    | Waits                  // blocked in the receive
    | Woke(pid: int)         // returned 0 after waking pid
    | Stuck                  // blocked in the send

  ghost predicate Shape(t: Table) {
    |t.sems| == |t.waiting| == |t.logs|
  }

  predicate Usable(t: Table, i: int) {
    0 <= i < |t.sems| && t.sems[i].inUse
  }

  function FirstUnused(sems: seq<Sem>): (i: nat)
    ensures i <= |sems|
    ensures forall j :: 0 <= j < i ==> sems[j].inUse
    ensures i < |sems| ==> !sems[i].inUse
  {
    if sems == [] || !sems[0].inUse then 0 else 1 + FirstUnused(sems[1..])
  }

  function Remove(list: seq<int>, i: nat): seq<int>
    requires i < |list|
  {
    list[..i] + list[i + 1..]
  }

  /** Which waiting receiver a send wakes. */
  function Pick(waiting: seq<int>, choice: nat): (i: nat)
    requires waiting != []
    ensures i < |waiting|
  {
    choice % |waiting|
  }

  function Step(t: Table, e: Event): (Table, Result)
    requires Shape(t)
  {
    match e
    case SemCreate(v) =>
      var i := FirstUnused(t.sems);
      if v < 0 || i == |t.sems| then (t, Failed)
      else (t.(sems := t.sems[i := t.sems[i].(value := v, inUse := true)], logs := t.logs[i := SemLog(v, 0, 0, 0)]),
        Created(i))
    case SemP(pid, i) =>
      if !Usable(t, i) then (t, Failed)
      else
        var s, log := t.sems[i].(value := t.sems[i].value - 1), t.logs[i].(ps := t.logs[i].ps + 1);
        if s.value < 0 then
          (Table(t.sems[i := s.(blocked := s.blocked + 1)], t.waiting[i := t.waiting[i] + [pid]],
            t.logs[i := log]), Waits)
        else (t.(sems := t.sems[i := s], logs := t.logs[i := log.(done := log.done + 1)]), Passed)
    case SemV(i, choice) =>
      if !Usable(t, i) then (t, Failed)
      else
        var s, log := t.sems[i].(value := t.sems[i].value + 1), t.logs[i].(vs := t.logs[i].vs + 1);
        if s.value <= 0 && s.blocked > 0 then
          var sems := t.sems[i := s.(blocked := s.blocked - 1)];
          if t.waiting[i] == [] then (t.(sems := sems, logs := t.logs[i := log]), Stuck)
          else
            var w := Pick(t.waiting[i], choice);
            (Table(sems, t.waiting[i := Remove(t.waiting[i], w)], t.logs[i := log.(done := log.done + 1)]),
              Woke(t.waiting[i][w]))
        else (t.(sems := t.sems[i := s], logs := t.logs[i := log]), Passed)
  }

  /** phase3_init. */
  function Initial(maxSems: nat): Table {
    Table(seq(maxSems, i => Sem(-1, 0, false)), seq(maxSems, i => []), seq(maxSems, i => SemLog(0, 0, 0, 0)))
  }

  // --- the system calls, in place ------------------------------------------------------------

  class SemTable {
    const sems: array<Sem>
    const waiting: array<seq<int>>   // receivers waiting at each semaphore's mailbox
    ghost var logs: seq<SemLog>

    ghost predicate Valid()
      reads this, sems, waiting
    {
      sems.Length == waiting.Length == |logs|
    }

    ghost function State(): Table
      requires Valid()
      reads this, sems, waiting
    {
      Table(sems[..], waiting[..], logs)
    }

    constructor (maxSems: nat)
      ensures Valid() && fresh(sems) && fresh(waiting) && State() == Initial(maxSems)
    {
      sems := new Sem[maxSems](i => Sem(-1, 0, false));
      waiting := new seq<int>[maxSems](i => []);
      logs := seq(maxSems, i => SemLog(0, 0, 0, 0));
      new;
      assert sems[..] == Initial(maxSems).sems && waiting[..] == Initial(maxSems).waiting;
    }

    method SysSemCreate(value: int) returns (r: Result)
      requires Valid()
      modifies this, sems
      ensures Valid() && (State(), r) == Step(old(State()), SemCreate(value))
    {
      if value < 0 {
        return Failed;
      }
      var index := 0;
      while index < sems.Length && sems[index].inUse
        invariant 0 <= index <= sems.Length
        invariant forall j :: 0 <= j < index ==> sems[j].inUse
      {
        index := index + 1;
      }
      assert index == FirstUnused(sems[..]);
      if index == sems.Length {
        return Failed;
      }
      sems[index] := sems[index].(value := value, inUse := true);
      logs := logs[index := SemLog(value, 0, 0, 0)];
      return Created(index);
    }

    method SysSemP(pid: int, index: int) returns (r: Result)
      requires Valid()
      modifies this, sems, waiting
      ensures Valid() && (State(), r) == Step(old(State()), SemP(pid, index))
    {
      ghost var after := Step(State(), SemP(pid, index)).0;
      if index < 0 || index >= sems.Length || !sems[index].inUse {
        return Failed;
      }
      sems[index] := sems[index].(value := sems[index].value - 1);
      logs := logs[index := logs[index].(ps := logs[index].ps + 1)];
      if sems[index].value < 0 {
        sems[index] := sems[index].(blocked := sems[index].blocked + 1);
        waiting[index] := waiting[index] + [pid];
        assert sems[..] == after.sems && waiting[..] == after.waiting && logs == after.logs;
        return Waits;
      }
      logs := logs[index := logs[index].(done := logs[index].done + 1)];
      assert sems[..] == after.sems && logs == after.logs;
      return Passed;
    }

    method SysSemV(index: int, choice: nat) returns (r: Result)
      requires Valid()
      modifies this, sems, waiting
      ensures Valid() && (State(), r) == Step(old(State()), SemV(index, choice))
    {
      ghost var after := Step(State(), SemV(index, choice)).0;
      if index < 0 || index >= sems.Length || !sems[index].inUse {
        return Failed;
      }
      sems[index] := sems[index].(value := sems[index].value + 1);
      logs := logs[index := logs[index].(vs := logs[index].vs + 1)];
      if sems[index].value <= 0 && sems[index].blocked > 0 {
        sems[index] := sems[index].(blocked := sems[index].blocked - 1);
        assert sems[..] == after.sems;
        if waiting[index] == [] {
          return Stuck;
        }
        var w := Pick(waiting[index], choice);
        r := Woke(waiting[index][w]);
        waiting[index] := Remove(waiting[index], w);
        logs := logs[index := logs[index].(done := logs[index].done + 1)];
        assert waiting[..] == after.waiting && logs == after.logs;
        return;
      }
      return Passed;
    }
  }

  // --- the law -----------------------------------------------------------------------------------

  function Max(a: int, b: int): int { if a >= b then a else b }
  function Min(a: int, b: int): int { if a <= b then a else b }

  /** The state of one semaphore, from nothing but the calls made on it. */
  ghost predicate SemLaw(s: Sem, waiting: seq<int>, log: SemLog) {
    if s.inUse then
      && log.initial >= 0
      && s.value == log.initial + log.vs - log.ps
      && s.blocked == |waiting| == Max(0, -s.value)
      && log.done == Min(log.ps, log.initial + log.vs)
    else s.blocked == 0 && waiting == []
  }

  ghost predicate Law(t: Table) {
    Shape(t) && forall i :: 0 <= i < |t.sems| ==> SemLaw(t.sems[i], t.waiting[i], t.logs[i])
  }

  /** Every call keeps the law of every semaphore, and V never blocks. */
  lemma LawStep(t: Table, e: Event)
    requires Law(t)
    ensures Law(Step(t, e).0) && !Step(t, e).1.Stuck?
  {
    var t' := Step(t, e).0;
    forall i | 0 <= i < |t.sems| ensures SemLaw(t'.sems[i], t'.waiting[i], t'.logs[i]) {
      assert SemLaw(t.sems[i], t.waiting[i], t.logs[i]);
    }
  }

  /** The index of a semaphore that is in use; every other one is refused. */
  ghost predicate Exists(t: Table, i: int) {
    0 <= i < |t.sems| && t.sems[i].inUse
  }

  ghost predicate CreateAnswers(t: Table, v: int, t': Table, r: Result)
    requires Shape(t) && Shape(t')
  {
    if v < 0 || forall j :: 0 <= j < |t.sems| ==> t.sems[j].inUse then r == Failed && t' == t
    else
      && r.Created? && r.index < |t.sems| == |t'.sems|
      && (forall j :: 0 <= j < r.index ==> t.sems[j].inUse) && !t.sems[r.index].inUse
      && t'.sems[r.index] == Sem(v, 0, true) && t'.waiting[r.index] == []
  }

  /** A P call of pid waits exactly if the value was not positive. */
  ghost predicate PAnswers(t: Table, pid: int, i: int, t': Table, r: Result)
    requires Shape(t) && Shape(t')
  {
    if !Exists(t, i) then r == Failed && t' == t
    else
      && |t'.sems| == |t.sems| && r == (if t.sems[i].value <= 0 then Waits else Passed)
      && t'.sems[i].value == t.sems[i].value - 1 && t'.sems[i].inUse
      && t'.waiting[i] == t.waiting[i] + if r == Waits then [pid] else []
  }

  /** A V call wakes one waiting process exactly if the value was negative. */
  ghost predicate VAnswers(t: Table, i: int, t': Table, r: Result)
    requires Shape(t) && Shape(t')
  {
    if !Exists(t, i) then r == Failed && t' == t
    else
      && |t'.sems| == |t.sems| && (if t.sems[i].value < 0 then r.Woke? else r == Passed)
      && t'.sems[i].value == t.sems[i].value + 1 && t'.sems[i].inUse
      && if r.Woke? then exists w :: 0 <= w < |t.waiting[i]| && LetsGo(t.waiting[i], w, t'.waiting[i], r.pid)
         else t'.waiting[i] == t.waiting[i]
  }

  ghost predicate LetsGo(waiting: seq<int>, w: nat, rest: seq<int>, pid: int) {
    w < |waiting| && pid == waiting[w] && rest == waiting[..w] + waiting[w + 1..]
  }

  ghost predicate Answers(t: Table, e: Event, t': Table, r: Result)
    requires Shape(t) && Shape(t')
  {
    match e
    case SemCreate(v) => CreateAnswers(t, v, t', r)
    case SemP(pid, i) => PAnswers(t, pid, i, t', r)
    case SemV(i, _) => VAnswers(t, i, t', r)
  }

  /** When a call is refused, when it waits, and whom it wakes, from the state before it. */
  lemma AnswersExactly(t: Table, e: Event)
    requires Law(t)
    ensures Shape(Step(t, e).0) && Answers(t, e, Step(t, e).0, Step(t, e).1)
  {
    var t' := Step(t, e).0;
    match e {
      case SemCreate(_) =>
        var i := FirstUnused(t.sems);
        if i < |t.sems| { assert SemLaw(t.sems[i], t.waiting[i], t.logs[i]) && !t.sems[i].inUse; }
      case SemP(_, i) =>
        if 0 <= i < |t.sems| { assert SemLaw(t.sems[i], t.waiting[i], t.logs[i]); }
      case SemV(i, choice) =>
        if 0 <= i < |t.sems| {
          assert SemLaw(t.sems[i], t.waiting[i], t.logs[i]);
          if Step(t, e).1.Woke? {
            assert LetsGo(t.waiting[i], Pick(t.waiting[i], choice), t'.waiting[i], Step(t, e).1.pid);
          }
        }
    }
  }

  /** A call on one semaphore leaves every other one alone. */
  lemma OthersUnchanged(t: Table, e: Event, j: nat)
    requires Shape(t) && j < |t.sems|
    requires match e case SemCreate(_) => j != FirstUnused(t.sems) case SemP(_, i) => j != i case SemV(i, _) => j != i
    ensures var t' := Step(t, e).0;
      && Shape(t') && |t'.sems| == |t.sems|
      && t'.sems[j] == t.sems[j] && t'.waiting[j] == t.waiting[j] && t'.logs[j] == t.logs[j]
  {}

  function Run(t: Table, events: seq<Event>): (u: Table)
    requires Shape(t)
    ensures Shape(u)
    decreases |events|
  {
    if events == [] then t else Run(Step(t, events[0]).0, events[1..])
  }

  /** How often an event of each kind was applied to semaphore i while it was in use. */
  function CountP(t: Table, events: seq<Event>, i: nat): nat
    requires Shape(t)
    decreases |events|
  {
    if events == [] then 0
    else
      (if events[0].SemP? && events[0].index == i && i < |t.sems| && t.sems[i].inUse then 1 else 0) +
      CountP(Step(t, events[0]).0, events[1..], i)
  }

  function CountV(t: Table, events: seq<Event>, i: nat): nat
    requires Shape(t)
    decreases |events|
  {
    if events == [] then 0
    else
      (if events[0].SemV? && events[0].index == i && i < |t.sems| && t.sems[i].inUse then 1 else 0) +
      CountV(Step(t, events[0]).0, events[1..], i)
  }

  lemma {:induction false} LawHolds(t: Table, events: seq<Event>)
    requires Law(t)
    ensures Law(Run(t, events))
    decreases |events|
  {
    if events != [] {
      LawStep(t, events[0]);
      LawHolds(Step(t, events[0]).0, events[1..]);
    }
  }

  /** The logs are the counts of the calls made on the semaphore, and its initial value never changes. */
  lemma {:induction false} LogsCount(t: Table, events: seq<Event>, i: nat)
    requires Shape(t) && i < |t.sems| && t.sems[i].inUse
    ensures var u := Run(t, events);
      && Shape(u) && |u.sems| == |t.sems| && u.sems[i].inUse
      && u.logs[i].initial == t.logs[i].initial
      && u.logs[i].ps == t.logs[i].ps + CountP(t, events, i)
      && u.logs[i].vs == t.logs[i].vs + CountV(t, events, i)
    decreases |events|
  {
    if events != [] {
      LogsCount(Step(t, events[0]).0, events[1..], i);
    }
  }

  /**
    The semaphore law, from the call that creates semaphore i with value v: whatever calls
    follow, on this semaphore and on others, its value, blocked count, waiting processes
    and completed P calls are these, and holders never exceed the initial value.
   */
  lemma SemaphoreLaw(t: Table, v: int, i: nat, events: seq<Event>)
    requires Law(t) && Step(t, SemCreate(v)).1 == Created(i)
    ensures var created := Step(t, SemCreate(v)).0;
      Shape(created) &&
      var u, p, q := Run(created, events), CountP(created, events, i), CountV(created, events, i);
      && Shape(u) && i < |u.sems|
      && u.sems[i].value == v + q - p
      && u.sems[i].blocked == |u.waiting[i]| == Max(0, p - q - v)
      && u.logs[i].done == Min(p, v + q)
      && u.logs[i].done - q <= v
  {
    var created := Step(t, SemCreate(v)).0;
    LawStep(t, SemCreate(v));
    LawHolds(created, events);
    LogsCount(created, events, i);
    var u := Run(created, events);
    assert SemLaw(u.sems[i], u.waiting[i], u.logs[i]);
  }

  lemma InitialLaw(maxSems: nat)
    ensures Law(Initial(maxSems))
  {}

  /** The same from phase3_init on, whatever calls came before the creation. */
  lemma SemaphoreLawFromInit(maxSems: nat, before: seq<Event>, v: int, i: nat, events: seq<Event>)
    requires Step(Run(Initial(maxSems), before), SemCreate(v)).1 == Created(i)
    ensures var created := Step(Run(Initial(maxSems), before), SemCreate(v)).0;
      Shape(created) &&
      var u, p, q := Run(created, events), CountP(created, events, i), CountV(created, events, i);
      && Shape(u) && i < |u.sems|
      && u.sems[i].value == v + q - p
      && u.sems[i].blocked == |u.waiting[i]| == Max(0, p - q - v)
      && u.logs[i].done == Min(p, v + q) && u.logs[i].done - q <= v
  {
    hide Step, Run, CountP, CountV, Law, Initial;
    InitialLaw(maxSems);
    LawHolds(Initial(maxSems), before);
    SemaphoreLaw(Run(Initial(maxSems), before), v, i, events);
  }

  // --- who waits ------------------------------------------------------------------------------------

  /** The processes whose P call on semaphore i had to wait. */
  function Waited(t: Table, events: seq<Event>, i: nat): seq<int>
    requires Shape(t)
    decreases |events|
  {
    if events == [] then []
    else
      var (u, r) := Step(t, events[0]);
      (if events[0].SemP? && events[0].index == i && r == Waits then [events[0].pid] else []) +
      Waited(u, events[1..], i)
  }

  /** The processes that a V call on semaphore i let go. */
  function LetGo(t: Table, events: seq<Event>, i: nat): seq<int>
    requires Shape(t)
    decreases |events|
  {
    if events == [] then []
    else
      var (u, r) := Step(t, events[0]);
      (if events[0].SemV? && events[0].index == i && r.Woke? then [r.pid] else []) +
      LetGo(u, events[1..], i)
  }

  /** How often pid is in a list. */
  ghost function Times(list: seq<int>, pid: int): nat {
    multiset(list)[pid]
  }

  lemma TimesAppend(a: seq<int>, b: seq<int>, pid: int)
    ensures Times(a + b, pid) == Times(a, pid) + Times(b, pid)
  {}

  lemma TimesTakenOut(waiting: seq<int>, w: nat, pid: int)
    requires w < |waiting|
    ensures Times(waiting, pid) == Times(Remove(waiting, w), pid) + Times([waiting[w]], pid)
  {
    assert waiting == waiting[..w] + [waiting[w]] + waiting[w + 1..];
  }

  lemma WaitersStep(t: Table, e: Event, i: nat, pid: int)
    requires Law(t) && i < |t.sems|
    ensures var (u, r) := Step(t, e);
      && |u.sems| == |u.waiting| == |t.sems|
      && Times(t.waiting[i], pid) + Times(if e.SemP? && e.index == i && r == Waits then [e.pid] else [], pid) ==
         Times(if e.SemV? && e.index == i && r.Woke? then [r.pid] else [], pid) + Times(u.waiting[i], pid)
  {
    if e.SemV? && e.index == i && Step(t, e).1.Woke? {
      TimesTakenOut(t.waiting[i], Pick(t.waiting[i], e.choice), pid);
    }
  }

  /** Over any run: a process that waited was let go as often, or still waits. */
  lemma {:induction false} WaitersConserved(t: Table, events: seq<Event>, i: nat, pid: int)
    requires Law(t) && i < |t.sems|
    ensures var u := Run(t, events);
      && i < |u.waiting|
      && Times(t.waiting[i], pid) + Times(Waited(t, events, i), pid) ==
         Times(LetGo(t, events, i), pid) + Times(u.waiting[i], pid)
    decreases |events|
  {
    hide Step, Law, Times;
    LawShape(t);
    if events == [] {
      NoTimes(pid);
    } else {
      var e := events[0];
      var (u, r) := Step(t, e);
      LawStep(t, e);
      WaitersStep(t, e, i, pid);
      WaitersConserved(u, events[1..], i, pid);
      TimesAppend(if e.SemP? && e.index == i && r == Waits then [e.pid] else [], Waited(u, events[1..], i), pid);
      TimesAppend(if e.SemV? && e.index == i && r.Woke? then [r.pid] else [], LetGo(u, events[1..], i), pid);
    }
  }

  lemma NoTimes(pid: int)
    ensures Times([], pid) == 0
  {}

  lemma LawShape(t: Table)
    requires Law(t)
    ensures Shape(t)
  {}
}
