/**
  Terminal input over whole runs of the system: one driver, any readers, and everyone else
  on every other mailbox.  The order of lines comes from the queue law of the mailbox.
 */
module TerminalInput {
  import opened Wrappers
  import opened Mailboxes
  import opened SlotLedger
  import opened MailboxFifo
  import opened MailboxRuns
  import opened TerminalLines
  import opened TerminalKernel

  /** The characters the driver received, and for each finished line whether the mailbox took it. */
  datatype Input = Input(sys: System, stream: Text, sent: seq<bool>)

  datatype Event =
    | Char(c: byte)           // one turn of the driver
    | Read(pid: nat)          // TermRead calls the receive
    | ReadOn(pid: nat)        // a reader that was blocked in it resumes
    | Other(action: Action)   // anyone else, anywhere else

  /** The line a character finishes. */
  function Finished(stream: Text, c: byte): Option<Text> {
    var line := Assembled(stream).partial + [c];
    if c == NEWLINE || |line| == MAXLINE then Some(line) else None
  }

  function SendOf(m: nat, line: Text): Action
    requires |line| <= MAXLINE
  {
    Start(TrySending(m, Bytes(Sendable(line)), |Sendable(line)|))
  }

  function ReadFrom(m: nat, pid: nat): Action {
    Start(Receiving(pid, m, LINE_SIZE))
  }

  /** The mailbox action behind an event, if it has one. */
  function ActionOf(i: Input, m: nat, e: Event): Option<Action> {
    match e
    case Char(c) =>
      FramingIsWellFormed(i.stream);
      var line := Finished(i.stream, c);
      if line.Some? then Some(SendOf(m, line.value)) else None
    case Read(pid) => Some(ReadFrom(m, pid))
    case ReadOn(pid) => Some(Resume(pid))
    case Other(a) => Some(a)
  }

  ghost predicate Possible(i: Input, m: nat, e: Event) {
    && SystemOk(i.sys)
    && (ActionOf(i, m, e).Some? ==> Enabled(i.sys, ActionOf(i, m, e).value))
    && match e
       case ReadOn(pid) => i.sys.procs[pid].call == RecvCall(m, LINE_SIZE)
       case Other(a) => Elsewhere(i.sys, a, m)
       case _ => true
  }

  ghost function Then(i: Input, m: nat, e: Event): Input
    requires Possible(i, m, e)
  {
    var a := ActionOf(i, m, e);
    var sys := if a.Some? then After(i.sys, a.value) else i.sys;
    match e
    case Char(c) =>
      Input(sys, i.stream + [c], if a.Some? then i.sent + [EffectOf(i.sys, a.value).out == Accepted] else i.sent)
    case _ => i.(sys := sys)
  }

  /** The messages made of the lines that were taken. */
  ghost function Kept(lines: seq<Text>, sent: seq<bool>): (data: seq<Message>)
    requires |sent| == |lines| && forall j :: 0 <= j < |lines| ==> |lines[j]| <= MAXLINE
    ensures AreLines(data)
  {
    if lines == [] then []
    else
      var n := |lines| - 1;
      Kept(lines[..n], sent[..n]) + if sent[n] then [Sendable(lines[n])] else []
  }

  ghost predicate LineBoxOpen(box: Box) {
    box.isActive && box.numSlots == MAX_LINES_BUFFERED && box.slotSize == LINE_SIZE
  }

  /** What the mailbox accepted since its creation is what the driver finished and it took. */
  ghost predicate Fed(i: Input, m: nat) {
    && SystemOk(i.sys) && m < |i.sys.kernel.boxes| && LineBoxOpen(BoxView(i.sys.kernel, m)) && QueueLaw(i.sys, m)
    && FedLog(i.sys.logs[m], i.stream, i.sent)
  }

  ghost predicate FedLog(log: Log, stream: Text, sent: seq<bool>) {
    |sent| == |Assembled(stream).lines| && log.accepted == Taken(stream, sent)
  }

  ghost function Taken(stream: Text, sent: seq<bool>): seq<Message>
    requires |sent| == |Assembled(stream).lines|
  {
    FramingIsWellFormed(stream);
    Kept(Assembled(stream).lines, sent)
  }

  // --- the log of the mailbox ------------------------------------------------------------------------

  /** A step changes what mailbox m has accepted only by a send it takes, or by creating m anew. */
  lemma AcceptedAfter(s: System, a: Action, m: nat)
    requires SystemOk(s) && Enabled(s, a) && m < |s.logs|
    ensures var slice, e := SliceOf(s, a), EffectOf(s, a);
      && |After(s, a).logs| == |s.logs|
      && (m != Subject(slice, e.out) ==> After(s, a).logs[m] == s.logs[m])
      && (m == Subject(slice, e.out) && !e.out.Created? ==>
        After(s, a).logs[m].accepted == s.logs[m].accepted + if e.out == Accepted then [Sent(slice)] else [])
      && (m == Subject(slice, e.out) ==>
        match e.out
        case Delivered(data) => After(s, a).logs[m].removed == s.logs[m].removed + [data]
        case Truncated(data) => After(s, a).logs[m].removed == s.logs[m].removed + [data]
        case Created(_) => After(s, a).logs[m].accepted == After(s, a).logs[m].removed == []
        case _ => After(s, a).logs[m].removed == s.logs[m].removed)
  {
    hide Balanced, Marked, Execute;
  }

  /** Sends and receives leave the mailbox open and configured as it was; others do not touch it. */
  lemma LineBoxKept(s: System, a: Action, m: nat)
    requires SystemOk(s) && Enabled(s, a) && m < |s.kernel.boxes| && LineBoxOpen(BoxView(s.kernel, m))
    requires m == Subject(SliceOf(s, a), EffectOf(s, a).out) ==>
      SliceOf(s, a).TrySending? || SliceOf(s, a).Receiving? || SliceOf(s, a).RecvResuming?
    ensures SystemOk(After(s, a)) && m < |After(s, a).kernel.boxes| && LineBoxOpen(BoxView(After(s, a).kernel, m))
    ensures Allowed(View(s.kernel), SliceOf(s, a), EffectOf(s, a).out)
      && View(s.kernel).boxes[m] == BoxView(s.kernel, m)
    ensures View(s.kernel).free == |s.kernel.free|
  {
    hide Balanced, Marked, Execute, After;
    AfterOk(s, a);
    LogAfter(s, a, m);
    var slice, e := SliceOf(s, a), EffectOf(s, a);
    Refines(s.kernel, slice);
    SameMailboxes(s.kernel, slice);
    assert View(s.kernel).boxes[m] == BoxView(s.kernel, m) && View(e.kernel).boxes[m] == BoxView(e.kernel, m);
    if m != Subject(slice, e.out) { OtherBoxesStay(View(s.kernel), slice, e.out, m); }
  }

  lemma KeptMore(lines: seq<Text>, sent: seq<bool>, line: Text, taken: bool)
    requires |sent| == |lines| && (forall j :: 0 <= j < |lines| ==> |lines[j]| <= MAXLINE) && |line| <= MAXLINE
    ensures Kept(lines + [line], sent + [taken]) == Kept(lines, sent) + if taken then [Sendable(line)] else []
  {
    var longer, flags := lines + [line], sent + [taken];
    assert longer[..|lines|] == lines && flags[..|lines|] == sent;
  }

  /** The driver: a finished line is taken if mailbox and pool have room, and then it is the last one accepted. */
  lemma CharFed(i: Input, m: nat, e: Event)
    requires Fed(i, m) && Possible(i, m, e) && e.Char?
    ensures Fed(Then(i, m, e), m)
    ensures var line, box := Finished(i.stream, e.c), BoxView(i.sys.kernel, m);
      Then(i, m, e).sent ==
        if line.None? then i.sent else i.sent + [i.sys.kernel.free != [] && |box.queue| < MAX_LINES_BUFFERED]
  {
    hide Balanced, Marked, Execute, After, BoxView, QueueLaw, Assembled, Sendable, Kept, Inv;
    FramingIsWellFormed(i.stream);
    OneMore(i.stream, e.c);
    var f, line := Assembled(i.stream), Finished(i.stream, e.c);
    if line.Some? {
      var a := SendOf(m, line.value);
      QueueLawStep(i.sys, a, m);
      AcceptedAfter(i.sys, a, m);
      LineBoxKept(i.sys, a, m);
      KeptMore(f.lines, i.sent, line.value, EffectOf(i.sys, a).out == Accepted);
      var data := Sendable(line.value);
      assert Payload(Bytes(data), |data|) == data;
    }
  }

  /** A reader gets the next line that was taken, whole; with none left it waits, or fails if it had waited already. */
  lemma ReadGetsNext(i: Input, m: nat, e: Event)
    requires Fed(i, m) && Possible(i, m, e) && (e.Read? || e.ReadOn?)
    ensures Fed(Then(i, m, e), m)
    ensures var taken, log, log' := i.sys.logs[m].accepted, i.sys.logs[m].removed, Then(i, m, e).sys.logs[m].removed;
      var out := EffectOf(i.sys, ActionOf(i, m, e).value).out;
      && |log| <= |taken|
      && (|log| < |taken| ==> out == Delivered(taken[|log|]) && log' == log + [taken[|log|]])
      && (|log| == |taken| ==> log' == log && if e.Read? then out.Blocked? else out == Error)
  {
    hide Balanced, Marked, Execute, After, Assembled, Sendable, Kept, BoxOk;
    var a := ActionOf(i, m, e).value;
    QueueLawStep(i.sys, a, m);
    AcceptedAfter(i.sys, a, m);
    LineBoxKept(i.sys, a, m);
    var log, queue := i.sys.logs[m], BoxView(i.sys.kernel, m).queue;
    assert log.accepted == log.removed + queue;
    if queue != [] { assert log.accepted[|log.removed|] == queue[0] && queue[0] in log.accepted; }
  }

  lemma OtherFed(i: Input, m: nat, e: Event)
    requires Fed(i, m) && Possible(i, m, e) && e.Other?
    ensures Fed(Then(i, m, e), m) && Then(i, m, e).sys.logs[m] == i.sys.logs[m]
  {
    hide Balanced, Marked, Execute, After, BoxView, QueueLaw, Assembled, Kept, Inv;
    ElsewhereIs(i.sys, e.action, m);
    QueueLawStep(i.sys, e.action, m);
    AcceptedAfter(i.sys, e.action, m);
    LineBoxKept(i.sys, e.action, m);
  }

  // --- whole runs ---------------------------------------------------------------------------------------

  ghost predicate IsRunOf(i: Input, m: nat, events: seq<Event>)
    decreases |events|
  {
    events == [] || (Possible(i, m, events[0]) && IsRunOf(Then(i, m, events[0]), m, events[1..]))
  }

  ghost function Finally(i: Input, m: nat, events: seq<Event>): Input
    requires IsRunOf(i, m, events)
    decreases |events|
  {
    if events == [] then i else Finally(Then(i, m, events[0]), m, events[1..])
  }

  lemma TakenIsQueued(i: Input, m: nat)
    requires Fed(i, m)
    ensures |i.sent| == |Assembled(i.stream).lines|
    ensures i.sys.logs[m].removed + BoxView(i.sys.kernel, m).queue == Taken(i.stream, i.sent)
  {
    hide Balanced, Marked, Taken, Assembled;
  }

  /**
    Over any run: the lines readers got are the first of those the mailbox took, in order,
    each once and whole; the others are queued; and what it took are lines of the stream.
   */
  lemma {:induction false} LinesInOrder(i: Input, m: nat, events: seq<Event>)
    requires Fed(i, m) && IsRunOf(i, m, events)
    ensures var j := Finally(i, m, events);
      Fed(j, m) && j.sys.logs[m].removed + BoxView(j.sys.kernel, m).queue == Taken(j.stream, j.sent)
    decreases |events|
  {
    hide Possible, Then, Taken, BoxView, SystemOk, LineBoxOpen, Fed;
    if events == [] {
      TakenIsQueued(i, m);
    } else {
      var e := events[0];
      match e {
        case Char(_) => CharFed(i, m, e);
        case Read(_) => ReadGetsNext(i, m, e);
        case ReadOn(_) => ReadGetsNext(i, m, e);
        case Other(_) => OtherFed(i, m, e);
      }
      LinesInOrder(Then(i, m, e), m, events[1..]);
    }
  }

  /** phase4_init: the mailbox it creates is fed by a driver that has received nothing. */
  lemma NewLineBox(s: System, a: Action, m: nat)
    requires SystemOk(s) && Enabled(s, a) && m < |s.logs| && QueueLaw(s, m)
    requires a == Start(Creating(MAX_LINES_BUFFERED, LINE_SIZE)) && EffectOf(s, a).out == Created(m)
    ensures SystemOk(After(s, a)) && Fed(Input(After(s, a), [], []), m)
  {
    hide Balanced, Marked, Execute, After;
    AfterOk(s, a);
    Refines(s.kernel, a.slice);
    LogAfter(s, a, m);
    QueueLawStep(s, a, m);
    AcceptedAfter(s, a, m);
    assert View(After(s, a).kernel).boxes[m] == BoxView(After(s, a).kernel, m);
  }
}
