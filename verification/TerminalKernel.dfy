/** The terminal driver's line buffer and TermRead on the mailbox kernel, in place. */
module TerminalKernel {
  import opened Wrappers
  import opened Mailboxes
  import opened SlotLedger
  import opened MailboxFifo
  import opened MailboxKernel
  import opened TerminalLines

  const MAX_LINES_BUFFERED: nat := 10
  const LINE_SIZE: nat := MAXLINE + 1

  /** A finished line as it is sent: up to its first NUL, with a NUL at the end. */
  function Sendable(line: Text): (data: Message)
    requires |line| <= MAXLINE
    ensures 1 <= |data| <= LINE_SIZE && CutAtNul(data) == data[..|data| - 1] == CutAtNul(line)
    ensures data[|data| - 1] == NUL
  {
    var cut := CutAtNul(line);
    CutOfSent(cut);
    cut + [NUL]
  }

  lemma {:induction false} CutOfSent(cut: Text)
    requires NUL !in cut
    ensures CutAtNul(cut + [NUL]) == cut
  {
    if cut != [] {
      CutOfSent(cut[1..]);
      assert (cut + [NUL])[1..] == cut[1..] + [NUL];
    }
  }

  /** The line-ready mailbox: open, configured as phase4_init does, holding lines as sent. */
  ghost predicate IsLineBox(k: Kernel, id: nat) {
    && Inv(k) && id < |k.boxes| && k.boxes[id].isActive
    && k.boxes[id].numSlots == MAX_LINES_BUFFERED && k.boxes[id].slotSize == LINE_SIZE
    && AreLines(BoxView(k, id).queue)
  }

  ghost predicate AreLines(queue: seq<Message>) {
    forall i :: 0 <= i < |queue| ==> |queue[i]| <= LINE_SIZE
  }

  ghost predicate AboutLines(k: Kernel, slice: Slice, id: nat)
    requires Shape(k)
  {
    && Runnable(k, slice)
    && (slice.TrySending? || slice == RecvResuming(id, LINE_SIZE) || (slice.Receiving? && slice.max == LINE_SIZE))
    && slice.id == id
  }

  lemma LineBox(k: Kernel, slice: Slice, id: nat)
    requires IsLineBox(k, id) && AboutLines(k, slice, id)
    ensures var e := Execute(k, slice);
      && Faithful(k, slice) && |e.kernel.boxes| == |k.boxes|
      && View(k).boxes[id] == BoxView(k, id) && View(k).free == |k.free|
      && View(e.kernel).boxes[id] == BoxView(e.kernel, id)
  {
    hide Balanced, Marked, Execute;
    Refines(k, slice);
    assert |View(k).boxes| == |k.boxes| && |View(Execute(k, slice).kernel).boxes| == |Execute(k, slice).kernel.boxes|;
  }

  /** A line is taken whole if the mailbox and the pool have room, and dropped whole if not. */
  lemma LineSent(k: Kernel, id: nat, data: Message)
    requires IsLineBox(k, id) && |data| <= LINE_SIZE
    ensures var e, queue := CondSend(k, id, Bytes(data), |data|), BoxView(k, id).queue;
      && IsLineBox(e.kernel, id)
      && e.out == (if k.free != [] && |queue| < MAX_LINES_BUFFERED then Accepted else WouldBlock)
      && BoxView(e.kernel, id).queue == if e.out == Accepted then queue + [data] else queue
  {
    hide Balanced, Marked;
    LineBox(k, TrySending(id, Bytes(data), |data|), id);
    assert Payload(Bytes(data), |data|) == data;
  }

  /** A reader gets the oldest line, whole, or waits. */
  lemma LineRead(k: Kernel, pid: nat, id: nat)
    requires IsLineBox(k, id)
    ensures var e, queue := RecvEnter(k, pid, id, LINE_SIZE), BoxView(k, id).queue;
      && IsLineBox(e.kernel, id)
      && (queue == [] ==> e.out.Blocked? && BoxView(e.kernel, id).queue == [])
      && (queue != [] ==> e.out == Delivered(queue[0]) && BoxView(e.kernel, id).queue == queue[1..])
  {
    hide Balanced, Marked;
    LineBox(k, Receiving(pid, id, LINE_SIZE), id);
  }

  /** A reader that waited gets the oldest line, or fails if another reader was faster. */
  lemma LineReadOn(k: Kernel, id: nat)
    requires IsLineBox(k, id)
    ensures var e, queue := SlotRecvResume(k, id, LINE_SIZE), BoxView(k, id).queue;
      && IsLineBox(e.kernel, id)
      && (queue == [] ==> e.out == Error && BoxView(e.kernel, id).queue == [])
      && (queue != [] ==> e.out == Delivered(queue[0]) && BoxView(e.kernel, id).queue == queue[1..])
  {
    hide Balanced, Marked;
    LineBox(k, RecvResuming(id, LINE_SIZE), id);
  }

  // --- the driver and the reader ----------------------------------------------------------------

  /** What TermRead gives its caller: -1, a line cut to the user's size, or nothing yet. */
  datatype ReadResult = ReadError | MustWait | ReadLine(text: Text)

  /** The text of a received line: up to its NUL, and no more than the user's buffer holds. */
  function UserText(data: Message, size: nat): (text: Text)
    ensures text <= CutAtNul(data) && |text| == if size < |CutAtNul(data)| then size else |CutAtNul(data)|
  {
    var line := CutAtNul(data);
    line[..if size < |line| then size else |line|]
  }

  class TermBuffer {
    const kernel: MailKernel
    const lineReadyMbox: nat
    const currLine: array<byte>
    var currLen: nat
    ghost var stream: Text   // characters received

    ghost predicate Valid()
      reads this, currLine, kernel, kernel.Arrays()
    {
      && currLine !in kernel.Arrays()
      && currLine.Length == MAXLINE + 1 && currLen < MAXLINE && currLine[..currLen] == Assembled(stream).partial
      && kernel.Valid() && IsLineBox(kernel.Snap(), lineReadyMbox)
    }

    ghost function Ready(): (queue: seq<Message>)
      requires kernel.Valid() && IsLineBox(kernel.Snap(), lineReadyMbox)
      reads kernel, kernel.Arrays()
    {
      BoxView(kernel.Snap(), lineReadyMbox).queue
    }

    constructor (kernel: MailKernel, lineReadyMbox: nat)
      requires kernel.Valid() && IsLineBox(kernel.Snap(), lineReadyMbox)
      ensures Valid() && stream == [] && this.kernel == kernel && this.lineReadyMbox == lineReadyMbox && fresh(currLine)
    {
      this.kernel, this.lineReadyMbox := kernel, lineReadyMbox;
      currLine := new byte[MAXLINE + 1];
      currLen, stream := 0, [];
    }

    /** The conditional send of a finished line. */
    method SendLine(data: Message) returns (out: Outcome)
      requires kernel.Valid() && IsLineBox(kernel.Snap(), lineReadyMbox) && |data| <= LINE_SIZE
      modifies kernel, kernel.Arrays()
      ensures kernel.Valid() && IsLineBox(kernel.Snap(), lineReadyMbox)
      ensures out ==
        if old(kernel.freeSlotCount) > 0 && |old(Ready())| < MAX_LINES_BUFFERED then Accepted else WouldBlock
      ensures Ready() == if out == Accepted then old(Ready()) + [data] else old(Ready())
    {
      hide Balanced, Marked, Inv, CondSend;
      LineSent(kernel.Snap(), lineReadyMbox, data);
      out := kernel.MboxCondSend(lineReadyMbox, Bytes(data), |data|);
    }

    /** MboxRecv on the line mailbox, up to its return or its blockMe. */
    method RecvLine(pid: nat) returns (out: Outcome)
      requires kernel.Valid() && IsLineBox(kernel.Snap(), lineReadyMbox)
      modifies kernel, kernel.Arrays()
      ensures kernel.Valid() && IsLineBox(kernel.Snap(), lineReadyMbox)
      ensures old(Ready()) == [] ==> out.Blocked? && Ready() == []
      ensures old(Ready()) != [] ==> out == Delivered(old(Ready())[0]) && Ready() == old(Ready())[1..]
    {
      hide Balanced, Marked, Inv, RecvEnter;
      LineRead(kernel.Snap(), pid, lineReadyMbox);
      out := kernel.MboxRecv(pid, lineReadyMbox, LINE_SIZE);
    }

    /** Put a character into the line buffer, which has room for it. */
    method Append(c: byte)
      requires currLen < MAXLINE < currLine.Length
      modifies this`currLen, currLine
      ensures currLen == old(currLen) + 1 && currLine[..currLen] == old(currLine[..currLen]) + [c]
    {
      currLine[currLen] := c;
      currLen := currLen + 1;
    }

    /** Terminate the line in the buffer, send it, and start a new one. */
    method Finish() returns (out: Outcome)
      requires kernel.Valid() && IsLineBox(kernel.Snap(), lineReadyMbox) && currLine !in kernel.Arrays()
      requires currLen <= MAXLINE < currLine.Length
      modifies this`currLen, currLine, kernel, kernel.Arrays()
      ensures kernel.Valid() && IsLineBox(kernel.Snap(), lineReadyMbox) && currLen == 0
      ensures out ==
        if old(kernel.freeSlotCount) > 0 && |old(Ready())| < MAX_LINES_BUFFERED then Accepted else WouldBlock
      ensures Ready() == old(Ready()) + if out == Accepted then [Sendable(old(currLine[..currLen]))] else []
    {
      hide Inv, IsLineBox, MailKernel.Wired, MailKernel.Valid, MailKernel.Snap, Ready, CutAtNul, Sendable, Assembled;
      ghost var line := currLine[..currLen];
      currLine[currLen] := NUL;
      assert currLine[..currLen] == line;
      out := SendLine(Sendable(currLine[..currLen]));
      currLen := 0;
    }

    /** One turn of TermDriver on a received character; the code of the send, if there was one. */
    method OnChar(c: byte) returns (sent: Option<Outcome>)
      requires Valid()
      modifies this, currLine, kernel, kernel.Arrays()
      ensures Valid() && stream == old(stream) + [c]
      ensures var before, after := Assembled(old(stream)).lines, Assembled(stream).lines;
        if |after| == |before| then sent == None && Ready() == old(Ready())
        else
          && |after| == |before| + 1 && |after[|before|]| <= MAXLINE
          && sent == Some(
            if old(kernel.freeSlotCount) > 0 && |old(Ready())| < MAX_LINES_BUFFERED then Accepted else WouldBlock)
          && Ready() == old(Ready()) + if sent == Some(Accepted) then [Sendable(after[|before|])] else []
    {
      hide Inv, IsLineBox, MailKernel.Wired, MailKernel.Valid, MailKernel.Snap, Ready, CutAtNul, Sendable, Assembled;
      OneMore(stream, c);
      stream := stream + [c];
      Append(c);
      sent := None;
      if c == NEWLINE || currLen == MAXLINE {
        var out := Finish();
        sent := Some(out);
      }
    }

    /** sys_term_read up to its return or its blockMe. */
    method TermRead(pid: nat, argsOk: bool, size: int) returns (r: ReadResult)
      requires Valid()
      modifies kernel, kernel.Arrays()
      ensures Valid() && (r == ReadError <==> !argsOk || size <= 0)
      ensures r == MustWait <==> argsOk && size > 0 && old(Ready()) == []
      ensures r.ReadLine? ==>
        old(Ready()) != [] && r.text == UserText(old(Ready())[0], size) && Ready() == old(Ready())[1..]
      ensures !r.ReadLine? ==> Ready() == old(Ready())
    {
      hide Inv, IsLineBox, MailKernel.Wired, MailKernel.Valid, MailKernel.Snap, Ready, UserText, Assembled;
      if !argsOk || size <= 0 {
        return ReadError;
      }
      var out := RecvLine(pid);
      return if out.Delivered? then ReadLine(UserText(out.data, size)) else MustWait;
    }

    /** sys_term_read from its blockMe on: -1 if another reader took the line that woke this one. */
    method TermReadResume(size: nat) returns (r: ReadResult)
      requires Valid()
      modifies kernel, kernel.Arrays()
      ensures Valid() && r != MustWait && (r == ReadError <==> old(Ready()) == [])
      ensures r.ReadLine? ==> r.text == UserText(old(Ready())[0], size) && Ready() == old(Ready())[1..]
      ensures r == ReadError ==> Ready() == []
    {
      hide Balanced, Marked, Inv, SlotRecvResume, Assembled, UserText;
      LineReadOn(kernel.Snap(), lineReadyMbox);
      var out := kernel.MboxRecvResume(lineReadyMbox, LINE_SIZE);
      return if out.Delivered? then ReadLine(UserText(out.data, size)) else ReadError;
    }
  }

  /** What one more character does to the framing. */
  lemma OneMore(stream: Text, c: byte)
    ensures var f := Assembled(stream);
      |f.partial| < MAXLINE &&
      Assembled(stream + [c]) ==
        if c == NEWLINE || |f.partial| + 1 == MAXLINE then Framing(f.lines + [f.partial + [c]], [])
        else Framing(f.lines, f.partial + [c])
  {
    FramingIsWellFormed(stream);
    assert (stream + [c])[..|stream|] == stream;
  }
}
