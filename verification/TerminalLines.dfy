/** Terminal input of phase 4: how the driver assembles characters into lines, and what it sends of them. */
module TerminalLines {
  import opened Sequences
  import opened Mailboxes

  const MAXLINE: nat := 80
  const NUL: byte := 0
  const NEWLINE: byte := 10

  type Text = seq<byte>

  /** Finished lines, oldest first, and the characters of the unfinished one. */
  datatype Framing = Framing(lines: seq<Text>, partial: Text)

  function Feed(f: Framing, c: byte): Framing {
    var line := f.partial + [c];
    if c == NEWLINE || |line| == MAXLINE then Framing(f.lines + [line], []) else Framing(f.lines, line)
  }

  function Assembled(stream: Text): Framing {
    if stream == [] then Framing([], []) else Feed(Assembled(stream[..|stream| - 1]), stream[|stream| - 1])
  }

  /** strlen on a buffer with a terminating NUL. */
  function CutAtNul(line: Text): (cut: Text)
    ensures |cut| <= |line| && cut == line[..|cut|]
    ensures NUL !in cut && (|cut| < |line| ==> line[|cut|] == NUL)
  {
    if line == [] || line[0] == NUL then [] else [line[0]] + CutAtNul(line[1..])
  }

  function CutAll(lines: seq<Text>): seq<Text> {
    if lines == [] then [] else CutAll(lines[..|lines| - 1]) + [CutAtNul(lines[|lines| - 1])]
  }

  // --- what framing means --------------------------------------------------------------------

  /** 1 to MAXLINE characters, newline last if at all, and without one exactly MAXLINE. */
  ghost predicate IsLine(line: Text) {
    && 1 <= |line| <= MAXLINE
    && NEWLINE !in line[..|line| - 1]
    && (line[|line| - 1] != NEWLINE ==> |line| == MAXLINE)
  }

  ghost predicate WellFramed(f: Framing) {
    && (forall i :: 0 <= i < |f.lines| ==> IsLine(f.lines[i]))
    && |f.partial| < MAXLINE && NEWLINE !in f.partial
  }

  /** The driver's lines are well framed. */
  lemma {:induction false} FramingIsWellFormed(stream: Text)
    ensures WellFramed(Assembled(stream))
  {
    if stream != [] {
      FramingIsWellFormed(stream[..|stream| - 1]);
      var partial := Assembled(stream[..|stream| - 1]).partial;
      assert (partial + [stream[|stream| - 1]])[..|partial|] == partial;
    }
  }

  /** The driver loses, adds and reorders nothing. */
  lemma {:induction false} FramingIsLossless(stream: Text)
    ensures Concat(Assembled(stream).lines) + Assembled(stream).partial == stream
  {
    if stream != [] {
      var front, c := stream[..|stream| - 1], stream[|stream| - 1];
      FramingIsLossless(front);
      FeedIsLossless(Assembled(front), c);
      assert stream == front + [c];
    }
  }

  lemma FeedIsLossless(f: Framing, c: byte)
    ensures Concat(Feed(f, c).lines) + Feed(f, c).partial == Concat(f.lines) + f.partial + [c]
  {
    ConcatAppend(f.lines, f.partial + [c]);
    assert Concat(f.lines) + (f.partial + [c]) == Concat(f.lines) + f.partial + [c];
  }

  /** And it is the only framing of the stream: the shape of the lines decides where they end. */
  lemma {:induction false} FramingIsUnique(f: Framing, g: Framing)
    requires WellFramed(f) && WellFramed(g)
    requires Concat(f.lines) + f.partial == Concat(g.lines) + g.partial
    ensures f == g
    decreases |f.lines|
  {
    NoLinesLeft(f, g);
    NoLinesLeft(g, f);
    if f.lines != [] {
      var stream := Concat(f.lines) + f.partial;
      FirstLine(f, stream);
      FirstLine(g, stream);
      NoLineInsideLine(f.lines[0], g.lines[0]);
      NoLineInsideLine(g.lines[0], f.lines[0]);
      assert f.lines[0] == g.lines[0];
      FramingIsUnique(f.(lines := f.lines[1..]), g.(lines := g.lines[1..]));
      assert f.lines == [f.lines[0]] + f.lines[1..] && g.lines == [g.lines[0]] + g.lines[1..];
    } else {
      assert Concat(f.lines) + f.partial == f.partial && Concat(g.lines) + g.partial == g.partial;
    }
  }

  lemma FirstLine(f: Framing, stream: Text)
    requires WellFramed(f) && f.lines != [] && stream == Concat(f.lines) + f.partial
    ensures IsLine(f.lines[0]) && f.lines[0] <= stream
    ensures stream[|f.lines[0]|..] == Concat(f.lines[1..]) + f.partial
  {
    assert stream == f.lines[0] + (Concat(f.lines[1..]) + f.partial);
  }

  lemma NoLinesLeft(f: Framing, g: Framing)
    requires WellFramed(f) && WellFramed(g) && Concat(f.lines) + f.partial == Concat(g.lines) + g.partial
    ensures f.lines == [] ==> g.lines == []
  {
    if f.lines == [] && g.lines != [] {
      FirstLine(g, f.partial);
      NoLineInPartial(g.lines[0], f.partial);
    }
  }

  lemma NoLineInsideLine(a: Text, b: Text)
    ensures a < b && IsLine(b) ==> !IsLine(a)
  {
    if a < b && a != [] {
      assert b[..|b| - 1][|a| - 1] == a[|a| - 1];
    }
  }

  lemma NoLineInPartial(line: Text, partial: Text)
    ensures line <= partial && |partial| < MAXLINE && NEWLINE !in partial ==> !IsLine(line)
  {
    if line <= partial && line != [] {
      assert line[|line| - 1] == partial[|line| - 1];
    }
  }

  // --- what is sent: strlen stops at a NUL -----------------------------------------------------

  lemma {:induction false} CutLength(lines: seq<Text>)
    ensures |CutAll(lines)| == |lines| && |Concat(CutAll(lines))| <= |Concat(lines)|
    ensures |Concat(CutAll(lines))| == |Concat(lines)| <==> NUL !in Concat(lines)
    ensures NUL !in Concat(lines) ==> CutAll(lines) == lines
  {
    if lines != [] {
      var front, line := lines[..|lines| - 1], lines[|lines| - 1];
      CutLength(front);
      ConcatAppend(front, line);
      ConcatAppend(CutAll(front), CutAtNul(line));
      assert lines == front + [line];
      if |CutAtNul(line)| < |line| {
        assert NUL in line;
      } else {
        assert CutAtNul(line) == line;
      }
    }
  }

  /** The lines as sent hold the stream exactly when no finished line contains a NUL. */
  lemma SentIsStreamExactly(stream: Text)
    ensures var f := Assembled(stream);
      Concat(CutAll(f.lines)) + f.partial == stream <==> NUL !in Concat(f.lines)
  {
    FramingIsLossless(stream);
    CutLength(Assembled(stream).lines);
  }
}
