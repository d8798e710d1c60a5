/**
 The exchange of a sound tree as a list of lines, each written by one side, read by the other, and
 answered with one confirmation. Both sides' logs are functions of this list.
 */
module Lines {
  import opened Prelude
  import opened Stream
  import opened Receiver
  import opened Sender
  import opened Grammar
  import opened Transmission
  import opened RoundTrip

  /** `looked` when the receiver looks at the first byte before it reads the line. */
  datatype Line = Line(looked: bool, text: Bytes)

  function LinesOf(node: Source, preserve: bool): seq<Line>
    requires Sendable(node, preserve)
    decreases node, 1
  {
    (if preserve then [Line(true, TimesLine(node.info))] else [])
    + match node
      case RegularFile(info, content) =>
        [Line(true, FileLine(info)), Line(false, Available(info, content) + [0])]
      case Directory(info, entries) =>
        [Line(true, DirLine(info))] + AllLines(entries, preserve) + [Line(true, END_LINE)]
  }

  function AllLines(nodes: seq<Source>, preserve: bool): seq<Line>
    requires SendableAll(nodes, preserve)
    decreases nodes, 0
  {
    if nodes == [] then [] else LinesOf(nodes[0], preserve) + AllLines(nodes[1..], preserve)
  }

  /** A line written, then a zero byte read. */
  function SaidFine(text: Bytes, log: seq<Event>): (log': seq<Event>)
    ensures log' == log + Puts(text) + [Got(0)]
  {
    assert HeardClosing(Accepted) == [Got(0)];
    SaidLine(text, Accepted, log)
  }

  /** The sender's log: each line written, then its confirmation awaited. */
  function SaidLines(lines: seq<Line>, log: seq<Event>): seq<Event>
  {
    if lines == [] then log else SaidLines(lines[1..], SaidFine(lines[0].text, log))
  }

  function HeardLine(line: Line, log: seq<Event>): seq<Event>
    requires line.text != []
  {
    log + (if line.looked then [Peeked(line.text[0])] else []) + Gots(line.text) + [Put(0)]
  }

  predicate Solid(lines: seq<Line>)
  {
    forall i :: 0 <= i < |lines| ==> lines[i].text != []
  }

  /** The receiver's log: each line read, then confirmed. */
  function HeardLines(lines: seq<Line>, log: seq<Event>): seq<Event>
    requires Solid(lines)
  {
    if lines == [] then log else HeardLines(lines[1..], HeardLine(lines[0], log))
  }

  function Flat(lines: seq<Line>): Bytes
  {
    if lines == [] then [] else lines[0].text + Flat(lines[1..])
  }

  // ---------- the logs of a tree are the logs of its lines ----------

  lemma {:induction false} SaidLinesSplit(a: seq<Line>, b: seq<Line>, log: seq<Event>)
    ensures SaidLines(a + b, log) == SaidLines(b, SaidLines(a, log))
  {
    if a == [] {
      assert a + b == b;
    } else {
      assert (a + b)[1..] == a[1..] + b;
      SaidLinesSplit(a[1..], b, SaidFine(a[0].text, log));
    }
  }

  lemma {:induction false} HeardLinesSplit(a: seq<Line>, b: seq<Line>, log: seq<Event>)
    requires Solid(a) && Solid(b)
    ensures HeardLines(a + b, log) == HeardLines(b, HeardLines(a, log))
  {
    if a == [] {
      assert a + b == b;
    } else {
      assert (a + b)[1..] == a[1..] + b;
      HeardLinesSplit(a[1..], b, HeardLine(a[0], log));
    }
  }

  lemma SaidContents(info: Info, content: Bytes, log: seq<Event>)
    ensures SaidFine([0], log + Puts(Available(info, content))) == SaidFine(Available(info, content) + [0], log)
  {
  }

  lemma OneLine(line: Line, log: seq<Event>)
    ensures SaidLines([line], log) == SaidFine(line.text, log)
    ensures line.text != [] ==> HeardLines([line], log) == HeardLine(line, log)
  {
  }

  lemma FineHeader(info: Info, line: Bytes, preserve: bool, n: nat, i: nat, log: seq<Event>)
    ensures SaidHeader(info, line, preserve, Fine(n), i, log)
         == SaidFine(line, if preserve then SaidFine(TimesLine(info), log) else log)
  {
    hide TimesLine;
  }

  function TimesHeader(info: Info, preserve: bool): seq<Line>
  {
    if preserve then [Line(true, TimesLine(info))] else []
  }

  /** The lines that begin a node. */
  lemma HeaderInLines(info: Info, line: Line, more: seq<Line>, preserve: bool, n: nat, i: nat, log: seq<Event>)
    ensures SaidLines(TimesHeader(info, preserve) + ([line] + more), log)
         == SaidLines(more, SaidHeader(info, line.text, preserve, Fine(n), i, log))
  {
    hide SaidFine, SaidHeader, TimesLine, SaidLines;
    FineHeader(info, line.text, preserve, n, i, log);
    OneLine(Line(true, TimesLine(info)), log);
    var log1 := if preserve then SaidFine(TimesLine(info), log) else log;
    NoLine(log);
    SaidLinesSplit(TimesHeader(info, preserve), [line] + more, log);
    SaidLinesSplit([line], more, log1);
    OneLine(line, log1);
  }

  lemma NoLine(log: seq<Event>)
    ensures SaidLines([], log) == log
  {
  }

  lemma {:induction false} NodeInLines(
    node: Source, preserve: bool, render: Error -> Bytes, n: nat, i: nat, log: seq<Event>)
    requires Sendable(node, preserve)
    ensures Said(node, preserve, render, Fine(n), i, log) == SaidLines(LinesOf(node, preserve), log)
    decreases node, 1
  {
    hide SaidFine, SaidHeader, SaidLines, SaidLine, TimesLine, FileLine, DirLine, Available;
    var j := i + Lead(preserve) + 1;
    match node {
      case RegularFile(info, content) =>
        var (a, b) := (Line(true, FileLine(info)), Line(false, Available(info, content) + [0]));
        var log1 := SaidHeader(info, a.text, preserve, Fine(n), i, log);
        assert LinesOf(node, preserve) == TimesHeader(info, preserve) + ([a] + [b]);
        HeaderInLines(info, a, [b], preserve, n, i, log);
        OneLine(b, log1);
        SaidContents(info, content, log1);
        FineLine([0], n, j, log1 + Puts(Available(info, content)));
      case Directory(info, entries) =>
        var (a, b) := (Line(true, DirLine(info)), Line(true, END_LINE));
        var middle := AllLines(entries, preserve);
        var log1 := SaidHeader(info, a.text, preserve, Fine(n), i, log);
        assert LinesOf(node, preserve) == TimesHeader(info, preserve) + ([a] + (middle + [b]));
        HeaderInLines(info, a, middle + [b], preserve, n, i, log);
        SaidLinesSplit(middle, [b], log1);
        NodesInLines(entries, preserve, render, n, j, log1);
        OneLine(b, SaidLines(middle, log1));
        FineLine(END_LINE, n, j + AcksAll(entries, preserve), SaidLines(middle, log1));
    }
  }

  lemma FineLine(line: Bytes, n: nat, i: nat, log: seq<Event>)
    ensures SaidLine(line, AckAt(Fine(n), i), log) == SaidFine(line, log)
  {
  }

  lemma {:induction false} NodesInLines(
    nodes: seq<Source>, preserve: bool, render: Error -> Bytes, n: nat, i: nat, log: seq<Event>)
    requires SendableAll(nodes, preserve)
    ensures SaidAll(nodes, preserve, render, Fine(n), i, log) == SaidLines(AllLines(nodes, preserve), log)
    decreases nodes, 0
  {
    if nodes != [] {
      NodeInLines(nodes[0], preserve, render, n, i, log);
      NodesInLines(nodes[1..], preserve, render, n, i + Acks(nodes[0], preserve),
                   SaidLines(LinesOf(nodes[0], preserve), log));
      SaidLinesSplit(LinesOf(nodes[0], preserve), AllLines(nodes[1..], preserve), log);
    }
  }

  lemma {:induction false} LinesAreSolid(node: Source, preserve: bool)
    requires Sendable(node, preserve)
    ensures Solid(LinesOf(node, preserve)) && |LinesOf(node, preserve)| == Acks(node, preserve)
    decreases node, 1
  {
    if node.Directory? {
      AllLinesAreSolid(node.entries, preserve);
    }
  }

  lemma {:induction false} AllLinesAreSolid(nodes: seq<Source>, preserve: bool)
    requires SendableAll(nodes, preserve)
    ensures Solid(AllLines(nodes, preserve)) && |AllLines(nodes, preserve)| == AcksAll(nodes, preserve)
    decreases nodes, 0
  {
    if nodes != [] {
      LinesAreSolid(nodes[0], preserve);
      AllLinesAreSolid(nodes[1..], preserve);
    }
  }

  lemma HeadIsHeard(node: Source, preserve: bool, log: seq<Event>)
    requires Sendable(node, preserve)
    ensures var r := EntryOf(node, preserve).record;
            var line := if node.RegularFile? then FileLine(node.info) else DirLine(node.info);
            line != [] && HeardHead(r, log + [Peeked(Kind(r))]) == HeardLine(Line(true, line), log)
  {
    hide FileLine, DirLine, EntryOf;
    LineIsHead(node, preserve, []);
    var r := EntryOf(node, preserve).record;
    var line := if node.RegularFile? then FileLine(node.info) else DirLine(node.info);
    assert line + [] == line == ShowHead(r, []);
    assert line[0] == Kind(r);
  }

  lemma BodyIsHeard(data: Bytes, log: seq<Event>)
    ensures log + Gots(data) + HeardClosing(Accepted) + [Put(0)] == HeardLine(Line(false, data + [0]), log)
  {
    assert HeardClosing(Accepted) == Gots([0]) by {
      assert ShowClosing(Accepted, []) == [0];
    }
    assert log + Gots(data) + Gots([0]) == log + [] + Gots(data + [0]);
  }

  lemma FileInLines(node: Source, preserve: bool, log: seq<Event>)
    requires Sendable(node, preserve) && node.RegularFile?
    ensures Solid(LinesOf(node, preserve))
    ensures HeardEntry(EntryOf(node, preserve), log) == HeardLines(LinesOf(node, preserve), log)
  {
    hide HeardLine, HeardHead, HeardClosing, TimesLine, FileLine, DirLine, Available, ShowStamp;
    LinesAreSolid(node, preserve);
    var header := if preserve then [Line(true, TimesLine(node.info))] else [];
    StampIsHeard(node, preserve, log);
    var log1 := HeardLines(header, log);
    HeadIsHeard(node, preserve, log1);
    var (a, b) := (Line(true, FileLine(node.info)), Line(false, Available(node.info, node.content) + [0]));
    BodyIsHeard(Available(node.info, node.content), HeardLine(a, log1));
    assert LinesOf(node, preserve) == header + ([a] + [b]);
    HeardLinesSplit(header, [a] + [b], log);
    HeardLinesSplit([a], [b], log1);
    OneLine(a, log1);
    OneLine(b, HeardLine(a, log1));
  }

  /** A directory's head, then its body, in lines. */
  lemma DirectoryInLines(a: Line, middle: seq<Line>, log: seq<Event>)
    requires a.text != [] && Solid(middle)
    ensures var lines := [a] + (middle + [Line(true, END_LINE)]);
            && Solid(lines)
            && HeardLines(lines, log) == HeardLine(Line(true, END_LINE), HeardLines(middle, HeardLine(a, log)))
  {
    hide HeardLine;
    var b := Line(true, END_LINE);
    HeardLinesSplit([a], middle + [b], log);
    OneLine(a, log);
    HeardLinesSplit(middle, [b], HeardLine(a, log));
    OneLine(b, HeardLines(middle, HeardLine(a, log)));
  }

  lemma {:induction false} EntryInLines(node: Source, preserve: bool, log: seq<Event>)
    requires Sendable(node, preserve)
    ensures Solid(LinesOf(node, preserve))
    ensures HeardEntry(EntryOf(node, preserve), log) == HeardLines(LinesOf(node, preserve), log)
    decreases node, 1
  {
    hide HeardLine, HeardHead, HeardEntries, HeardLines, TimesLine, DirLine, FileLine, ShowStamp;
    if node.RegularFile? {
      FileInLines(node, preserve, log);
    } else {
      LinesAreSolid(node, preserve);
      var header := if preserve then [Line(true, TimesLine(node.info))] else [];
      StampIsHeard(node, preserve, log);
      var log1 := HeardLines(header, log);
      HeadIsHeard(node, preserve, log1);
      var a, middle := Line(true, DirLine(node.info)), AllLines(node.entries, preserve);
      AllLinesAreSolid(node.entries, preserve);
      DirectoryInLines(a, middle, log1);
      EntriesInLines(node.entries, preserve, HeardLine(a, log1));
      EndIsHeard(HeardLines(middle, HeardLine(a, log1)));
      var body := [a] + (middle + [Line(true, END_LINE)]);
      assert LinesOf(node, preserve) == header + body;
      HeardLinesSplit(header, body, log);
    }
  }

  lemma EndIsHeard(log: seq<Event>)
    ensures HeardLine(Line(true, END_LINE), log) == log + [Peeked(E_RECORD)] + Gots([E_RECORD, NEWLINE]) + [Put(0)]
  {
  }

  lemma StampIsHeard(node: Source, preserve: bool, log: seq<Event>)
    requires Sendable(node, preserve)
    ensures var header := if preserve then [Line(true, TimesLine(node.info))] else [];
            && Solid(header)
            && HeardLines(header, log)
               == if preserve then HeardStamp(StampOf(node.info), log + [Peeked(T_RECORD)]) else log
  {
    StampIsLine(node.info, []);
    assert TimesLine(node.info) + [] == TimesLine(node.info);
    OneLine(Line(true, TimesLine(node.info)), log);
  }

  lemma {:induction false} EntriesInLines(nodes: seq<Source>, preserve: bool, log: seq<Event>)
    requires SendableAll(nodes, preserve)
    ensures Solid(AllLines(nodes, preserve))
    ensures HeardEntries(EntriesOf(nodes, preserve), log) == HeardLines(AllLines(nodes, preserve), log)
    decreases nodes, 0
  {
    AllLinesAreSolid(nodes, preserve);
    if nodes != [] {
      hide HeardEntry, HeardLine;
      EntryInLines(nodes[0], preserve, log);
      AllLinesAreSolid(nodes[1..], preserve);
      assert EntriesOf(nodes, preserve)[1..] == EntriesOf(nodes[1..], preserve);
      EntriesInLines(nodes[1..], preserve, HeardLines(LinesOf(nodes[0], preserve), log));
      HeardLinesSplit(LinesOf(nodes[0], preserve), AllLines(nodes[1..], preserve), log);
    }
  }
}
