/**
 A source-mode sender and a target-mode receiver connected by two byte queues, one step of one side at a
 time, in any order. Each side's behaviour is that of its program on the bytes it has got so far: what it
 has written before it must wait, and whether it waits.
 */
module Lockstep {
  import opened Prelude
  import opened FileSystem
  import opened Stream
  import opened Receiver
  import opened Sender
  import opened Transmission
  import opened Placement
  import opened RoundTrip
  import opened Causality
  import opened Lines

  // ---------- where a log stands when it next reads ----------

  lemma TakenOne(log: seq<Event>, e: Event)
    ensures Taken(log + [e]) == Taken(log) + (if e.Got? then [e.b] else [])
    ensures Written(log + [e]) == Written(log) + (if e.Put? then [e.b] else [])
  {
    assert (log + [e])[..|log|] == log;
  }

  lemma SaidLineTotals(text: Bytes, log: seq<Event>)
    ensures Taken(SaidFine(text, log)) == Taken(log) + [0] && Written(SaidFine(text, log)) == Written(log) + text
    ensures Taken(log + Puts(text)) == Taken(log) && Written(log + Puts(text)) == Written(log) + text
  {
    TakenNone(Puts(text));
    TakenAppend(log, Puts(text));
    WrittenPuts(log, text);
    TakenOne(log + Puts(text), Got(0));
  }

  lemma {:induction false} SaidLinesGrow(lines: seq<Line>, log: seq<Event>)
    ensures log <= SaidLines(lines, log)
    ensures forall i :: |log| <= i < |SaidLines(lines, log)| ==> SaidLines(lines, log)[i] != Eof
  {
    if lines != [] {
      SaidLinesGrow(lines[1..], SaidFine(lines[0].text, log));
    }
  }

  /** A sender about to read has heard `r` confirmations and written one line more. */
  lemma {:induction false} SaidPosition(lines: seq<Line>, log: seq<Event>, k: nat) returns (r: nat)
    requires |log| <= k < |SaidLines(lines, log)| && (SaidLines(lines, log)[k].Got? || SaidLines(lines, log)[k].Peeked?)
    ensures r < |lines|
    ensures Taken(SaidLines(lines, log)[..k]) == Taken(log) + Zeros(r, [])
    ensures Written(SaidLines(lines, log)[..k]) == Written(log) + Flat(lines[..r + 1])
  {
    hide Taken, Written;
    var (text, log1) := (lines[0].text, SaidFine(lines[0].text, log));
    var whole := SaidLines(lines, log);
    SaidLinesGrow(lines[1..], log1);
    SaidLineTotals(text, log);
    if k < |log1| {
      r := 0;
      assert whole[k] == log1[k];
      assert whole[..k] == log + Puts(text);
      assert lines[..1][1..] == [];
      assert Flat(lines[..1]) == text + [];
    } else {
      var r1 := SaidPosition(lines[1..], log1, k);
      r := r1 + 1;
      assert lines[..r + 1][1..] == lines[1..][..r1 + 1];
      assert Flat(lines[..r + 1]) == text + Flat(lines[1..][..r1 + 1]);
    }
  }

  lemma HeardLineTotals(line: Line, log: seq<Event>)
    requires line.text != []
    ensures Taken(HeardLine(line, log)) == Taken(log) + line.text && Written(HeardLine(line, log)) == Written(log) + [0]
  {
    hide Taken, Written;
    var peek := if line.looked then [Peeked(line.text[0])] else [];
    TakenAppend(log, peek);
    TakenNone(peek);
    TakenAppend(log + peek, Gots(line.text));
    TakenGots(line.text);
    assert log + peek + Gots(line.text) == log + (peek + Gots(line.text));
    WrittenNone(log, peek + Gots(line.text));
    TakenOne(log + peek + Gots(line.text), Put(0));
  }

  lemma {:induction false} HeardLinesGrow(lines: seq<Line>, log: seq<Event>)
    requires Solid(lines)
    ensures log <= HeardLines(lines, log)
    ensures Taken(HeardLines(lines, log)) == Taken(log) + Flat(lines)
    ensures Written(HeardLines(lines, log)) == Written(log) + Zeros(|lines|, [])
    ensures forall i :: |log| <= i < |HeardLines(lines, log)| ==> HeardLines(lines, log)[i] != Eof
  {
    hide Taken, Written;
    if lines != [] {
      HeardLineTotals(lines[0], log);
      HeardLinesGrow(lines[1..], HeardLine(lines[0], log));
    }
  }

  /** A receiver about to read has confirmed exactly the lines it has read in full. */
  lemma {:induction false} HeardPosition(lines: seq<Line>, log: seq<Event>, k: nat) returns (r: nat)
    requires Solid(lines)
    requires |log| <= k < |HeardLines(lines, log)|
    requires HeardLines(lines, log)[k].Got? || HeardLines(lines, log)[k].Peeked?
    ensures r < |lines|
    ensures Written(HeardLines(lines, log)[..k]) == Written(log) + Zeros(r, [])
    ensures |Taken(log)| + |Flat(lines[..r])| <= |Taken(HeardLines(lines, log)[..k])|
    ensures |Taken(HeardLines(lines, log)[..k])| < |Taken(log)| + |Flat(lines[..r + 1])|
  {
    hide Taken, Written;
    var (line, log1) := (lines[0], HeardLine(lines[0], log));
    var whole := HeardLines(lines, log);
    HeardLinesGrow(lines[1..], log1);
    HeardLineTotals(line, log);
    if k < |log1| {
      r := 0;
      assert whole[..k] == log1[..k] && whole[k] == log1[k];
      WithinLine(line, log, k);
      assert Flat(lines[..1]) == line.text + [] by {
        assert lines[..1][1..] == [];
      }
    } else {
      var r1 := HeardPosition(lines[1..], log1, k);
      r := r1 + 1;
      assert lines[..r + 1][1..] == lines[1..][..r1 + 1] && lines[..r][1..] == lines[1..][..r1];
      assert Flat(lines[..r + 1]) == line.text + Flat(lines[1..][..r1 + 1]);
      assert Flat(lines[..r]) == line.text + Flat(lines[1..][..r1]);
    }
  }

  /** Before its confirmation, a line is heard without writing. */
  lemma HeardSilently(line: Line, log: seq<Event>, k: nat)
    requires line.text != [] && |log| <= k < |HeardLine(line, log)| && !HeardLine(line, log)[k].Put?
    ensures k < |HeardLine(line, log)| - 1
    ensures HeardLine(line, log)[..k] == log + HeardLine(line, log)[|log|..k]
    ensures forall i :: 0 <= i < k - |log| ==> !HeardLine(line, log)[|log|..k][i].Put?
  {
    var whole := HeardLine(line, log);
    assert whole[|whole| - 1] == Put(0);
  }

  lemma WithinLine(line: Line, log: seq<Event>, k: nat)
    requires line.text != [] && |log| <= k < |HeardLine(line, log)| && !HeardLine(line, log)[k].Put?
    ensures Written(HeardLine(line, log)[..k]) == Written(log)
    ensures |Taken(log)| <= |Taken(HeardLine(line, log)[..k])| < |Taken(log)| + |line.text|
  {
    hide Taken, Written;
    var part := HeardLine(line, log)[|log|..k];
    HeardSilently(line, log, k);
    TakenWithin(line, log, k);
    hide HeardLine;
    WrittenNone(log, part);
    TakenAppend(log, part);
  }

  lemma TakenWithin(line: Line, log: seq<Event>, k: nat)
    requires line.text != [] && |log| <= k < |HeardLine(line, log)| - 1
    ensures |Taken(HeardLine(line, log)[|log|..k])| < |line.text|
  {
    hide Taken;
    var whole := HeardLine(line, log);
    var part := whole[|log|..k];
    var peek := if line.looked then 1 else 0;
    if k <= |log| + peek {
      assert forall i :: 0 <= i < |part| ==> part[i] == whole[|log| + i];
      TakenNone(part);
    } else {
      var read := whole[|log| + peek..k];
      assert read == Gots(line.text[..k - |log| - peek]);
      TakenGots(line.text[..k - |log| - peek]);
      assert part == whole[|log|..|log| + peek] + read;
      TakenAppend(whole[|log|..|log| + peek], read);
      TakenNone(whole[|log|..|log| + peek]);
    }
  }

  // ---------- the two programs ----------

  /** A copy of sound trees into a directory where nothing is in their way. */
  datatype Setup = Setup(
    nodes: seq<Source>, recursive: bool, preserve: bool, render: Error -> Bytes,
    home: Disk, disk: Disk, target: Path, mustBeDirectory: bool)

  ghost predicate Sound(p: Setup)
  {
    && SendableAll(p.nodes, p.preserve) && Room(p.disk, p.target, p.nodes)
    && (p.recursive || forall i :: 0 <= i < |p.nodes| ==> !p.nodes[i].Directory?)
  }

  function Operands(nodes: seq<Source>): seq<Operand>
  {
    seq(|nodes|, i requires 0 <= i < |nodes| => Found(NameOf(nodes[i]), nodes[i].Directory?, nodes[i]))
  }

  /** The sender's run on the acknowledgements it has got, the receiver's on the bytes it has got. */
  function SenderRun(p: Setup, got: Bytes): Step<()>
  {
    SourceCopy(World(got, [], p.home), Operands(p.nodes), p.recursive, p.preserve, p.render)
  }

  function ReceiverRun(p: Setup, got: Bytes): Step<()>
  {
    TargetCopy(World(got, [], p.disk), p.target, p.mustBeDirectory, p.preserve, p.render)
  }

  /** What a run has written when it waits for more input, or when it is over. */
  function Emitted(r: Step<()>): Bytes
  {
    Written(r.w.log[..FirstEof(r.w.log, 0)])
  }

  predicate Waits(r: Step<()>)
  {
    FirstEof(r.w.log, 0) < |r.w.log|
  }

  function Script(p: Setup): seq<Line>
    requires SendableAll(p.nodes, p.preserve)
  {
    AllLines(p.nodes, p.preserve)
  }

  lemma {:induction false} ZerosLength(n: nat, rest: Bytes)
    ensures |Zeros(n, rest)| == n + |rest|
  {
    if n > 0 {
      ZerosLength(n - 1, rest);
    }
  }

  lemma OperandInLines(
    w: World, node: Source, recursive: bool, preserve: bool, render: Error -> Bytes, n: nat, i: nat)
    requires Sendable(node, preserve) && (recursive || !node.Directory?)
    requires i + Acks(node, preserve) <= n && w.input == ShowAcks(Fine(n), i, [])
    ensures SendOperand(w, Found(NameOf(node), node.Directory?, node), recursive, preserve, render)
         == Done(World(ShowAcks(Fine(n), i + Acks(node, preserve), []),
                       Said(node, preserve, render, Fine(n), i, w.log), w.disk), ())
  {
    hide Send, Said, Acks, ShowAcks, GoodAcks;
    FineAcksAreZeros(n, i, []);
    NodeIsSaid(w, node, preserve, render, Fine(n), i, []);
  }

  lemma FirstOperand(nodes: seq<Source>)
    requires nodes != []
    ensures Operands(nodes) != [] && Operands(nodes)[1..] == Operands(nodes[1..])
    ensures Operands(nodes)[0] == Found(NameOf(nodes[0]), nodes[0].Directory?, nodes[0])
  {
  }

  lemma {:induction false} OperandsInLines(
    w: World, nodes: seq<Source>, recursive: bool, preserve: bool, render: Error -> Bytes, n: nat, i: nat)
    requires SendableAll(nodes, preserve) && (recursive || forall i :: 0 <= i < |nodes| ==> !nodes[i].Directory?)
    requires i + AcksAll(nodes, preserve) == n && w.input == ShowAcks(Fine(n), i, [])
    ensures SendOperands(w, Operands(nodes), recursive, preserve, render, None)
         == Done(World([], SaidAll(nodes, preserve, render, Fine(n), i, w.log), w.disk), ())
    decreases |nodes|
  {
    hide SendOperand, Said, Sendable, Acks, Fine, ShowAcks;
    if nodes == [] {
      NoAcksLeft(n);
    } else {
      hide Operands;
      FirstOperand(nodes);
      OperandInLines(w, nodes[0], recursive, preserve, render, n, i);
      var sent := SendOperand(w, Operands(nodes)[0], recursive, preserve, render).w;
      OperandsInLines(sent, nodes[1..], recursive, preserve, render, n, i + Acks(nodes[0], preserve));
    }
  }

  lemma NoAcksLeft(n: nat)
    ensures ShowAcks(Fine(n), n, []) == []
  {
  }

  lemma SenderScript(p: Setup)
    requires Sound(p)
    ensures SenderRun(p, Zeros(|Script(p)| + 1, []))
         == Done(World([], SaidLines([Line(false, [])] + Script(p), []), p.home), ())
  {
    hide SendOperands, SaidAll, Room;
    var n := |Script(p)|;
    AllLinesAreSolid(p.nodes, p.preserve);
    var w := World(Zeros(n + 1, []), [], p.home);
    assert w.input[1..] == Zeros(n, []);
    var w1 := World(Zeros(n, []), [Got(0)], p.home);
    assert AwaitConfirmation(w) == Done(w1, ());
    FineAcksAreZeros(n, 0, []);
    OperandsInLines(w1, p.nodes, p.recursive, p.preserve, p.render, n, 0);
    NodesInLines(p.nodes, p.preserve, p.render, n, 0, [Got(0)]);
    assert SaidFine([], []) == [Got(0)];
    assert ([Line(false, [])] + Script(p))[1..] == Script(p);
  }

  /** The whole run of the sender. */
  lemma SenderFinishes(p: Setup)
    requires Sound(p)
    ensures var r := SenderRun(p, Zeros(|Script(p)| + 1, []));
            && r == Done(World([], SaidLines([Line(false, [])] + Script(p), []), p.home), ())
            && !Waits(r) && Emitted(r) == Flat(Script(p))
  {
    hide SenderRun, Written, Room, SaidLines;
    SenderScript(p);
    var all := [Line(false, [])] + Script(p);
    SaidLinesGrow(all, []);
    var log := SaidLines(all, []);
    assert log[..FirstEof(log, 0)] == log;
    SaidTotals(all, []);
    WrittenNothing();
    assert all[1..] == Script(p);
  }

  lemma WrittenNothing()
    ensures Written([]) == [] && Taken([]) == []
  {
  }

  lemma {:induction false} SaidTotals(lines: seq<Line>, log: seq<Event>)
    ensures Written(SaidLines(lines, log)) == Written(log) + Flat(lines)
  {
    hide Written, Taken;
    if lines != [] {
      SaidLineTotals(lines[0].text, log);
      SaidTotals(lines[1..], SaidFine(lines[0].text, log));
    }
  }

  /** A run on part of an input that is consumed in full stops to wait, with the whole run's log cut at a read. */
  lemma CutAtRead(w: World, more: Bytes, r: Step<()>, full: Step<()>) returns (at: nat)
    requires more != [] && w.log == [] && Causal(w, more, r, full) && full.w.input == []
    ensures Waits(r) && at == FirstEof(r.w.log, 0) && Emitted(r) == Written(full.w.log[..at])
    ensures at < |full.w.log| && Taken(full.w.log[..at]) == w.input
    ensures full.w.log[at].Got? || full.w.log[at].Peeked?
  {
    at := FirstEof(r.w.log, 0);
    WrittenNothing();
  }

  /** Where the whole run stands after `k` confirmations. */
  lemma SenderCut(p: Setup, k: nat) returns (at: nat)
    requires Sound(p) && k <= |Script(p)|
    ensures var log := SaidLines([Line(false, [])] + Script(p), []);
            && Waits(SenderRun(p, Zeros(k, [])))
            && at < |log| && (log[at].Got? || log[at].Peeked?)
            && Emitted(SenderRun(p, Zeros(k, []))) == Written(log[..at]) && Taken(log[..at]) == Zeros(k, [])
  {
    hide SourceCopy, Written, Taken, SaidLines, Room, Causal, Waits, Emitted;
    var n := |Script(p)|;
    var more := Zeros(n + 1 - k, []);
    ZerosAdd(k, n + 1 - k, []);
    ZerosAppend(k, more);
    ZerosLength(n + 1 - k, []);
    var w := World(Zeros(k, []), [], p.home);
    SourceCopyCausal(w, more, Operands(p.nodes), p.recursive, p.preserve, p.render);
    SenderFinishes(p);
    at := CutAtRead(w, more, SenderRun(p, w.input), SenderRun(p, Zeros(n + 1, [])));
  }

  /** After `k` confirmations the sender has written `k` lines and waits. */
  lemma SenderWaits(p: Setup, k: nat)
    requires Sound(p) && k <= |Script(p)|
    ensures Waits(SenderRun(p, Zeros(k, []))) && Emitted(SenderRun(p, Zeros(k, []))) == Flat(Script(p)[..k])
  {
    hide SenderRun, Written, Taken, SaidLines, Room, Waits, Emitted;
    var at := SenderCut(p, k);
    var all := [Line(false, [])] + Script(p);
    WrittenNothing();
    var i := SaidPosition(all, [], at);
    ZerosLength(i, []);
    ZerosLength(k, []);
    assert all[..k + 1][1..] == Script(p)[..k];
  }

  lemma {:induction false} ZerosAppend(k: nat, more: Bytes)
    ensures Zeros(k, []) + more == Zeros(k, more)
  {
    if k > 0 {
      ZerosAppend(k - 1, more);
    }
  }

  /** The whole run of the receiver: it confirms every line, ends well, and the trees are there. */
  lemma ReceiverFinishes(p: Setup)
    requires Sound(p)
    ensures Solid(Script(p))
    ensures var r := ReceiverRun(p, Flat(Script(p)));
            && r.Done? && r.w.input == [] && r.w.log == HeardLines(Script(p), [Put(0)]) + [Eof]
            && RestoredAll(r.w.disk, p.target, p.nodes, p.preserve)
            && Confined(p.disk, r.w.disk, p.target, NamesOf(p.nodes))
  {
    hide TargetMessages, Written, Taken, RestoredAll, Confined;
    EntriesInLines(p.nodes, p.preserve, [Put(0)]);
    TextIsFlat(p.nodes, p.preserve, p.render);
    var w := World(Flat(Script(p)), [], p.disk);
    assert p.target[..|p.target|] == p.target;
    assert Stat(p.disk, p.target) == Ok(p.disk.nodes[p.target]);
    assert [] + Puts([0]) == [Put(0)];
    CommandRoundTrip(Confirm(w), p.nodes, p.target, p.preserve, p.render);
  }

  lemma TextIsFlat(nodes: seq<Source>, preserve: bool, render: Error -> Bytes)
    requires SendableAll(nodes, preserve)
    ensures Transcripts(nodes, preserve, render, []) == Flat(AllLines(nodes, preserve))
  {
    hide Written;
    EntriesAreWritten(nodes, preserve, render, [], 0, [], []);
    NodesInLines(nodes, preserve, render, 0, 0, []);
    SaidTotals(AllLines(nodes, preserve), []);
    WrittenNothing();
    assert Fine(0) == [];
    var log := SaidAll(nodes, preserve, render, [], 0, []);
    assert Written(log) + [] == Written(log);
    assert [] + Transcripts(nodes, preserve, render, []) == Transcripts(nodes, preserve, render, []);
  }

  /** How many whole lines the first `g` bytes hold. */
  function Whole(lines: seq<Line>, g: nat): nat
  {
    if lines == [] || g < |lines[0].text| then 0 else 1 + Whole(lines[1..], g - |lines[0].text|)
  }

  lemma FirstConfirmation()
    ensures Written([Put(0)]) == [0] && Taken([Put(0)]) == []
  {
    TakenOne([], Put(0));
    assert [] + [Put(0)] == [Put(0)];
  }

  lemma ReceiverWaitsAtEnd(p: Setup)
    requires Sound(p)
    ensures var r := ReceiverRun(p, Flat(Script(p))); Waits(r) && Emitted(r) == Zeros(1 + |Script(p)|, [])
  {
    hide TargetCopy, Written, Taken, Room;
    ReceiverFinishes(p);
    FirstConfirmation();
    HeardLinesGrow(Script(p), [Put(0)]);
    var heard := HeardLines(Script(p), [Put(0)]);
    var log := ReceiverRun(p, Flat(Script(p))).w.log;
    FirstEofSkips(log, 0, |heard|);
    assert log[..|heard|] == heard;
  }

  lemma HeardCut(lines: seq<Line>, log: seq<Event>, at: nat, g: nat)
    requires Solid(lines) && log == HeardLines(lines, [Put(0)]) + [Eof]
    requires at < |log| && (log[at].Got? || log[at].Peeked?) && |Taken(log[..at])| == g
    ensures Written(log[..at]) == Zeros(1 + Whole(lines, g), [])
  {
    hide Written, Taken, HeardLines, Whole;
    FirstConfirmation();
    HeardLinesGrow(lines, [Put(0)]);
    var heard := HeardLines(lines, [Put(0)]);
    assert heard[0] == Put(0);
    assert log[..at] == heard[..at] && log[at] == heard[at];
    var i := HeardPosition(lines, [Put(0)], at);
    WholeIs(lines, g, i);
  }

  lemma ReceiverWaitsMidway(p: Setup, g: nat)
    requires Sound(p) && g < |Flat(Script(p))|
    ensures var r := ReceiverRun(p, Flat(Script(p))[..g]);
            Waits(r) && Emitted(r) == Zeros(1 + Whole(Script(p), g), [])
  {
    hide TargetCopy, Written, Taken, Room, HeardLines, Whole, Causal, Waits, Emitted, RestoredAll, Confined, AllLines,
         Flat;
    ReceiverFinishes(p);
    var text := Flat(Script(p));
    var w := World(text[..g], [], p.disk);
    assert text[..g] + text[g..] == text;
    TargetCopyCausal(w, text[g..], p.target, p.mustBeDirectory, p.preserve, p.render);
    var full := ReceiverRun(p, text);
    var at := CutAtRead(w, text[g..], ReceiverRun(p, text[..g]), full);
    HeardCut(Script(p), full.w.log, at, g);
  }

  /** Having got `g` bytes the receiver has confirmed every whole line among them, and waits. */
  lemma ReceiverWaits(p: Setup, g: nat)
    requires Sound(p) && g <= |Flat(Script(p))|
    ensures var r := ReceiverRun(p, Flat(Script(p))[..g]);
            Waits(r) && Emitted(r) == Zeros(1 + Whole(Script(p), g), [])
  {
    hide ReceiverRun, Waits, Emitted, Room;
    if g < |Flat(Script(p))| {
      ReceiverWaitsMidway(p, g);
    } else {
      ReceiverWaitsAtEnd(p);
      assert Flat(Script(p))[..g] == Flat(Script(p));
      assert Script(p)[..|Script(p)|] == Script(p);
      WholeIs(Script(p), g, |Script(p)|);
    }
  }

  lemma {:induction false} WholeIs(lines: seq<Line>, g: nat, r: nat)
    requires r <= |lines| && |Flat(lines[..r])| <= g && (r < |lines| ==> g < |Flat(lines[..r + 1])|)
    ensures Whole(lines, g) == r
  {
    if r < |lines| {
      assert lines[..r + 1][1..] == lines[1..][..r];
    }
    if r > 0 {
      assert lines[..r][1..] == lines[1..][..r - 1];
      WholeIs(lines[1..], g - |lines[0].text|, r - 1);
    }
  }
}
