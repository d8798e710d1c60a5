/** What the sender writes when every acknowledgement is positive, whichever of its sources fail. */
module Transmission {
  import opened Prelude
  import opened Stream
  import opened Sender
  import opened Grammar
  import opened Acceptance

  // ---------- the transcript ----------

  function TimesText(info: Info, preserve: bool): Bytes
  {
    if preserve then TimesLine(info) else []
  }

  /** A node's own output, in front of `rest`; a node that fails ends in exactly one error record. */
  function Transcript(node: Source, preserve: bool, render: Error -> Bytes, rest: Bytes): Bytes
    decreases node, 1
  {
    match node
    case Unopened(e) => ErrorRecord(render(Os(e))) + rest
    case Unstatted(e) => ErrorRecord(render(Os(e))) + rest
    case Unlisted(info, e) => TimesText(info, preserve) + (DirLine(info) + (ErrorRecord(render(Os(e))) + rest))
    case RegularFile(info, content) =>
      TimesText(info, preserve) + (FileLine(info) + (Available(info, content)
      + ((if |content| < info.size then ErrorRecord(render(EndOfFile)) else [0]) + rest)))
    case Directory(info, entries) =>
      TimesText(info, preserve) + (DirLine(info) + Transcripts(entries, preserve, render, END_LINE + rest))
  }

  function Transcripts(entries: seq<Source>, preserve: bool, render: Error -> Bytes, rest: Bytes): Bytes
    decreases entries, 0
  {
    if entries == [] then rest
    else Transcript(entries[0], preserve, render, Transcripts(entries[1..], preserve, render, rest))
  }

  /** Why a node fails, if it does; a directory never fails because of what is in it. */
  function Verdict(node: Source): Option<Error>
  {
    match node
    case Unopened(e) => Some(Os(e))
    case Unstatted(e) => Some(Os(e))
    case Unlisted(_, e) => Some(Os(e))
    case RegularFile(info, content) => if |content| < info.size then Some(EndOfFile) else None
    case Directory(_, _) => None
  }

  /** How many acknowledgements a node waits for. */
  function Acks(node: Source, preserve: bool): nat
    decreases node, 1
  {
    var times := if preserve then 1 else 0;
    match node
    case Unopened(_) => 0
    case Unstatted(_) => 0
    case Unlisted(_, _) => times + 1
    case RegularFile(info, content) => times + (if |content| < info.size then 1 else 2)
    case Directory(_, entries) => times + 1 + AcksAll(entries, preserve) + 1
  }

  function AcksAll(entries: seq<Source>, preserve: bool): nat
    decreases entries, 0
  {
    if entries == [] then 0 else Acks(entries[0], preserve) + AcksAll(entries[1..], preserve)
  }

  // ---------- the acknowledgements ----------

  /** Positive acknowledgements, each a zero byte or a warning, from number `i` on and in front of `rest`. */
  function ShowAcks(acks: seq<Closing>, i: nat, rest: Bytes): Bytes
    decreases |acks| - i
  {
    if i < |acks| then ShowClosing(acks[i], ShowAcks(acks, i + 1, rest)) else rest
  }

  predicate GoodAcks(acks: seq<Closing>)
  {
    forall i :: 0 <= i < |acks| && acks[i].Warned? ==> NEWLINE !in acks[i].message
  }

  function AckAt(acks: seq<Closing>, i: nat): Closing
  {
    if i < |acks| then acks[i] else Accepted
  }

  // ---------- the log, acknowledgements included ----------

  function SaidLine(line: Bytes, ack: Closing, log: seq<Event>): seq<Event>
  {
    log + Puts(line) + HeardClosing(ack)
  }

  function SaidTimes(info: Info, preserve: bool, ack: Closing, log: seq<Event>): seq<Event>
  {
    if preserve then SaidLine(TimesLine(info), ack, log) else log
  }

  /** A header and the times before it, acknowledged from number `i` on. */
  function SaidHeader(
    info: Info, line: Bytes, preserve: bool, acks: seq<Closing>, i: nat, log: seq<Event>): seq<Event>
  {
    SaidLine(line, AckAt(acks, i + Lead(preserve)), SaidTimes(info, preserve, AckAt(acks, i), log))
  }

  function Lead(preserve: bool): nat
  {
    if preserve then 1 else 0
  }

  /** The log of sending a node when `acks` come back, the first of them number `i`. */
  function Said(
    node: Source, preserve: bool, render: Error -> Bytes, acks: seq<Closing>, i: nat, log: seq<Event>): seq<Event>
    decreases node, 1
  {
    var j := i + Lead(preserve) + 1;
    match node
    case Unopened(e) => log + Puts(ErrorRecord(render(Os(e))))
    case Unstatted(e) => log + Puts(ErrorRecord(render(Os(e))))
    case Unlisted(info, e) =>
      SaidHeader(info, DirLine(info), preserve, acks, i, log) + Puts(ErrorRecord(render(Os(e))))
    case RegularFile(info, content) =>
      var log := SaidHeader(info, FileLine(info), preserve, acks, i, log) + Puts(Available(info, content));
      if |content| < info.size then log + Puts(ErrorRecord(render(EndOfFile)))
      else SaidLine([0], AckAt(acks, j), log)
    case Directory(info, entries) =>
      var log := SaidHeader(info, DirLine(info), preserve, acks, i, log);
      SaidLine(END_LINE, AckAt(acks, j + AcksAll(entries, preserve)), SaidAll(entries, preserve, render, acks, j, log))
  }

  function SaidAll(
    entries: seq<Source>, preserve: bool, render: Error -> Bytes, acks: seq<Closing>, i: nat, log: seq<Event>)
    : seq<Event>
    decreases entries, 0
  {
    if entries == [] then log
    else
      SaidAll(entries[1..], preserve, render, acks, i + Acks(entries[0], preserve),
              Said(entries[0], preserve, render, acks, i, log))
  }

  function Judged(w: World, verdict: Option<Error>): Step<()>
  {
    if verdict.None? then Done(w, ()) else Failed(w, verdict.value)
  }

  lemma LineIsSaid(w: World, line: Bytes, acks: seq<Closing>, i: nat, rest: Bytes)
    requires GoodAcks(acks) && i < |acks| && w.input == ShowAcks(acks, i, rest)
    ensures SendLine(w, line)
         == Done(World(ShowAcks(acks, i + 1, rest), SaidLine(line, AckAt(acks, i), w.log), w.disk), ())
  {
    hide ShowClosing, HeardClosing, AwaitConfirmation;
    ClosingIsRead(Write(w, line), acks[i], ShowAcks(acks, i + 1, rest));
  }

  lemma HeaderIsSaid(
    w: World, info: Info, line: Bytes, preserve: bool, acks: seq<Closing>, i: nat, rest: Bytes)
    requires GoodAcks(acks) && i + Lead(preserve) < |acks| && w.input == ShowAcks(acks, i, rest)
    ensures var sent := SendTimes(w, info, preserve);
            && sent.Done?
            && SendLine(sent.w, line)
               == Done(World(ShowAcks(acks, i + Lead(preserve) + 1, rest),
                             SaidHeader(info, line, preserve, acks, i, w.log), w.disk), ())
  {
    hide SendLine, SaidLine, ShowAcks, AckAt;
    if preserve {
      LineIsSaid(w, TimesLine(info), acks, i, rest);
      LineIsSaid(SendLine(w, TimesLine(info)).w, line, acks, i + 1, rest);
    } else {
      LineIsSaid(w, line, acks, i, rest);
    }
  }

  /**
   With positive acknowledgements, warnings among them or not, a node is sent, or fails, as its verdict says,
   and takes exactly its own.
   */
  lemma {:induction false} NodeIsSaid(
    w: World, node: Source, preserve: bool, render: Error -> Bytes, acks: seq<Closing>, i: nat, rest: Bytes)
    requires GoodAcks(acks) && w.input == ShowAcks(acks, i, rest) && i + Acks(node, preserve) <= |acks|
    ensures Send(w, node, preserve, render)
         == Judged(World(ShowAcks(acks, i + Acks(node, preserve), rest),
                         Said(node, preserve, render, acks, i, w.log), w.disk), Verdict(node))
    decreases node, 1
  {
    hide SendLine, SendTimes, SendFile, SendDirectory, SaidLine, SaidHeader, ShowAcks, AckAt, GoodAcks;
    match node {
      case Unopened(_) =>
      case Unstatted(_) =>
      case Unlisted(info, _) =>
        HeaderIsSaid(w, info, DirLine(info), preserve, acks, i, rest);
      case RegularFile(info, content) =>
        FileIsSaid(w, info, content, preserve, render, acks, i, rest);
      case Directory(info, entries) =>
        DirectoryIsSaid(w, info, entries, preserve, render, acks, i, rest);
    }
  }

  /** A file is sent in full, or breaks off where its contents end; then nothing has been reported yet. */
  lemma FileIsSaid(
    w: World, info: Info, content: Bytes, preserve: bool, render: Error -> Bytes,
    acks: seq<Closing>, i: nat, rest: Bytes)
    requires GoodAcks(acks) && w.input == ShowAcks(acks, i, rest)
    requires i + Acks(RegularFile(info, content), preserve) <= |acks|
    ensures
      var r := SendFile(w, info, content, preserve);
      var header := SaidHeader(info, FileLine(info), preserve, acks, i, w.log) + Puts(Available(info, content));
      && r.w.input == ShowAcks(acks, i + Acks(RegularFile(info, content), preserve), rest) && r.w.disk == w.disk
      && r == Judged(r.w, Verdict(RegularFile(info, content)))
      && r.w.log == if |content| < info.size then header else SaidLine([0], AckAt(acks, i + Lead(preserve) + 1), header)
  {
    hide SendLine, SendTimes, SaidLine, SaidHeader, ShowAcks, AckAt, GoodAcks;
    HeaderIsSaid(w, info, FileLine(info), preserve, acks, i, rest);
    var w1 := SendLine(SendTimes(w, info, preserve).w, FileLine(info)).w;
    if |content| >= info.size {
      ContentsAreSaid(w1, info, content, acks, i + Lead(preserve) + 1, rest);
    }
  }

  lemma {:induction false} DirectoryIsSaid(
    w: World, info: Info, entries: seq<Source>, preserve: bool, render: Error -> Bytes,
    acks: seq<Closing>, i: nat, rest: Bytes)
    requires GoodAcks(acks) && w.input == ShowAcks(acks, i, rest)
    requires i + Acks(Directory(info, entries), preserve) <= |acks|
    ensures SendDirectory(w, info, entries, preserve, render)
         == Done(World(ShowAcks(acks, i + Acks(Directory(info, entries), preserve), rest),
                       Said(Directory(info, entries), preserve, render, acks, i, w.log), w.disk), ())
    decreases entries, 1
  {
    hide SendLine, SendTimes, SaidLine, SaidHeader, ShowAcks, AckAt, GoodAcks;
    HeaderIsSaid(w, info, DirLine(info), preserve, acks, i, rest);
    var w1 := SendLine(SendTimes(w, info, preserve).w, DirLine(info)).w;
    var j := i + Lead(preserve) + 1;
    EntriesAreSaid(w1, entries, preserve, render, acks, j, rest);
    LineIsSaid(SendEntries(w1, entries, preserve, render), END_LINE, acks, j + AcksAll(entries, preserve), rest);
    assert SendDirHeader(w, info, preserve) == Done(w1, ());
  }

  lemma ContentsAreSaid(w: World, info: Info, content: Bytes, acks: seq<Closing>, i: nat, rest: Bytes)
    requires GoodAcks(acks) && i < |acks| && w.input == ShowAcks(acks, i, rest) && info.size <= |content|
    ensures SendContents(w, info, content)
         == Done(World(ShowAcks(acks, i + 1, rest),
                       SaidLine([0], AckAt(acks, i), w.log + Puts(Available(info, content))), w.disk), ())
  {
    hide AwaitConfirmation, ShowAcks, GoodAcks, HeardClosing;
    LineIsSaid(Write(w, Available(info, content)), [0], acks, i, rest);
  }

  lemma {:induction false} EntriesAreSaid(
    w: World, entries: seq<Source>, preserve: bool, render: Error -> Bytes, acks: seq<Closing>, i: nat, rest: Bytes)
    requires GoodAcks(acks) && w.input == ShowAcks(acks, i, rest) && i + AcksAll(entries, preserve) <= |acks|
    ensures SendEntries(w, entries, preserve, render)
         == World(ShowAcks(acks, i + AcksAll(entries, preserve), rest),
                  SaidAll(entries, preserve, render, acks, i, w.log), w.disk)
    decreases entries, 0
  {
    hide Send, ShowAcks, GoodAcks, Said, Acks, Verdict;
    if entries != [] {
      NodeIsSaid(w, entries[0], preserve, render, acks, i, rest);
      EntriesAreSaid(Send(w, entries[0], preserve, render).w, entries[1..], preserve, render,
                     acks, i + Acks(entries[0], preserve), rest);
    }
  }

  // ---------- the usual case ----------

  /** Nothing but zero bytes. */
  function Fine(n: nat): seq<Closing>
  {
    seq(n, i => Accepted)
  }

  lemma {:induction false} FineAcksAreZeros(n: nat, i: nat, rest: Bytes)
    requires i <= n
    ensures GoodAcks(Fine(n)) && ShowAcks(Fine(n), i, rest) == Zeros(n - i, rest)
    decreases n - i
  {
    if i < n {
      FineAcksAreZeros(n, i + 1, rest);
    }
  }

  // ---------- the log and the transcript ----------

  /** The bytes written to stdout. */
  function Written(log: seq<Event>): Bytes
  {
    if log == [] then []
    else Written(log[..|log| - 1]) + (if log[|log| - 1].Put? then [log[|log| - 1].b] else [])
  }

  lemma {:induction false} WrittenPuts(log: seq<Event>, s: Bytes)
    ensures Written(log + Puts(s)) == Written(log) + s
  {
    if s == [] {
      assert log + Puts(s) == log;
    } else {
      assert (log + Puts(s))[..|log + Puts(s)| - 1] == log + Puts(s[..|s| - 1]);
      WrittenPuts(log, s[..|s| - 1]);
    }
  }

  lemma PutsThen(log: seq<Event>, s: Bytes, rest: Bytes)
    ensures Written(log + Puts(s)) + rest == Written(log) + (s + rest)
  {
    WrittenPuts(log, s);
  }

  /** Reading writes nothing. */
  lemma {:induction false} WrittenNone(log: seq<Event>, more: seq<Event>)
    requires forall i :: 0 <= i < |more| ==> !more[i].Put?
    ensures Written(log + more) == Written(log)
  {
    if more == [] {
      assert log + more == log;
    } else {
      assert (log + more)[..|log + more| - 1] == log + more[..|more| - 1];
      WrittenNone(log, more[..|more| - 1]);
    }
  }

  lemma LineThen(line: Bytes, ack: Closing, log: seq<Event>, rest: Bytes)
    ensures Written(SaidLine(line, ack, log)) + rest == Written(log) + (line + rest)
  {
    PutsThen(log, line, rest);
    WrittenNone(log + Puts(line), HeardClosing(ack));
  }

  lemma HeaderThen(
    info: Info, line: Bytes, preserve: bool, acks: seq<Closing>, i: nat, log: seq<Event>, rest: Bytes)
    ensures Written(SaidHeader(info, line, preserve, acks, i, log)) + rest
         == Written(log) + (TimesText(info, preserve) + (line + rest))
  {
    hide Written, SaidLine, AckAt;
    LineThen(line, AckAt(acks, i + Lead(preserve)), SaidTimes(info, preserve, AckAt(acks, i), log), rest);
    if preserve {
      LineThen(TimesLine(info), AckAt(acks, i), log, line + rest);
    }
  }

  /** Stdout gains exactly the transcript, whatever the acknowledgements say. */
  lemma {:induction false} NodeIsWritten(
    node: Source, preserve: bool, render: Error -> Bytes, acks: seq<Closing>, i: nat, log: seq<Event>, rest: Bytes)
    ensures Written(Said(node, preserve, render, acks, i, log)) + rest
         == Written(log) + Transcript(node, preserve, render, rest)
    decreases node, 1
  {
    hide Written, SaidLine, SaidHeader, ErrorRecord, TimesText, AckAt;
    var j := i + Lead(preserve) + 1;
    match node {
      case Unopened(e) =>
        PutsThen(log, ErrorRecord(render(Os(e))), rest);
      case Unstatted(e) =>
        PutsThen(log, ErrorRecord(render(Os(e))), rest);
      case Unlisted(info, e) =>
        PutsThen(SaidHeader(info, DirLine(info), preserve, acks, i, log), ErrorRecord(render(Os(e))), rest);
        HeaderThen(info, DirLine(info), preserve, acks, i, log, ErrorRecord(render(Os(e))) + rest);
      case RegularFile(info, content) =>
        var log1 := SaidHeader(info, FileLine(info), preserve, acks, i, log);
        var log2 := log1 + Puts(Available(info, content));
        var last := if |content| < info.size then ErrorRecord(render(EndOfFile)) else [0];
        LineThen([0], AckAt(acks, j), log2, rest);
        PutsThen(log2, last, rest);
        PutsThen(log1, Available(info, content), last + rest);
        HeaderThen(info, FileLine(info), preserve, acks, i, log, Available(info, content) + (last + rest));
      case Directory(info, entries) =>
        var log1 := SaidHeader(info, DirLine(info), preserve, acks, i, log);
        LineThen(END_LINE, AckAt(acks, j + AcksAll(entries, preserve)),
                 SaidAll(entries, preserve, render, acks, j, log1), rest);
        EntriesAreWritten(entries, preserve, render, acks, j, log1, END_LINE + rest);
        HeaderThen(info, DirLine(info), preserve, acks, i, log,
                   Transcripts(entries, preserve, render, END_LINE + rest));
    }
  }

  lemma {:induction false} EntriesAreWritten(
    entries: seq<Source>, preserve: bool, render: Error -> Bytes, acks: seq<Closing>, i: nat, log: seq<Event>,
    rest: Bytes)
    ensures Written(SaidAll(entries, preserve, render, acks, i, log)) + rest
         == Written(log) + Transcripts(entries, preserve, render, rest)
    decreases entries, 0
  {
    hide Written, Said, Transcript;
    if entries != [] {
      var log1 := Said(entries[0], preserve, render, acks, i, log);
      EntriesAreWritten(entries[1..], preserve, render, acks, i + Acks(entries[0], preserve), log1, rest);
      NodeIsWritten(entries[0], preserve, render, acks, i, log, Transcripts(entries[1..], preserve, render, rest));
    }
  }

  // ---------- source mode ----------

  function OperandVerdict(operand: Operand, recursive: bool): Option<Error>
  {
    match operand
    case Missing(e) => Some(Os(e))
    case Found(name, isDir, node) => if isDir && !recursive then Some(NotRegular(name)) else Verdict(node)
  }

  /** The failure Copy returns: the last one among the command-line sources. */
  function LastFailure(operands: seq<Operand>, recursive: bool): Option<Error>
  {
    if operands == [] then None
    else
      var last := operands[|operands| - 1];
      if OperandVerdict(last, recursive).Some? then OperandVerdict(last, recursive)
      else LastFailure(operands[..|operands| - 1], recursive)
  }

  function OperandText(operand: Operand, recursive: bool, preserve: bool, render: Error -> Bytes, rest: Bytes): Bytes
  {
    match operand
    case Missing(e) => ErrorRecord(render(Os(e))) + rest
    case Found(name, isDir, node) =>
      if isDir && !recursive then ErrorRecord(render(NotRegular(name))) + rest
      else Transcript(node, preserve, render, rest)
  }

  function OperandTexts(
    operands: seq<Operand>, recursive: bool, preserve: bool, render: Error -> Bytes, rest: Bytes): Bytes
  {
    if operands == [] then rest
    else OperandText(operands[0], recursive, preserve, render,
                     OperandTexts(operands[1..], recursive, preserve, render, rest))
  }

  function OperandAcks(operand: Operand, recursive: bool, preserve: bool): nat
  {
    if operand.Missing? || (operand.isDir && !recursive) then 0 else Acks(operand.node, preserve)
  }

  function OperandsAcks(operands: seq<Operand>, recursive: bool, preserve: bool): nat
  {
    if operands == [] then 0
    else OperandAcks(operands[0], recursive, preserve) + OperandsAcks(operands[1..], recursive, preserve)
  }

  lemma {:induction false} LastFailureFromFront(operands: seq<Operand>, recursive: bool)
    requires operands != []
    ensures LastFailure(operands, recursive)
         == (if LastFailure(operands[1..], recursive).Some? then LastFailure(operands[1..], recursive)
             else OperandVerdict(operands[0], recursive))
  {
    var (front, last) := (operands[..|operands| - 1], operands[|operands| - 1]);
    if front == [] {
      assert operands[1..] == [];
      assert LastFailure(front, recursive) == None;
    } else {
      LastFailureFromFront(front, recursive);
      assert operands[1..][..|operands| - 2] == front[1..];
      assert operands[1..][|operands| - 2] == last;
    }
  }

  lemma OperandIsSaid(
    w: World, operand: Operand, recursive: bool, preserve: bool, render: Error -> Bytes,
    acks: seq<Closing>, i: nat, rest: Bytes, tail: Bytes)
    requires GoodAcks(acks) && w.input == ShowAcks(acks, i, rest)
    requires i + OperandAcks(operand, recursive, preserve) <= |acks|
    ensures var r := SendOperand(w, operand, recursive, preserve, render);
            && r.w.input == ShowAcks(acks, i + OperandAcks(operand, recursive, preserve), rest) && r.w.disk == w.disk
            && Written(r.w.log) + tail == Written(w.log) + OperandText(operand, recursive, preserve, render, tail)
            && r == Judged(r.w, OperandVerdict(operand, recursive))
  {
    hide Written, Send, Said, Transcript, ErrorRecord, ShowAcks, GoodAcks;
    if operand.Missing? {
      PutsThen(w.log, ErrorRecord(render(Os(operand.error))), tail);
    } else if operand.isDir && !recursive {
      PutsThen(w.log, ErrorRecord(render(NotRegular(operand.name))), tail);
    } else {
      NodeIsSaid(w, operand.node, preserve, render, acks, i, rest);
      NodeIsWritten(operand.node, preserve, render, acks, i, w.log, tail);
    }
  }

  lemma {:induction false} OperandsAreSaid(
    w: World, operands: seq<Operand>, recursive: bool, preserve: bool, render: Error -> Bytes, last: Option<Error>,
    acks: seq<Closing>, i: nat, rest: Bytes, tail: Bytes)
    requires GoodAcks(acks) && w.input == ShowAcks(acks, i, rest)
    requires i + OperandsAcks(operands, recursive, preserve) <= |acks|
    ensures var r := SendOperands(w, operands, recursive, preserve, render, last);
            && r.w.input == ShowAcks(acks, i + OperandsAcks(operands, recursive, preserve), rest)
            && Written(r.w.log) + tail == Written(w.log) + OperandTexts(operands, recursive, preserve, render, tail)
            && var failure := LastFailure(operands, recursive);
               r == Judged(r.w, if failure.Some? then failure else last)
    decreases |operands|
  {
    hide Written, SendOperand, OperandText, OperandAcks, OperandVerdict, ShowAcks, GoodAcks;
    if operands != [] {
      var operand := operands[0];
      OperandIsSaid(w, operand, recursive, preserve, render, acks, i, rest,
                    OperandTexts(operands[1..], recursive, preserve, render, tail));
      var sent := SendOperand(w, operand, recursive, preserve, render);
      OperandsAreSaid(sent.w, operands[1..], recursive, preserve, render,
                      if sent.Failed? then Some(sent.error) else last,
                      acks, i + OperandAcks(operand, recursive, preserve), rest, tail);
      LastFailureFromFront(operands, recursive);
    }
  }

  /**
   Source mode of Copy with positive acknowledgements: stdout gets the operands' texts in order, and the
   result is the failure of the last operand that failed, or success when none did.
   */
  lemma SourceModeUnderFailures(
    w: World, operands: seq<Operand>, recursive: bool, preserve: bool, render: Error -> Bytes,
    acks: seq<Closing>, rest: Bytes)
    requires GoodAcks(acks) && |acks| == 1 + OperandsAcks(operands, recursive, preserve)
    requires w.input == ShowAcks(acks, 0, rest)
    ensures var r := SourceCopy(w, operands, recursive, preserve, render);
            && r.w.input == rest
            && Written(r.w.log) == Written(w.log) + OperandTexts(operands, recursive, preserve, render, [])
            && r == Judged(r.w, LastFailure(operands, recursive))
  {
    hide Written, SendOperands, OperandTexts, LastFailure, AwaitConfirmation, ShowClosing, HeardClosing;
    ClosingIsRead(w, acks[0], ShowAcks(acks, 1, rest));
    var w1 := AwaitConfirmation(w).w;
    WrittenClosing(w.log, acks[0]);
    OperandsAreSaid(w1, operands, recursive, preserve, render, None, acks, 1, rest, []);
    var r := SourceCopy(w, operands, recursive, preserve, render);
    assert Written(r.w.log) + [] == Written(r.w.log);
  }

  lemma WrittenClosing(log: seq<Event>, ack: Closing)
    ensures Written(log + HeardClosing(ack)) == Written(log)
  {
    WrittenNone(log, HeardClosing(ack));
  }
}
