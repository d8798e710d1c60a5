/** What the sending side of scp does, as a function of the source tree and the acknowledgements it gets. */
module Sender {
  import opened Prelude
  import opened Numerals
  import opened FileSystem
  import opened Stream
  import opened Receiver

  /** What stat reports; the mode is Go's os.FileMode. */
  datatype Info = Info(name: Name, mode: nat, size: nat, mtime: int, atime: int)

  /** A source as the calls on it answer: any node may refuse to be opened, statted or listed. */
  datatype Source =
    | Unopened(error: OsError)
    | Unstatted(error: OsError)
    | Unlisted(info: Info, error: OsError)
    | RegularFile(info: Info, content: Bytes)
    | Directory(info: Info, entries: seq<Source>)

  /** "T<mtime> 0 <atime> 0\n" */
  function TimesLine(info: Info): Bytes
  {
    [T_RECORD] + (Decimal(info.mtime) + ([SPACE, ZERO, SPACE] + (Decimal(info.atime) + [SPACE, ZERO, NEWLINE])))
  }

  /** "C<mode> <size> <name>\n" */
  function FileLine(info: Info): Bytes
  {
    [C_RECORD] + (Octal4(info.mode % 4096) + ([SPACE] + (Decimal(info.size) + ([SPACE] + (info.name + [NEWLINE])))))
  }

  /** "D<mode> 0 <name>\n" */
  function DirLine(info: Info): Bytes
  {
    [D_RECORD] + (Octal4(info.mode % 4096) + ([SPACE, ZERO, SPACE] + (info.name + [NEWLINE])))
  }

  const END_LINE: Bytes := [E_RECORD, NEWLINE]

  function SendLine(w: World, line: Bytes): (r: Step<()>)
    ensures w.log <= r.w.log
  {
    AwaitConfirmation(Write(w, line))
  }

  function SendTimes(w: World, info: Info, preserve: bool): (r: Step<()>)
    ensures w.log <= r.w.log
  {
    if preserve then SendLine(w, TimesLine(info)) else Done(w, ())
  }

  /** What io.CopyN finds of the announced size. */
  function Available(info: Info, content: Bytes): Bytes
  {
    if info.size <= |content| then content[..info.size] else content
  }

  function SendContents(w: World, info: Info, content: Bytes): (r: Step<()>)
    ensures w.log <= r.w.log
  {
    var w := Write(w, Available(info, content));
    if |content| < info.size then Failed(w, EndOfFile) else AwaitConfirmation(Confirm(w))
  }

  function SendFile(w: World, info: Info, content: Bytes, preserve: bool): (r: Step<()>)
    ensures w.log <= r.w.log
  {
    var (w, _) :- SendTimes(w, info, preserve);
    var (w, _) :- SendLine(w, FileLine(info));
    SendContents(w, info, content)
  }

  function SendDirHeader(w: World, info: Info, preserve: bool): (r: Step<()>)
    ensures w.log <= r.w.log
  {
    var (w, _) :- SendTimes(w, info, preserve);
    SendLine(w, DirLine(info))
  }

  function SendDirectory(
    w: World, info: Info, entries: seq<Source>, preserve: bool, render: Error -> Bytes): (r: Step<()>)
    ensures w.log <= r.w.log
    decreases entries, 1
  {
    var (w, _) :- SendDirHeader(w, info, preserve);
    SendLine(SendEntries(w, entries, preserve, render), END_LINE)
  }

  /** The children in order; a child's failure is reported by the child and otherwise ignored. */
  function SendEntries(w: World, entries: seq<Source>, preserve: bool, render: Error -> Bytes): (w': World)
    ensures w.log <= w'.log
    decreases entries, 0
  {
    if entries == [] then w
    else SendEntries(Send(w, entries[0], preserve, render).w, entries[1..], preserve, render)
  }

  function SendNode(w: World, node: Source, preserve: bool, render: Error -> Bytes): (r: Step<()>)
    ensures w.log <= r.w.log
    decreases node, 2
  {
    match node
    case Unopened(e) => Failed(w, Os(e))
    case Unstatted(e) => Failed(w, Os(e))
    case RegularFile(info, content) => SendFile(w, info, content, preserve)
    case Unlisted(info, e) =>
      var (w, _) :- SendDirHeader(w, info, preserve);
      Failed(w, Os(e))
    case Directory(info, entries) => SendDirectory(w, info, entries, preserve, render)
  }

  function Reported(r: Step<()>, render: Error -> Bytes): (s: Step<()>)
    ensures r.w.log <= s.w.log
  {
    if r.Failed? then Failed(SendError(r.w, render(r.error)), r.error) else r
  }

  function Send(w: World, node: Source, preserve: bool, render: Error -> Bytes): (r: Step<()>)
    ensures w.log <= r.w.log
    decreases node, 3
  {
    Reported(SendNode(w, node, preserve, render), render)
  }

  /** A command-line source after globbing: what os.Stat said of it, and what opening it will find. */
  datatype Operand = Missing(error: OsError) | Found(name: Name, isDir: bool, node: Source)

  function SendOperand(
    w: World, operand: Operand, recursive: bool, preserve: bool, render: Error -> Bytes): (r: Step<()>)
    ensures w.log <= r.w.log
  {
    match operand
    case Missing(e) => Reported(Failed(w, Os(e)), render)
    case Found(name, isDir, node) =>
      if isDir && !recursive then Reported(Failed(w, NotRegular(name)), render)
      else Send(w, node, preserve, render)
  }

  function SendOperands(
    w: World, operands: seq<Operand>, recursive: bool, preserve: bool, render: Error -> Bytes, last: Option<Error>)
    : (r: Step<()>)
    ensures w.log <= r.w.log
    decreases |operands|
  {
    if operands == [] then
      if last.Some? then Failed(w, last.value) else Done(w, ())
    else
      var sent := SendOperand(w, operands[0], recursive, preserve, render);
      SendOperands(sent.w, operands[1..], recursive, preserve, render, if sent.Failed? then Some(sent.error) else last)
  }

  /** Source mode of Copy. */
  function SourceCopy(
    w: World, operands: seq<Operand>, recursive: bool, preserve: bool, render: Error -> Bytes): (r: Step<()>)
    ensures w.log <= r.w.log
  {
    var (w, _) :- AwaitConfirmation(w);
    SendOperands(w, operands, recursive, preserve, render, None)
  }
}
