/** What the receiving side of scp does, as a function of the world it starts in. */
module Receiver {
  import opened Prelude
  import opened Numerals
  import opened FileSystem
  import opened Stream

  const T_RECORD: Byte := 84
  const C_RECORD: Byte := 67
  const D_RECORD: Byte := 68
  const E_RECORD: Byte := 69

  datatype Times = Times(mtime: int, atime: int)

  datatype FileHeader = FileHeader(mode: nat, length: int, name: Name)

  datatype DirHeader = DirHeader(mode: nat, name: Name)

  function Parsed<T>(w: World, text: Bytes, parsed: Option<T>): Step<T>
  {
    if parsed.None? then Failed(w, BadNumber(text)) else Done(w, parsed.value)
  }

  function ReadUint(w: World, base: nat, limit: int): (r: Step<nat>)
    ensures w.log <= r.w.log && |r.w.input| <= |w.input|
  {
    var (w, text) :- ReadString(w, SPACE);
    Parsed(w, text, ParseUint(text, base, limit))
  }

  function ReadInt(w: World): (r: Step<int>)
    ensures w.log <= r.w.log && |r.w.input| <= |w.input|
  {
    var (w, text) :- ReadString(w, SPACE);
    Parsed(w, text, ParseInt(text))
  }

  /** Seconds as an unsigned number, then a field that is ignored. */
  function ReadTime(w: World, delimiter: Byte): (r: Step<int>)
    ensures w.log <= r.w.log && |r.w.input| <= |w.input|
  {
    var (w, seconds) :- ReadUint(w, 10, TWO_64);
    var (w, _) :- ReadString(w, delimiter);
    Done(w, ToInt64(seconds))
  }

  function ReceiveTimes(w: World): (r: Step<Times>)
    ensures w.log <= r.w.log && |r.w.input| <= |w.input|
    ensures r.Done? ==> |r.w.input| < |w.input|
  {
    var (w, _) :- Expect(w, T_RECORD);
    var (w, mtime) :- ReadTime(w, SPACE);
    var (w, atime) :- ReadTime(w, NEWLINE);
    Done(Confirm(w), Times(mtime, atime))
  }

  /** The type of the record and its octal mode. */
  function ReadMode(w: World, kind: Byte): (r: Step<nat>)
    ensures w.log <= r.w.log && |r.w.input| <= |w.input|
    ensures r.Done? ==> |r.w.input| < |w.input|
  {
    var (w, _) :- Expect(w, kind);
    ReadUint(w, 8, TWO_32)
  }

  function ReadFileHeader(w: World): (r: Step<FileHeader>)
    ensures w.log <= r.w.log && |r.w.input| <= |w.input|
    ensures r.Done? ==> |r.w.input| < |w.input|
  {
    var (w, mode) :- ReadMode(w, C_RECORD);
    var (w, length) :- ReadInt(w);
    var (w, name) :- ReadString(w, NEWLINE);
    Done(Confirm(w), FileHeader(mode, length, name))
  }

  /** io.CopyN takes a negative length for zero. */
  function ContentLength(length: int): nat
  {
    if length < 0 then 0 else length
  }

  /** The contents, however many arrive, end up in the freshly truncated file. */
  function CopyContents(w: World, target: Path, mode: nat, length: int): (r: Step<()>)
    ensures w.log <= r.w.log && |r.w.input| <= |w.input|
  {
    var (w, _) :- Call(w, Create(w.disk, target, mode));
    var (w', data) := Take(w, ContentLength(length));
    var w' := w'.(disk := Append(w'.disk, target, data));
    if |data| < ContentLength(length) then Failed(w', EndOfFile) else Done(w', ())
  }

  function SetAttributes(w: World, target: Path, mode: nat, times: Option<Times>, preserve: bool): (r: Step<()>)
    ensures r.w.log == w.log && r.w.input == w.input
  {
    var (w, _) :- if preserve then Call(w, Chmod(w.disk, target, mode)) else Done(w, ());
    if times.Some? then Call(w, Chtimes(w.disk, target, times.value.atime, times.value.mtime)) else Done(w, ())
  }

  /** Contents first, then mode and times. */
  function StoreFile(w: World, target: Path, header: FileHeader, times: Option<Times>, preserve: bool): (r: Step<()>)
    ensures w.log <= r.w.log && |r.w.input| <= |w.input|
  {
    var (w, _) :- CopyContents(w, target, header.mode, header.length);
    SetAttributes(w, target, header.mode, times, preserve)
  }

  function ReceiveContents(w: World, path: Path, pathIsDir: bool, times: Option<Times>, preserve: bool): (r: Step<()>)
    ensures w.log <= r.w.log && |r.w.input| <= |w.input|
    ensures r.Done? ==> |r.w.input| < |w.input|
  {
    var (w, header) :- ReadFileHeader(w);
    StoreFile(w, if pathIsDir then Join(path, header.name) else path, header, times, preserve)
  }

  /** The sender has the last word on the contents. */
  function ReceiveFile(w: World, path: Path, pathIsDir: bool, times: Option<Times>, preserve: bool): (r: Step<()>)
    ensures w.log <= r.w.log && |r.w.input| <= |w.input|
    ensures r.Done? ==> |r.w.input| < |w.input|
  {
    var (w, _) :- ReceiveContents(w, path, pathIsDir, times, preserve);
    var (w, _) :- AwaitConfirmation(w);
    Done(Confirm(w), ())
  }

  /** The length field of a directory is read and ignored. */
  function ReadDirHeader(w: World): (r: Step<DirHeader>)
    ensures w.log <= r.w.log && |r.w.input| <= |w.input|
    ensures r.Done? ==> |r.w.input| < |w.input|
  {
    var (w, mode) :- ReadMode(w, D_RECORD);
    var (w, _) :- ReadString(w, SPACE);
    var (w, name) :- ReadString(w, NEWLINE);
    Done(Confirm(w), DirHeader(mode, name))
  }

  /** A directory goes below `dir` when that exists, and becomes `dir` when it does not. */
  function TargetDirectory(disk: Disk, dir: Path, name: Name): Path
  {
    if Stat(disk, dir) == Err(NotExist) then dir else Join(dir, name)
  }

  function EnsureDirectory(w: World, target: Path, header: DirHeader): (r: Step<()>)
    ensures r.w.log == w.log && r.w.input == w.input
  {
    match Stat(w.disk, target)
    case Err(NotExist) => Call(w, Mkdir(w.disk, target, header.mode))
    case Err(e) => Failed(w, Os(e))
    case Ok(node) => if node.DirNode? then Done(w, ()) else Failed(w, TargetNotDirectory(header.name))
  }

  function OpenDirectory(w: World, dir: Path): (r: Step<Path>)
    ensures w.log <= r.w.log && |r.w.input| <= |w.input|
    ensures r.Done? ==> |r.w.input| < |w.input|
  {
    var (w, header) :- ReadDirHeader(w);
    var target := TargetDirectory(w.disk, dir, header.name);
    var (w, _) :- EnsureDirectory(w, target, header);
    Done(w, target)
  }

  /** The E line; any other text, or none, is an error that names the D the directory began with. */
  function ReadEnd(w: World): (r: Step<()>)
    ensures w.log <= r.w.log && |r.w.input| <= |w.input|
  {
    var line := ReadString(w, NEWLINE);
    if line.Failed? || line.value != [E_RECORD] then Failed(line.w, UnexpectedType(D_RECORD)) else Done(line.w, ())
  }

  function CloseDirectory(w: World, target: Path, times: Option<Times>, preserve: bool): (r: Step<()>)
    ensures w.log <= r.w.log && |r.w.input| <= |w.input|
  {
    var (w, _) :- ReadEnd(w);
    var (w, _) :-
      if times.Some? && preserve then Call(w, Chtimes(w.disk, target, times.value.atime, times.value.mtime))
      else Done(w, ());
    Done(Confirm(w), ())
  }

  function ReceiveDirectory(w: World, dir: Path, times: Option<Times>, preserve: bool): (r: Step<()>)
    ensures w.log <= r.w.log && |r.w.input| <= |w.input|
    ensures r.Done? ==> |r.w.input| < |w.input|
    decreases |w.input|, 0
  {
    var (w, target) :- OpenDirectory(w, dir);
    var (w, _) :- ProcessMessages(w, target, preserve);
    CloseDirectory(w, target, times, preserve)
  }

  datatype Message = Closed | Message(kind: Byte, times: Option<Times>)

  /** An optional time record, then a look at the type of what follows; `Closed` when stdin ends there. */
  function NextMessage(w: World, timesAllowed: bool): (r: Step<Message>)
    ensures w.log <= r.w.log && |r.w.input| <= |w.input|
  {
    var first := PeekByte(w);
    if first.Failed? then Done(first.w, Closed)
    else if first.value == T_RECORD && timesAllowed then
      var (w, times) :- ReceiveTimes(first.w);
      var second := PeekByte(w);
      if second.Failed? then Done(second.w, Closed) else Done(second.w, Message(second.value, Some(times)))
    else Done(first.w, Message(first.value, None))
  }

  /** A C or D record; anything else is refused. */
  function ReceiveMessage(
    w: World, message: Message, target: Path, targetIsDir: bool, preserve: bool): (r: Step<()>)
    requires message.Message?
    ensures w.log <= r.w.log && |r.w.input| <= |w.input|
    ensures r.Done? ==> |r.w.input| < |w.input|
    decreases |w.input|, 1
  {
    if message.kind == C_RECORD then ReceiveFile(w, target, targetIsDir, message.times, preserve)
    else if message.kind == D_RECORD then ReceiveDirectory(w, target, message.times, preserve)
    else Failed(w, UnexpectedType(message.kind))
  }

  /** The loop over a directory's messages stops in front of its E line, which no time record may precede. */
  function ProcessMessages(w: World, dir: Path, preserve: bool): (r: Step<()>)
    ensures w.log <= r.w.log && |r.w.input| <= |w.input|
    decreases |w.input|, 2
  {
    var (w', message) :- NextMessage(w, preserve);
    if message.Closed? then Failed(w', EndOfFile)
    else if message == Message(E_RECORD, None) then Done(w', ())
    else
      var (w', _) :- ReceiveMessage(w', message, dir, true, preserve);
      ProcessMessages(w', dir, preserve)
  }

  /** One turn of the loop of target mode: whether there was a message. Failures are reported to the sender. */
  function TargetMessage(
    w: World, target: Path, targetIsDir: bool, preserve: bool, render: Error -> Bytes): (r: Step<bool>)
    ensures w.log <= r.w.log
    ensures r.Done? && r.value ==> |r.w.input| < |w.input|
  {
    var next := NextMessage(w, true);
    if next.Failed? then Failed(SendError(next.w, render(next.error)), next.error)
    else if next.value.Closed? then Done(next.w, false)
    else
      var received := ReceiveMessage(next.w, next.value, target, targetIsDir, preserve);
      if received.Failed? then Failed(SendError(received.w, render(received.error)), received.error)
      else Done(received.w, true)
  }

  /** The endless loop of target mode: it ends well only where stdin ends between messages. */
  function TargetMessages(
    w: World, target: Path, targetIsDir: bool, preserve: bool, render: Error -> Bytes): (r: Step<()>)
    ensures w.log <= r.w.log
    decreases |w.input|
  {
    var (w', more) :- TargetMessage(w, target, targetIsDir, preserve, render);
    if more then TargetMessages(w', target, targetIsDir, preserve, render) else Done(w', ())
  }

  /** Target mode of Copy. */
  function TargetCopy(
    w: World, target: Path, mustBeDirectory: bool, preserve: bool, render: Error -> Bytes): (r: Step<()>)
    ensures w.log <= r.w.log
  {
    var stat := Stat(w.disk, target);
    var targetIsDir := stat.Ok? && stat.value.DirNode?;
    if mustBeDirectory && !targetIsDir then Failed(w, TargetNotDirectory([]))
    else TargetMessages(Confirm(w), target, targetIsDir, preserve, render)
  }
}
