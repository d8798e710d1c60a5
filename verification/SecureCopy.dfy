/**
 The scp engine as it runs: a session whose streams and disk are updated in place, and the copier that
 drives it. Every method is proved to do what the functions of Stream, Receiver and Sender say.
 */
module SecureCopy {
  import opened Prelude
  import opened Numerals
  import opened FileSystem
  import opened Stream
  import Receiver
  import Sender

  /** The buffered stdin, the log of what was read and written, and the disk the process works on. */
  class Session {
    var stdin: Bytes
    var log: seq<Event>
    var disk: Disk
    const preserveTimesAndMode: bool

    constructor (stdin: Bytes, disk: Disk, preserve: bool)
      ensures Now() == World(stdin, [], disk) && preserveTimesAndMode == preserve
    {
      this.stdin, this.log, this.disk := stdin, [], disk;
      preserveTimesAndMode := preserve;
    }

    ghost function Now(): World
      reads this
    {
      World(stdin, log, disk)
    }

    ghost function Outcome<T>(r: Result<T, Error>): Step<T>
      reads this
    {
      match r
      case Ok(v) => Done(Now(), v)
      case Err(e) => Failed(Now(), e)
    }

    method ReadByte() returns (r: Result<Byte, Error>)
      modifies this
      ensures Outcome(r) == Stream.ReadByte(old(Now()))
    {
      if stdin == [] {
        log := log + [Eof];
        return Err(EndOfFile);
      }
      log := log + [Got(stdin[0])];
      r := Ok(stdin[0]);
      stdin := stdin[1..];
    }

    /** Reads a byte and puts it back at the head of the buffer. */
    method PeekByte() returns (r: Result<Byte, Error>)
      modifies this
      ensures Outcome(r) == Stream.PeekByte(old(Now()))
    {
      ghost var before := stdin;
      var history := log;
      var b :- ReadByte();
      stdin := [b] + stdin;
      log := history + [Peeked(b)];
      assert stdin == before;
      return Ok(b);
    }

    method ReadString(delimiter: Byte) returns (r: Result<Bytes, Error>)
      modifies this
      ensures Outcome(r) == Stream.ReadString(old(Now()), delimiter)
    {
      var i := IndexOf(stdin, delimiter);
      if i == |stdin| {
        log := log + Gots(stdin) + [Eof];
        stdin := [];
        return Err(EndOfFile);
      }
      log := log + Gots(stdin[..i + 1]);
      r := Ok(stdin[..i]);
      stdin := stdin[i + 1..];
    }

    method Take(n: nat) returns (data: Bytes)
      modifies this
      ensures (Now(), data) == Stream.Take(old(Now()), n)
    {
      if n <= |stdin| {
        data := stdin[..n];
        log, stdin := log + Gots(data), stdin[n..];
      } else {
        data := stdin;
        log, stdin := log + Gots(data) + [Eof], [];
      }
    }

    method Write(text: Bytes)
      modifies this`log
      ensures Now() == Stream.Write(old(Now()), text)
    {
      log := log + Puts(text);
    }

    method SendConfirmation()
      modifies this`log
      ensures Now() == Confirm(old(Now()))
    {
      Write([0]);
    }

    method SendError(message: Bytes)
      modifies this`log
      ensures Now() == Stream.SendError(old(Now()), message)
    {
      ghost var before := log;
      Write([1]);
      Write(PREFIX + message + [NEWLINE]);
      assert log == before + Puts(ErrorRecord(message));
    }

    method AwaitConfirmation() returns (r: Result<(), Error>)
      modifies this
      ensures Outcome(r) == Stream.AwaitConfirmation(old(Now()))
    {
      var kind :- ReadByte();
      if kind == 1 {
        var message :- ReadString(NEWLINE);
        log := log + [Note(message)];
      } else if kind == 2 {
        var message :- ReadString(NEWLINE);
        return Err(Remote(message));
      } else if kind != 0 {
        return Err(BadAck(kind));
      }
      return Ok(());
    }

    method Call(answer: Result<Disk, OsError>) returns (r: Result<(), Error>)
      modifies this`disk
      ensures Outcome(r) == Stream.Call(old(Now()), answer)
    {
      if answer.Err? {
        return Err(Os(answer.error));
      }
      disk := answer.value;
      return Ok(());
    }
  }

  class TimeMessage {
    var modificationTime: int
    var accessTime: int

    constructor (modificationTime: int, accessTime: int)
      ensures Value() == Receiver.Times(modificationTime, accessTime)
    {
      this.modificationTime, this.accessTime := modificationTime, accessTime;
    }

    ghost function Value(): Receiver.Times
      reads this
    {
      Receiver.Times(modificationTime, accessTime)
    }

    /** Fills in the times as they are parsed. */
    method Receive(session: Session) returns (r: Result<(), Error>)
      modifies this, session
      ensures match Receiver.ReceiveTimes(old(session.Now()))
              case Done(w, times) => r.Ok? && session.Now() == w && Value() == times
              case Failed(w, e) => r == Err(e) && session.Now() == w
    {
      var kind :- session.ReadByte();
      if kind != Receiver.T_RECORD {
        return Err(UnexpectedType(kind));
      }
      var mtimeText :- session.ReadString(SPACE);
      var mtime := ParseUint(mtimeText, 10, TWO_64);
      if mtime.None? {
        return Err(BadNumber(mtimeText));
      }
      modificationTime := ToInt64(mtime.value);
      var _ :- session.ReadString(SPACE);
      var atimeText :- session.ReadString(SPACE);
      var atime := ParseUint(atimeText, 10, TWO_64);
      if atime.None? {
        return Err(BadNumber(atimeText));
      }
      accessTime := ToInt64(atime.value);
      var _ :- session.ReadString(NEWLINE);
      session.SendConfirmation();
      return Ok(());
    }
  }

  ghost function Announced(tm: TimeMessage?): Option<Receiver.Times>
    reads tm
  {
    if tm == null then None else Some(tm.Value())
  }

  /** `render` is the text Go's Error() gives an error. */
  class Copier {
    const session: Session
    const render: Error -> Bytes

    constructor (session: Session, render: Error -> Bytes)
      ensures this.session == session && this.render == render
    {
      this.session, this.render := session, render;
    }

    // ---------- target mode ----------

    method ReadFileHeader() returns (r: Result<Receiver.FileHeader, Error>)
      modifies session
      ensures session.Outcome(r) == Receiver.ReadFileHeader(old(session.Now()))
    {
      var kind :- session.ReadByte();
      if kind != Receiver.C_RECORD {
        return Err(UnexpectedType(kind));
      }
      var modeText :- session.ReadString(SPACE);
      var mode := ParseUint(modeText, 8, TWO_32);
      if mode.None? {
        return Err(BadNumber(modeText));
      }
      var lengthText :- session.ReadString(SPACE);
      var length := ParseInt(lengthText);
      if length.None? {
        return Err(BadNumber(lengthText));
      }
      var name :- session.ReadString(NEWLINE);
      session.SendConfirmation();
      return Ok(Receiver.FileHeader(mode.value, length.value, name));
    }

    method CopyContents(target: Path, mode: nat, length: int) returns (r: Result<(), Error>)
      modifies session
      ensures session.Outcome(r) == Receiver.CopyContents(old(session.Now()), target, mode, length)
    {
      var _ :- session.Call(Create(session.disk, target, mode));
      var data := session.Take(Receiver.ContentLength(length));
      session.disk := Append(session.disk, target, data);
      return if |data| < Receiver.ContentLength(length) then Err(EndOfFile) else Ok(());
    }

    method ReceiveFile(path: Path, pathIsDir: bool, tm: TimeMessage?) returns (r: Result<(), Error>)
      modifies session
      ensures session.Outcome(r) ==
              Receiver.ReceiveFile(old(session.Now()), path, pathIsDir, old(Announced(tm)),
                                   session.preserveTimesAndMode)
    {
      hide Receiver.ReadFileHeader, Receiver.CopyContents, Stream.AwaitConfirmation, Chmod, Chtimes;
      var header :- ReadFileHeader();
      var target := if pathIsDir then Join(path, header.name) else path;
      var _ :- CopyContents(target, header.mode, header.length);
      if session.preserveTimesAndMode {
        var _ :- session.Call(Chmod(session.disk, target, header.mode));
      }
      if tm != null {
        var _ :- session.Call(Chtimes(session.disk, target, tm.accessTime, tm.modificationTime));
      }
      var _ :- session.AwaitConfirmation();
      session.SendConfirmation();
      return Ok(());
    }

    method ReadDirHeader() returns (r: Result<Receiver.DirHeader, Error>)
      modifies session
      ensures session.Outcome(r) == Receiver.ReadDirHeader(old(session.Now()))
    {
      var kind :- session.ReadByte();
      if kind != Receiver.D_RECORD {
        return Err(UnexpectedType(kind));
      }
      var modeText :- session.ReadString(SPACE);
      var mode := ParseUint(modeText, 8, TWO_32);
      if mode.None? {
        return Err(BadNumber(modeText));
      }
      var _ :- session.ReadString(SPACE);
      var name :- session.ReadString(NEWLINE);
      session.SendConfirmation();
      return Ok(Receiver.DirHeader(mode.value, name));
    }

    method EnsureDirectory(target: Path, header: Receiver.DirHeader) returns (r: Result<(), Error>)
      modifies session
      ensures session.Outcome(r) == Receiver.EnsureDirectory(old(session.Now()), target, header)
    {
      var info := Stat(session.disk, target);
      if info.Err? {
        if info.error != NotExist {
          return Err(Os(info.error));
        }
        r := session.Call(Mkdir(session.disk, target, header.mode));
        return;
      }
      return if info.value.DirNode? then Ok(()) else Err(TargetNotDirectory(header.name));
    }

    method OpenDirectory(dir: Path) returns (r: Result<Path, Error>)
      modifies session
      ensures session.Outcome(r) == Receiver.OpenDirectory(old(session.Now()), dir)
    {
      var header :- ReadDirHeader();
      var target := Join(dir, header.name);
      if Stat(session.disk, dir) == Err(NotExist) {
        target := dir;
      }
      var _ :- EnsureDirectory(target, header);
      return Ok(target);
    }

    method CloseDirectory(target: Path, tm: TimeMessage?) returns (r: Result<(), Error>)
      modifies session
      ensures session.Outcome(r) ==
              Receiver.CloseDirectory(old(session.Now()), target, old(Announced(tm)), session.preserveTimesAndMode)
    {
      var line := session.ReadString(NEWLINE);
      if line != Ok([Receiver.E_RECORD]) {
        return Err(UnexpectedType(Receiver.D_RECORD));
      }
      if tm != null && session.preserveTimesAndMode {
        var _ :- session.Call(Chtimes(session.disk, target, tm.accessTime, tm.modificationTime));
      }
      session.SendConfirmation();
      return Ok(());
    }

    method ReceiveDirectory(dir: Path, tm: TimeMessage?) returns (r: Result<(), Error>)
      modifies session
      ensures session.Outcome(r) ==
              Receiver.ReceiveDirectory(old(session.Now()), dir, old(Announced(tm)), session.preserveTimesAndMode)
      decreases |session.stdin|, 0
    {
      var target :- OpenDirectory(dir);
      var _ :- ProcessDirectoryMessages(target);
      r := CloseDirectory(target, tm);
    }

    method NextMessage(timesAllowed: bool) returns (kind: Result<Option<Byte>, Error>, tm: TimeMessage?)
      modifies session
      ensures match Receiver.NextMessage(old(session.Now()), timesAllowed)
              case Failed(w, e) => kind == Err(e) && session.Now() == w
              case Done(w, Closed) => kind == Ok(None) && session.Now() == w
              case Done(w, Message(k, times)) => kind == Ok(Some(k)) && Announced(tm) == times && session.Now() == w
    {
      tm := null;
      var peeked := session.PeekByte();
      if peeked.Ok? && peeked.value == Receiver.T_RECORD && timesAllowed {
        tm := new TimeMessage(0, 0);
        var received := tm.Receive(session);
        if received.Err? {
          return Err(received.error), tm;
        }
        peeked := session.PeekByte();
      }
      return Ok(if peeked.Ok? then Some(peeked.value) else None), tm;
    }

    method ReceiveMessage(kind: Byte, tm: TimeMessage?, target: Path, targetIsDir: bool) returns (r: Result<(), Error>)
      modifies session
      ensures session.Outcome(r) ==
              Receiver.ReceiveMessage(old(session.Now()), Receiver.Message(kind, old(Announced(tm))), target,
                                      targetIsDir,
                                      session.preserveTimesAndMode)
      decreases |session.stdin|, 1
    {
      if kind == Receiver.C_RECORD {
        r := ReceiveFile(target, targetIsDir, tm);
      } else if kind == Receiver.D_RECORD {
        r := ReceiveDirectory(target, tm);
      } else {
        r := Err(UnexpectedType(kind));
      }
    }

    method ProcessDirectoryMessages(dir: Path) returns (r: Result<(), Error>)
      modifies session
      ensures session.Outcome(r) == Receiver.ProcessMessages(old(session.Now()), dir, session.preserveTimesAndMode)
      decreases |session.stdin|, 2
    {
      hide Receiver.NextMessage, Receiver.ReceiveMessage;
      while true
        invariant Receiver.ProcessMessages(session.Now(), dir, session.preserveTimesAndMode)
               == Receiver.ProcessMessages(old(session.Now()), dir, session.preserveTimesAndMode)
        invariant |session.stdin| <= old(|session.stdin|)
        decreases |session.stdin|
      {
        var next, tm := NextMessage(session.preserveTimesAndMode);
        var kind :- next;
        if kind == None {
          return Err(EndOfFile);
        }
        if kind == Some(Receiver.E_RECORD) && tm == null {
          return Ok(());
        }
        var _ :- ReceiveMessage(kind.value, tm, dir, true);
      }
    }

    method TargetMessage(target: Path, targetIsDir: bool) returns (r: Result<bool, Error>)
      modifies session
      ensures session.Outcome(r) ==
              Receiver.TargetMessage(old(session.Now()), target, targetIsDir, session.preserveTimesAndMode, render)
    {
      hide Receiver.NextMessage, Receiver.ReceiveMessage;
      var next, tm := NextMessage(true);
      if next == Ok(None) {
        return Ok(false);
      }
      var received: Result<(), Error>;
      if next.Err? {
        received := Err(next.error);
      } else {
        received := ReceiveMessage(next.value.value, tm, target, targetIsDir);
      }
      if received.Err? {
        session.SendError(render(received.error));
        return Err(received.error);
      }
      return Ok(true);
    }

    method CopyToTarget(target: Path, mustBeDirectory: bool) returns (r: Result<(), Error>)
      modifies session
      ensures session.Outcome(r) ==
              Receiver.TargetCopy(old(session.Now()), target, mustBeDirectory, session.preserveTimesAndMode, render)
    {
      hide Receiver.TargetMessage;
      var stat := Stat(session.disk, target);
      var targetIsDir := stat.Ok? && stat.value.DirNode?;
      if mustBeDirectory && !targetIsDir {
        return Err(TargetNotDirectory([]));
      }
      session.SendConfirmation();
      ghost var preserve := session.preserveTimesAndMode;
      while true
        invariant Receiver.TargetMessages(session.Now(), target, targetIsDir, preserve, render)
               == Receiver.TargetMessages(Confirm(old(session.Now())), target, targetIsDir, preserve, render)
        decreases |session.stdin|
      {
        var more :- TargetMessage(target, targetIsDir);
        if !more {
          return Ok(());
        }
      }
    }

    // ---------- source mode ----------

    method SendTimes(info: Sender.Info) returns (r: Result<(), Error>)
      modifies session
      ensures session.Outcome(r) == Sender.SendTimes(old(session.Now()), info, true)
    {
      session.Write(Sender.TimesLine(info));
      r := session.AwaitConfirmation();
    }

    method SendFile(info: Sender.Info, content: Bytes) returns (r: Result<(), Error>)
      modifies session
      ensures session.Outcome(r) == Sender.SendFile(old(session.Now()), info, content, session.preserveTimesAndMode)
    {
      if session.preserveTimesAndMode {
        var _ :- SendTimes(info);
      }
      session.Write(Sender.FileLine(info));
      var _ :- session.AwaitConfirmation();
      session.Write(Sender.Available(info, content));
      if |content| < info.size {
        return Err(EndOfFile);
      }
      session.SendConfirmation();
      r := session.AwaitConfirmation();
    }

    method SendDirHeader(info: Sender.Info) returns (r: Result<(), Error>)
      modifies session
      ensures session.Outcome(r) == Sender.SendDirHeader(old(session.Now()), info, session.preserveTimesAndMode)
    {
      if session.preserveTimesAndMode {
        var _ :- SendTimes(info);
      }
      session.Write(Sender.DirLine(info));
      r := session.AwaitConfirmation();
    }

    method SendDirectory(info: Sender.Info, entries: seq<Sender.Source>) returns (r: Result<(), Error>)
      modifies session
      ensures session.Outcome(r) ==
              Sender.SendDirectory(old(session.Now()), info, entries, session.preserveTimesAndMode, render)
      decreases entries, 0
    {
      var _ :- SendDirHeader(info);
      ghost var preserve := session.preserveTimesAndMode;
      ghost var start := session.Now();
      for i := 0 to |entries|
        invariant Sender.SendEntries(session.Now(), entries[i..], preserve, render)
               == Sender.SendEntries(start, entries, preserve, render)
      {
        var _ := Send(entries[i]);
        assert entries[i..][1..] == entries[i + 1..];
      }
      session.Write(Sender.END_LINE);
      r := session.AwaitConfirmation();
    }

    method Send(node: Sender.Source) returns (r: Result<(), Error>)
      modifies session
      ensures session.Outcome(r) == Sender.Send(old(session.Now()), node, session.preserveTimesAndMode, render)
      decreases node, 1
    {
      match node {
      case Unopened(e) =>
        r := Err(Os(e));
      case Unstatted(e) =>
        r := Err(Os(e));
      case RegularFile(info, content) =>
        r := SendFile(info, content);
      case Unlisted(info, e) =>
        r := SendDirHeader(info);
        if r.Ok? {
          r := Err(Os(e));
        }
      case Directory(info, entries) =>
        r := SendDirectory(info, entries);
      }
      if r.Err? {
        session.SendError(render(r.error));
      }
    }

    method CopyFromSource(operands: seq<Sender.Operand>, recursive: bool) returns (r: Result<(), Error>)
      modifies session
      ensures session.Outcome(r) ==
              Sender.SourceCopy(old(session.Now()), operands, recursive, session.preserveTimesAndMode, render)
    {
      var last: Option<Error> := None;
      var _ :- session.AwaitConfirmation();
      ghost var preserve := session.preserveTimesAndMode;
      ghost var start := session.Now();
      for i := 0 to |operands|
        invariant Sender.SendOperands(session.Now(), operands[i..], recursive, preserve, render, last)
               == Sender.SendOperands(start, operands, recursive, preserve, render, None)
      {
        var sent: Result<(), Error>;
        match operands[i] {
        case Missing(e) =>
          sent := Err(Os(e));
          session.SendError(render(sent.error));
        case Found(name, isDir, node) =>
          if isDir && !recursive {
            sent := Err(NotRegular(name));
            session.SendError(render(sent.error));
          } else {
            sent := Send(node);
          }
        }
        if sent.Err? {
          last := Some(sent.error);
        }
        assert operands[i..][1..] == operands[i + 1..];
      }
      return if last.Some? then Err(last.value) else Ok(());
    }
  }
}
