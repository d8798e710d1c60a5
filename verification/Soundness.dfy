/** Whatever the receiver accepts is a sentence of the grammar that the disk allows. */
module Soundness {
  import opened Prelude
  import opened Numerals
  import opened FileSystem
  import opened Stream
  import opened Receiver
  import opened Grammar
  import opened Acceptance

  lemma FieldWasRead(w: World, delimiter: Byte)
    requires ReadString(w, delimiter).Done?
    ensures var r := ReadString(w, delimiter);
            w.input == Field(r.value, delimiter, r.w.input) && delimiter !in r.value && r.w.disk == w.disk
  {
    var i := IndexOf(w.input, delimiter);
    assert w.input == w.input[..i] + ([w.input[i]] + w.input[i + 1..]);
  }

  lemma KindWasRead(w: World, kind: Byte)
    requires Expect(w, kind).Done?
    ensures w.input == [kind] + Expect(w, kind).w.input && Expect(w, kind).w.disk == w.disk
  {
  }

  lemma TimeWasRead(w: World, delimiter: Byte) returns (seconds: Bytes, ignored: Bytes)
    requires ReadTime(w, delimiter).Done?
    ensures ParseUint(seconds, 10, TWO_64).Some? && delimiter !in ignored
    ensures w.input == Field(seconds, SPACE, Field(ignored, delimiter, ReadTime(w, delimiter).w.input))
    ensures ReadTime(w, delimiter).w.disk == w.disk
  {
    hide ReadString;
    FieldWasRead(w, SPACE);
    var first := ReadString(w, SPACE);
    FieldWasRead(first.w, delimiter);
    seconds, ignored := first.value, ReadString(first.w, delimiter).value;
  }

  lemma StampWasRead(w: World) returns (s: Stamp)
    requires ReceiveTimes(w).Done?
    ensures GoodStamp(s) && w.input == ShowStamp(s, ReceiveTimes(w).w.input)
    ensures ReceiveTimes(w).w.disk == w.disk
  {
    hide Expect, ReadTime;
    KindWasRead(w, T_RECORD);
    var w1 := Expect(w, T_RECORD).w;
    var mtime, gap := TimeWasRead(w1, SPACE);
    var atime, tail := TimeWasRead(ReadTime(w1, SPACE).w, NEWLINE);
    s := Stamp(mtime, gap, atime, tail);
  }

  lemma ModeWasRead(w: World, kind: Byte) returns (mode: Bytes)
    requires ReadMode(w, kind).Done?
    ensures ParseUint(mode, 8, TWO_32).Some?
    ensures w.input == [kind] + Field(mode, SPACE, ReadMode(w, kind).w.input)
    ensures ReadMode(w, kind).w.disk == w.disk
  {
    hide Expect, ReadString;
    KindWasRead(w, kind);
    var w1 := Expect(w, kind).w;
    FieldWasRead(w1, SPACE);
    mode := ReadString(w1, SPACE).value;
  }

  /** `f` is a file record whose contents are yet to come. */
  lemma FileHeadWasRead(w: World) returns (f: Record)
    requires ReadFileHeader(w).Done?
    ensures f.FileRecord? && w.input == ShowHead(f, ReadFileHeader(w).w.input)
    ensures ParseUint(f.mode, 8, TWO_32).Some? && ParseInt(f.size).Some? && NEWLINE !in f.name
    ensures ReadFileHeader(w).value == FileHeader(ModeOf(f), ParseInt(f.size).value, f.name)
    ensures ReadFileHeader(w).w.disk == w.disk
  {
    hide ReadMode, ReadString;
    var mode := ModeWasRead(w, C_RECORD);
    var w1 := ReadMode(w, C_RECORD).w;
    FieldWasRead(w1, SPACE);
    var size := ReadString(w1, SPACE);
    FieldWasRead(size.w, NEWLINE);
    f := FileRecord(mode, size.value, ReadString(size.w, NEWLINE).value, [], Accepted);
    var solid := Field(f.mode, SPACE, w1.input);
    ModeIsRead(w, f, w1.input);
  }

  lemma DirHeadWasRead(w: World) returns (d: Record)
    requires ReadDirHeader(w).Done?
    ensures d.DirRecord? && d.entries == [] && GoodRecord(d, false)
    ensures w.input == ShowHead(d, ReadDirHeader(w).w.input)
    ensures ReadDirHeader(w).value == DirHeader(ModeOf(d), d.name)
    ensures ReadDirHeader(w).w.disk == w.disk
  {
    hide ReadMode, ReadString;
    var mode := ModeWasRead(w, D_RECORD);
    var w1 := ReadMode(w, D_RECORD).w;
    FieldWasRead(w1, SPACE);
    var length := ReadString(w1, SPACE);
    FieldWasRead(length.w, NEWLINE);
    d := DirRecord(mode, length.value, ReadString(length.w, NEWLINE).value, []);
    ModeIsRead(w, d, w1.input);
  }

  lemma ClosingWasRead(w: World) returns (c: Closing)
    requires AwaitConfirmation(w).Done?
    ensures w.input == ShowClosing(c, AwaitConfirmation(w).w.input) && (c.Warned? ==> NEWLINE !in c.message)
  {
    hide ReadString;
    var w1 := ReadByte(w).w;
    if w.input[0] == 0 {
      c := Accepted;
    } else {
      FieldWasRead(w1, NEWLINE);
      c := Warned(ReadString(w1, NEWLINE).value);
    }
  }

  lemma ContentsWereStored(w: World, target: Path, header: FileHeader, times: Option<Times>, preserve: bool)
    returns (content: Bytes)
    requires StoreFile(w, target, header, times, preserve).Done?
    ensures w.input == content + StoreFile(w, target, header, times, preserve).w.input
    ensures |content| == ContentLength(header.length)
    ensures StoreFileRecord(w.disk, target, header.mode, content, times, preserve).Some?
  {
    hide Create, Append, Chmod, Chtimes;
    content := w.input[..ContentLength(header.length)];
  }

  lemma FileWasReceived(w: World, path: Path, pathIsDir: bool, times: Option<Times>, preserve: bool) returns (r: Record)
    requires ReceiveFile(w, path, pathIsDir, times, preserve).Done?
    ensures r.FileRecord? && GoodRecord(r, preserve)
    ensures w.input == ShowRecord(r, ReceiveFile(w, path, pathIsDir, times, preserve).w.input)
    ensures StoreRecord(w.disk, path, pathIsDir, times, r, preserve).Some?
  {
    hide ReadFileHeader, StoreFile, StoreFileRecord, AwaitConfirmation, Join;
    var f := FileHeadWasRead(w);
    var head := ReadFileHeader(w);
    var target := if pathIsDir then Join(path, f.name) else path;
    var content := ContentsWereStored(head.w, target, head.value, times, preserve);
    var stored := StoreFile(head.w, target, head.value, times, preserve);
    var closing := ClosingWasRead(stored.w);
    r := FileRecord(f.mode, f.size, f.name, content, closing);
  }

  lemma MessageWasNext(w: World, timesAllowed: bool) returns (stamp: Option<Stamp>)
    requires NextMessage(w, timesAllowed).Done?
    ensures stamp.Some? ==> timesAllowed && GoodStamp(stamp.value)
    ensures var next := NextMessage(w, timesAllowed);
            && w.input == (if stamp.Some? then ShowStamp(stamp.value, next.w.input) else next.w.input)
            && next.w.disk == w.disk
            && (if next.value.Closed? then next.w.input == []
                else next.value.times == TimesOf(stamp) && [next.value.kind] <= next.w.input)
  {
    hide ReceiveTimes;
    stamp := None;
    if w.input != [] && w.input[0] == T_RECORD && timesAllowed {
      var s := StampWasRead(PeekByte(w).w);
      stamp := Some(s);
      StampIsRead(PeekByte(w).w, s, ReceiveTimes(PeekByte(w).w).w.input);
    }
  }

  /** Soundness for one record. */
  lemma {:induction false} RecordWasReceived(
    w: World, message: Message, path: Path, pathIsDir: bool, preserve: bool) returns (r: Record)
    requires message.Message? && ReceiveMessage(w, message, path, pathIsDir, preserve).Done?
    ensures GoodRecord(r, preserve) && Kind(r) == message.kind
    ensures w.input == ShowRecord(r, ReceiveMessage(w, message, path, pathIsDir, preserve).w.input)
    ensures StoreRecord(w.disk, path, pathIsDir, message.times, r, preserve).Some?
    decreases |w.input|, 1
  {
    hide ReceiveFile, ReceiveDirectory, ShowRecord, StoreRecord;
    if message.kind == C_RECORD {
      r := FileWasReceived(w, path, pathIsDir, message.times, preserve);
    } else {
      r := DirectoryWasReceived(w, path, pathIsDir, message.times, preserve);
    }
  }

  lemma {:induction false} DirectoryWasReceived(
    w: World, path: Path, pathIsDir: bool, times: Option<Times>, preserve: bool) returns (r: Record)
    requires ReceiveDirectory(w, path, times, preserve).Done?
    ensures r.DirRecord? && GoodRecord(r, preserve)
    ensures w.input == ShowRecord(r, ReceiveDirectory(w, path, times, preserve).w.input)
    ensures StoreRecord(w.disk, path, pathIsDir, times, r, preserve).Some?
    decreases |w.input|, 0
  {
    hide ReadDirHeader, Stat, Mkdir, Chtimes, ReadString, Join, ProcessMessages;
    var d := DirHeadWasRead(w);
    var entered := OpenDirectory(w, path);
    assert MakeDirectory(w.disk, entered.value, ModeOf(d)) == Some(entered.w.disk);
    var entries := EntriesWereProcessed(entered.w, entered.value, preserve);
    var processed := ProcessMessages(entered.w, entered.value, preserve);
    FieldWasRead(processed.w, NEWLINE);
    var rest := ReadString(processed.w, NEWLINE).w.input;
    assert processed.w.input == [E_RECORD] + ([NEWLINE] + rest);
    EntriesAreProcessed(entered.w, entries, entered.value, preserve, rest);
    r := DirRecord(d.mode, d.length, d.name, entries);
  }

  lemma {:induction false} EntriesWereProcessed(w: World, dir: Path, preserve: bool) returns (entries: seq<Entry>)
    requires ProcessMessages(w, dir, preserve).Done?
    ensures GoodEntries(entries, preserve, preserve)
    ensures w.input == ShowEntries(entries, ProcessMessages(w, dir, preserve).w.input)
    ensures StoreEntries(w.disk, dir, true, entries, preserve).Some?
    decreases |w.input|, 2
  {
    hide NextMessage, ReceiveMessage;
    var stamp := MessageWasNext(w, preserve);
    var next := NextMessage(w, preserve);
    if next.value == Message(E_RECORD, None) {
      entries := [];
      LoneEndHasNoStamp(w, preserve);
    } else {
      var record := RecordWasReceived(next.w, next.value, dir, true, preserve);
      var received := ReceiveMessage(next.w, next.value, dir, true, preserve);
      RecordIsReceived(next.w, record, dir, true, next.value.times, preserve, received.w.input);
      var others := EntriesWereProcessed(received.w, dir, preserve);
      entries := [Entry(stamp, record)] + others;
      assert entries[1..] == others;
    }
  }

  lemma LoneEndHasNoStamp(w: World, timesAllowed: bool)
    requires NextMessage(w, timesAllowed).Done? && NextMessage(w, timesAllowed).value == Message(E_RECORD, None)
    ensures NextMessage(w, timesAllowed).w.input == w.input && NextMessage(w, timesAllowed).w.disk == w.disk
  {
  }

  /** Soundness of target mode. */
  lemma {:induction false} TransmissionWasReceived(
    w: World, target: Path, targetIsDir: bool, preserve: bool, render: Error -> Bytes)
    returns (entries: seq<Entry>, lone: Option<Stamp>)
    requires TargetMessages(w, target, targetIsDir, preserve, render).Done?
    ensures GoodEntries(entries, true, preserve) && (lone.Some? ==> GoodStamp(lone.value))
    ensures w.input == ShowEntries(entries, ShowLone(lone))
    ensures StoreEntries(w.disk, target, targetIsDir, entries, preserve).Some?
    decreases |w.input|
  {
    hide NextMessage, ReceiveMessage;
    var stamp := MessageWasNext(w, true);
    var next := NextMessage(w, true);
    if next.value.Closed? {
      entries, lone := [], stamp;
    } else {
      var record := RecordWasReceived(next.w, next.value, target, targetIsDir, preserve);
      var received := ReceiveMessage(next.w, next.value, target, targetIsDir, preserve);
      RecordIsReceived(next.w, record, target, targetIsDir, next.value.times, preserve, received.w.input);
      var others;
      others, lone := TransmissionWasReceived(received.w, target, targetIsDir, preserve, render);
      entries := [Entry(stamp, record)] + others;
      assert entries[1..] == others;
    }
  }
}
