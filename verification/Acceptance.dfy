/** Every sentence the disk allows is accepted, in full and no further, with the effect it stands for. */
module Acceptance {
  import opened Prelude
  import opened Numerals
  import opened FileSystem
  import opened Stream
  import opened Receiver
  import opened Grammar

  function Hear(w: World, text: Bytes, rest: Bytes): World
  {
    w.(input := rest, log := w.log + Gots(text))
  }

  lemma HearTwice(w: World, a: Bytes, rest: Bytes, b: Bytes, rest': Bytes)
    ensures Hear(Hear(w, a, rest), b, rest') == Hear(w, a + b, rest')
  {
    assert w.log + Gots(a) + Gots(b) == w.log + Gots(a + b);
  }

  lemma {:induction false} IndexOfField(text: Bytes, delimiter: Byte, rest: Bytes)
    requires delimiter !in text
    ensures IndexOf(Field(text, delimiter, rest), delimiter) == |text|
  {
    if text != [] {
      assert Field(text, delimiter, rest)[1..] == Field(text[1..], delimiter, rest);
      IndexOfField(text[1..], delimiter, rest);
    }
  }

  lemma ReadField(w: World, text: Bytes, delimiter: Byte, rest: Bytes)
    requires w.input == Field(text, delimiter, rest) && delimiter !in text
    ensures ReadString(w, delimiter) == Done(Hear(w, text + [delimiter], rest), text)
  {
    IndexOfField(text, delimiter, rest);
    assert w.input[..|text| + 1] == text + [delimiter];
    assert w.input[|text| + 1..] == rest;
    assert w.input[..|text|] == text;
  }

  lemma ReadKind(w: World, kind: Byte, rest: Bytes)
    requires w.input == [kind] + rest
    ensures Expect(w, kind) == Done(Hear(w, [kind], rest), ())
    ensures PeekByte(w) == Done(w.(log := w.log + [Peeked(kind)]), kind)
  {
    assert w.input[1..] == rest;
    assert Gots([kind]) == [Got(kind)];
  }

  lemma ReadTimeField(w: World, seconds: Bytes, ignored: Bytes, delimiter: Byte, rest: Bytes)
    requires w.input == Field(seconds, SPACE, Field(ignored, delimiter, rest))
    requires ParseUint(seconds, 10, TWO_64).Some? && delimiter !in ignored
    ensures ReadTime(w, delimiter)
         == Done(Hear(w, seconds + [SPACE] + (ignored + [delimiter]), rest),
                 ToInt64(ParseUint(seconds, 10, TWO_64).value))
  {
    NumeralsAreSolid(seconds, 10);
    ReadField(w, seconds, SPACE, Field(ignored, delimiter, rest));
    var w' := Hear(w, seconds + [SPACE], Field(ignored, delimiter, rest));
    ReadField(w', ignored, delimiter, rest);
    HearTwice(w, seconds + [SPACE], Field(ignored, delimiter, rest), ignored + [delimiter], rest);
  }

  lemma StampIsRead(w: World, s: Stamp, rest: Bytes)
    requires w.input == ShowStamp(s, rest) && GoodStamp(s)
    ensures ReceiveTimes(w)
         == Done(World(rest, HeardStamp(s, w.log), w.disk), TimesOf(Some(s)).value)
  {
    hide Expect, ReadTime;
    var atimePart := Field(s.atime, SPACE, Field(s.tail, NEWLINE, rest));
    var mtimePart := Field(s.mtime, SPACE, Field(s.gap, SPACE, atimePart));
    var mtimeText, atimeText := s.mtime + [SPACE] + (s.gap + [SPACE]), s.atime + [SPACE] + (s.tail + [NEWLINE]);
    ReadKind(w, T_RECORD, mtimePart);
    ReadTimeField(Hear(w, [T_RECORD], mtimePart), s.mtime, s.gap, SPACE, atimePart);
    HearTwice(w, [T_RECORD], mtimePart, mtimeText, atimePart);
    ReadTimeField(Hear(w, [T_RECORD] + mtimeText, atimePart), s.atime, s.tail, NEWLINE, rest);
    HearTwice(w, [T_RECORD] + mtimeText, atimePart, atimeText, rest);
    assert [T_RECORD] + mtimeText + atimeText == ShowStamp(s, []);
    assert Puts([0]) == [Put(0)];
  }

  /** Type, mode and middle field, which both kinds of header share. */
  lemma ModeIsRead(w: World, r: Record, rest: Bytes)
    requires w.input == [Kind(r)] + Field(r.mode, SPACE, rest)
    requires ParseUint(r.mode, 8, TWO_32).Some?
    ensures ReadMode(w, Kind(r)) == Done(Hear(w, [Kind(r)] + (r.mode + [SPACE]), rest), ModeOf(r))
  {
    hide Expect, ReadString;
    NumeralsAreSolid(r.mode, 8);
    ReadKind(w, Kind(r), Field(r.mode, SPACE, rest));
    ReadField(Hear(w, [Kind(r)], Field(r.mode, SPACE, rest)), r.mode, SPACE, rest);
    HearTwice(w, [Kind(r)], Field(r.mode, SPACE, rest), r.mode + [SPACE], rest);
  }

  function Second(r: Record): Bytes
  {
    if r.FileRecord? then r.size else r.length
  }

  /** The three fields of a header, as they are read one after the other. */
  lemma FieldsAreRead(w: World, r: Record, rest: Bytes)
    requires w.input == ShowHead(r, rest)
    requires ParseUint(r.mode, 8, TWO_32).Some? && SPACE !in Second(r) && NEWLINE !in r.name
    ensures
      var first := ReadMode(w, Kind(r));
      && first.Done? && first.value == ModeOf(r)
      && var second := ReadString(first.w, SPACE);
         && second.Done? && second.value == Second(r)
         && ReadString(second.w, NEWLINE) == Done(World(rest, w.log + Gots(ShowHead(r, [])), w.disk), r.name)
  {
    hide ReadMode, ReadString;
    var middle := Second(r);
    var namePart := Field(r.name, NEWLINE, rest);
    var middlePart := Field(middle, SPACE, namePart);
    var modeText := [Kind(r)] + (r.mode + [SPACE]);
    ModeIsRead(w, r, middlePart);
    ReadField(Hear(w, modeText, middlePart), middle, SPACE, namePart);
    HearTwice(w, modeText, middlePart, middle + [SPACE], namePart);
    ReadField(Hear(w, modeText + (middle + [SPACE]), namePart), r.name, NEWLINE, rest);
    HearTwice(w, modeText + (middle + [SPACE]), namePart, r.name + [NEWLINE], rest);
    assert modeText + (middle + [SPACE]) + (r.name + [NEWLINE]) == ShowHead(r, []);
  }

  lemma HeadIsRead(w: World, r: Record, preserve: bool, rest: Bytes)
    requires w.input == ShowHead(r, rest) && GoodRecord(r, preserve)
    ensures r.FileRecord? ==>
              (ReadFileHeader(w)
               == Done(World(rest, HeardHead(r, w.log), w.disk), FileHeader(ModeOf(r), ParseInt(r.size).value, r.name)))
    ensures r.DirRecord? ==>
              ReadDirHeader(w) == Done(World(rest, HeardHead(r, w.log), w.disk), DirHeader(ModeOf(r), r.name))
  {
    hide ReadMode, ReadString, GoodEntries, ShowHead, ParseInt, ParseUint, ModeOf;
    if r.FileRecord? {
      NumeralsAreSolid(r.size, 10);
    }
    FieldsAreRead(w, r, rest);
    assert Puts([0]) == [Put(0)];
  }

  lemma ClosingIsRead(w: World, c: Closing, rest: Bytes)
    requires w.input == ShowClosing(c, rest) && (c.Warned? ==> NEWLINE !in c.message)
    ensures AwaitConfirmation(w) == Done(World(rest, w.log + HeardClosing(c), w.disk), ())
  {
    hide ReadString;
    var text := w.input[1..];
    assert Gots([w.input[0]]) == [Got(w.input[0])];
    match c {
      case Accepted =>
        assert ShowClosing(c, []) == [0];
        assert w.log + HeardClosing(c) == w.log + [Got(0)];
        assert text == rest;
      case Warned(message) =>
        assert text == Field(message, NEWLINE, rest);
        ReadField(Hear(w, [1], text), message, NEWLINE, rest);
        HearTwice(w, [1], text, message + [NEWLINE], rest);
        assert [1] + (message + [NEWLINE]) == ShowClosing(c, []);
        assert w.log + HeardClosing(c) == w.log + Gots(ShowClosing(c, [])) + [Note(message)];
    }
  }

  lemma ContentsAreStored(
    w: World, target: Path, mode: nat, length: int, name: Name, content: Bytes, rest: Bytes, times: Option<Times>,
    preserve: bool)
    requires w.input == content + rest && |content| == ContentLength(length)
    requires StoreFileRecord(w.disk, target, mode, content, times, preserve).Some?
    ensures StoreFile(w, target, FileHeader(mode, length, name), times, preserve)
         == Done(World(rest, w.log + Gots(content),
                       StoreFileRecord(w.disk, target, mode, content, times, preserve).value), ())
  {
    hide Create, Append, Chmod, Chtimes;
    assert w.input[..|content|] == content && w.input[|content|..] == rest;
  }

  lemma FileIsReceived(
    w: World, r: Record, path: Path, pathIsDir: bool, times: Option<Times>, preserve: bool, rest: Bytes)
    requires r.FileRecord? && w.input == ShowRecord(r, rest) && GoodRecord(r, preserve)
    requires StoreRecord(w.disk, path, pathIsDir, times, r, preserve).Some?
    ensures ReceiveFile(w, path, pathIsDir, times, preserve)
         == Done(World(rest, HeardRecord(r, w.log), StoreRecord(w.disk, path, pathIsDir, times, r, preserve).value), ())
  {
    hide ReadFileHeader, StoreFile, StoreFileRecord, AwaitConfirmation, Join;
    var body := r.content + ShowClosing(r.closing, rest);
    var length := ParseInt(r.size).value;
    HeadIsRead(w, r, preserve, body);
    var w1 := World(body, HeardHead(r, w.log), w.disk);
    var target := if pathIsDir then Join(path, r.name) else path;
    ContentsAreStored(w1, target, ModeOf(r), length, r.name, r.content, ShowClosing(r.closing, rest), times, preserve);
    var d := StoreFileRecord(w.disk, target, ModeOf(r), r.content, times, preserve).value;
    ClosingIsRead(World(ShowClosing(r.closing, rest), w1.log + Gots(r.content), d), r.closing, rest);
    assert Puts([0]) == [Put(0)];
  }

  lemma MessageIsNext(w: World, e: Entry, timesAllowed: bool, preserve: bool, rest: Bytes)
    requires w.input == ShowEntry(e, rest) && GoodEntry(e, timesAllowed, preserve)
    ensures NextMessage(w, timesAllowed)
         == Done(World(ShowRecord(e.record, rest),
                       (if e.stamp.Some? then HeardStamp(e.stamp.value, w.log + [Peeked(T_RECORD)]) else w.log)
                       + [Peeked(Kind(e.record))],
                       w.disk),
                 Message(Kind(e.record), TimesOf(e.stamp)))
  {
    hide ReceiveTimes, HeardStamp;
    var text := ShowRecord(e.record, rest);
    assert text[0] == Kind(e.record);
    if e.stamp.Some? {
      assert w.input[0] == T_RECORD;
      StampIsRead(w.(log := w.log + [Peeked(T_RECORD)]), e.stamp.value, text);
    }
  }

  /** Completeness for one record. */
  lemma {:induction false} RecordIsReceived(
    w: World, r: Record, path: Path, pathIsDir: bool, times: Option<Times>, preserve: bool, rest: Bytes)
    requires w.input == ShowRecord(r, rest) && GoodRecord(r, preserve)
    requires StoreRecord(w.disk, path, pathIsDir, times, r, preserve).Some?
    ensures ReceiveMessage(w, Message(Kind(r), times), path, pathIsDir, preserve)
         == Done(World(rest, HeardRecord(r, w.log), StoreRecord(w.disk, path, pathIsDir, times, r, preserve).value), ())
    decreases r, 1
  {
    hide ReceiveFile, ReceiveDirectory, HeardRecord;
    if r.FileRecord? {
      FileIsReceived(w, r, path, pathIsDir, times, preserve, rest);
    } else {
      DirectoryIsReceived(w, r, path, times, preserve, rest);
    }
  }

  lemma {:induction false} DirectoryIsReceived(
    w: World, r: Record, path: Path, times: Option<Times>, preserve: bool, rest: Bytes)
    requires r.DirRecord? && w.input == ShowRecord(r, rest) && GoodRecord(r, preserve)
    requires StoreRecord(w.disk, path, true, times, r, preserve).Some?
    ensures ReceiveDirectory(w, path, times, preserve)
         == Done(World(rest, HeardRecord(r, w.log), StoreRecord(w.disk, path, true, times, r, preserve).value), ())
    decreases r, 0
  {
    hide ReadDirHeader, Stat, Mkdir, Chtimes, ReadString, Join;
    var end := [E_RECORD] + ([NEWLINE] + rest);
    var body := ShowEntries(r.entries, end);
    HeadIsRead(w, r, preserve, body);
    var target := TargetDirectory(w.disk, path, r.name);
    var d := MakeDirectory(w.disk, target, ModeOf(r)).value;
    var w1 := World(body, HeardHead(r, w.log), d);
    assert OpenDirectory(w, path) == Done(w1, target);
    EntriesAreProcessed(w1, r.entries, target, preserve, rest);
    var w2 := World(end, HeardEntries(r.entries, w1.log) + [Peeked(E_RECORD)],
                    StoreEntries(d, target, true, r.entries, preserve).value);
    assert end == Field([E_RECORD], NEWLINE, rest);
    ReadField(w2, [E_RECORD], NEWLINE, rest);
    assert [E_RECORD] + [NEWLINE] == [E_RECORD, NEWLINE];
    assert Puts([0]) == [Put(0)];
  }

  lemma {:induction false} EntryIsReceived(
    w: World, e: Entry, path: Path, pathIsDir: bool, timesAllowed: bool, preserve: bool, rest: Bytes)
    requires w.input == ShowEntry(e, rest) && GoodEntry(e, timesAllowed, preserve)
    requires StoreEntry(w.disk, path, pathIsDir, e, preserve).Some?
    ensures var next := NextMessage(w, timesAllowed);
            && next.Done? && next.value == Message(Kind(e.record), TimesOf(e.stamp))
            && ReceiveMessage(next.w, next.value, path, pathIsDir, preserve)
               == Done(World(rest, HeardEntry(e, w.log), StoreEntry(w.disk, path, pathIsDir, e, preserve).value), ())
    decreases e, 2
  {
    hide NextMessage, ReceiveMessage;
    MessageIsNext(w, e, timesAllowed, preserve, rest);
    RecordIsReceived(NextMessage(w, timesAllowed).w, e.record, path, pathIsDir, TimesOf(e.stamp), preserve, rest);
  }

  lemma {:induction false} EntriesAreProcessed(w: World, entries: seq<Entry>, dir: Path, preserve: bool, rest: Bytes)
    requires w.input == ShowEntries(entries, [E_RECORD] + ([NEWLINE] + rest))
    requires GoodEntries(entries, preserve, preserve) && StoreEntries(w.disk, dir, true, entries, preserve).Some?
    ensures ProcessMessages(w, dir, preserve)
         == Done(World([E_RECORD] + ([NEWLINE] + rest), HeardEntries(entries, w.log) + [Peeked(E_RECORD)],
                       StoreEntries(w.disk, dir, true, entries, preserve).value), ())
    decreases entries, 0
  {
    hide NextMessage, ReceiveMessage;
    var end := [E_RECORD] + ([NEWLINE] + rest);
    if entries == [] {
      EndIsNext(w, preserve);
    } else {
      var e, rest' := entries[0], ShowEntries(entries[1..], end);
      EntryIsReceived(w, e, dir, true, preserve, preserve, rest');
      EntriesAreProcessed(World(rest', HeardEntry(e, w.log), StoreEntry(w.disk, dir, true, e, preserve).value),
                          entries[1..], dir, preserve, rest);
    }
  }

  lemma EndIsNext(w: World, timesAllowed: bool)
    requires w.input != [] && w.input[0] == E_RECORD
    ensures NextMessage(w, timesAllowed) == Done(w.(log := w.log + [Peeked(E_RECORD)]), Message(E_RECORD, None))
  {
  }

  // ---------- target mode ----------

  /** A time record with nothing after it ends the transmission without complaint. */
  function ShowLone(lone: Option<Stamp>): Bytes
  {
    if lone.Some? then ShowStamp(lone.value, []) else []
  }

  function HeardLone(lone: Option<Stamp>, log: seq<Event>): seq<Event>
  {
    (if lone.Some? then HeardStamp(lone.value, log + [Peeked(T_RECORD)]) else log) + [Eof]
  }

  lemma LoneStampEnds(w: World, lone: Option<Stamp>)
    requires w.input == ShowLone(lone) && (lone.Some? ==> GoodStamp(lone.value))
    ensures NextMessage(w, true) == Done(World([], HeardLone(lone, w.log), w.disk), Closed)
  {
    hide ReceiveTimes, HeardStamp;
    if lone.Some? {
      assert w.input[0] == T_RECORD;
      StampIsRead(w.(log := w.log + [Peeked(T_RECORD)]), lone.value, []);
    }
  }

  /** Completeness of target mode: sentences up to the end of input. */
  lemma {:induction false} TransmissionIsReceived(
    w: World, entries: seq<Entry>, lone: Option<Stamp>, target: Path, targetIsDir: bool, preserve: bool,
    render: Error -> Bytes)
    requires w.input == ShowEntries(entries, ShowLone(lone))
    requires GoodEntries(entries, true, preserve) && (lone.Some? ==> GoodStamp(lone.value))
    requires StoreEntries(w.disk, target, targetIsDir, entries, preserve).Some?
    ensures TargetMessages(w, target, targetIsDir, preserve, render)
         == Done(World([], HeardLone(lone, HeardEntries(entries, w.log)),
                       StoreEntries(w.disk, target, targetIsDir, entries, preserve).value), ())
    decreases |entries|
  {
    hide NextMessage, ReceiveMessage, HeardLone;
    if entries == [] {
      LoneStampEnds(w, lone);
    } else {
      var e, rest := entries[0], ShowEntries(entries[1..], ShowLone(lone));
      EntryIsReceived(w, e, target, targetIsDir, true, preserve, rest);
      var stored := StoreEntry(w.disk, target, targetIsDir, e, preserve).value;
      TransmissionIsReceived(World(rest, HeardEntry(e, w.log), stored),
                             entries[1..], lone, target, targetIsDir, preserve, render);
    }
  }
}
