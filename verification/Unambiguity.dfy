/** Sentences are self-delimiting: a byte stream starts with at most one of them, and none is a prefix of another. */
module Unambiguity {
  import opened Prelude
  import opened Numerals
  import opened FileSystem
  import opened Stream
  import opened Receiver
  import opened Grammar
  import opened Acceptance
  import opened Soundness

  lemma FieldIsUnique(a: Bytes, delimiter: Byte, rest: Bytes, a': Bytes, rest': Bytes)
    requires delimiter !in a && delimiter !in a'
    requires Field(a, delimiter, rest) == Field(a', delimiter, rest')
    ensures a == a' && rest == rest'
  {
    IndexOfField(a, delimiter, rest);
    IndexOfField(a', delimiter, rest');
    var s := Field(a, delimiter, rest);
    assert a == s[..|a|] && a' == s[..|a|];
    assert rest == s[|a| + 1..] && rest' == s[|a| + 1..];
  }

  lemma TailIsUnique(b: Byte, rest: Bytes, rest': Bytes)
    requires [b] + rest == [b] + rest'
    ensures rest == rest'
  {
    assert rest == ([b] + rest)[1..];
  }

  lemma StampIsUnique(s: Stamp, rest: Bytes, s': Stamp, rest': Bytes)
    requires GoodStamp(s) && GoodStamp(s') && ShowStamp(s, rest) == ShowStamp(s', rest')
    ensures s == s' && rest == rest'
  {
    NumeralsAreSolid(s.mtime, 10);
    NumeralsAreSolid(s'.mtime, 10);
    NumeralsAreSolid(s.atime, 10);
    NumeralsAreSolid(s'.atime, 10);
    var f4, f4' := Field(s.tail, NEWLINE, rest), Field(s'.tail, NEWLINE, rest');
    var f3, f3' := Field(s.atime, SPACE, f4), Field(s'.atime, SPACE, f4');
    var f2, f2' := Field(s.gap, SPACE, f3), Field(s'.gap, SPACE, f3');
    TailIsUnique(T_RECORD, Field(s.mtime, SPACE, f2), Field(s'.mtime, SPACE, f2'));
    FieldIsUnique(s.mtime, SPACE, f2, s'.mtime, f2');
    FieldIsUnique(s.gap, SPACE, f3, s'.gap, f3');
    FieldIsUnique(s.atime, SPACE, f4, s'.atime, f4');
    FieldIsUnique(s.tail, NEWLINE, rest, s'.tail, rest');
  }

  lemma HeadIsUnique(r: Record, rest: Bytes, r': Record, rest': Bytes, preserve: bool)
    requires GoodRecord(r, preserve) && GoodRecord(r', preserve) && ShowHead(r, rest) == ShowHead(r', rest')
    ensures Kind(r) == Kind(r') && r.mode == r'.mode && r.name == r'.name && rest == rest'
    ensures r.FileRecord? ==> r.size == r'.size
    ensures r.DirRecord? ==> r.length == r'.length
  {
    assert Kind(r) == ShowHead(r, rest)[0] == ShowHead(r', rest')[0] == Kind(r');
    var m, m' := if r.FileRecord? then r.size else r.length, if r'.FileRecord? then r'.size else r'.length;
    if r.FileRecord? {
      NumeralsAreSolid(m, 10);
      NumeralsAreSolid(m', 10);
    }
    NumeralsAreSolid(r.mode, 8);
    NumeralsAreSolid(r'.mode, 8);
    var f3, f3' := Field(r.name, NEWLINE, rest), Field(r'.name, NEWLINE, rest');
    var f2, f2' := Field(m, SPACE, f3), Field(m', SPACE, f3');
    TailIsUnique(Kind(r), Field(r.mode, SPACE, f2), Field(r'.mode, SPACE, f2'));
    FieldIsUnique(r.mode, SPACE, f2, r'.mode, f2');
    FieldIsUnique(m, SPACE, f3, m', f3');
    FieldIsUnique(r.name, NEWLINE, rest, r'.name, rest');
  }

  lemma BodyIsUnique(content: Bytes, c: Closing, rest: Bytes, content': Bytes, c': Closing, rest': Bytes)
    requires |content| == |content'|
    requires c.Warned? ==> NEWLINE !in c.message
    requires c'.Warned? ==> NEWLINE !in c'.message
    requires content + ShowClosing(c, rest) == content' + ShowClosing(c', rest')
    ensures content == content' && c == c' && rest == rest'
  {
    var body := content + ShowClosing(c, rest);
    assert content == body[..|content|] && content' == body[..|content|];
    assert ShowClosing(c, rest) == body[|content|..] && ShowClosing(c', rest') == body[|content|..];
    assert body[|content|] == ShowClosing(c, rest)[0] == ShowClosing(c', rest')[0];
    match c {
      case Accepted =>
        TailIsUnique(0, rest, rest');
      case Warned(message) =>
        TailIsUnique(1, Field(message, NEWLINE, rest), Field(c'.message, NEWLINE, rest'));
        FieldIsUnique(message, NEWLINE, rest, c'.message, rest');
    }
  }

  /** A stream starts with at most one record. */
  lemma {:induction false} RecordIsUnique(r: Record, rest: Bytes, r': Record, rest': Bytes, preserve: bool)
    requires GoodRecord(r, preserve) && GoodRecord(r', preserve)
    requires ShowRecord(r, rest) == ShowRecord(r', rest')
    ensures r == r' && rest == rest'
    decreases r, 1
  {
    hide ShowHead, GoodEntries, ShowEntries;
    var end, end' := [E_RECORD] + ([NEWLINE] + rest), [E_RECORD] + ([NEWLINE] + rest');
    var body := match r
                case FileRecord(_, _, _, content, closing) => content + ShowClosing(closing, rest)
                case DirRecord(_, _, _, entries) => ShowEntries(entries, end);
    var body' := match r'
                 case FileRecord(_, _, _, content, closing) => content + ShowClosing(closing, rest')
                 case DirRecord(_, _, _, entries) => ShowEntries(entries, end');
    HeadIsUnique(r, body, r', body', preserve);
    if r.FileRecord? {
      BodyIsUnique(r.content, r.closing, rest, r'.content, r'.closing, rest');
    } else {
      EntriesAreUnique(r.entries, rest, r'.entries, rest', preserve);
    }
  }

  lemma {:induction false} EntryIsUnique(e: Entry, rest: Bytes, e': Entry, rest': Bytes, preserve: bool)
    requires GoodEntry(e, preserve, preserve) && GoodEntry(e', preserve, preserve)
    requires ShowEntry(e, rest) == ShowEntry(e', rest')
    ensures e == e' && rest == rest'
    decreases e, 2
  {
    hide GoodRecord;
    assert e.stamp.Some? == (ShowEntry(e, rest)[0] == T_RECORD);
    assert e'.stamp.Some? == (ShowEntry(e', rest')[0] == T_RECORD);
    if e.stamp.Some? {
      StampIsUnique(e.stamp.value, ShowRecord(e.record, rest), e'.stamp.value, ShowRecord(e'.record, rest'));
    }
    RecordIsUnique(e.record, rest, e'.record, rest', preserve);
  }

  lemma EndIsMarked(entries: seq<Entry>, end: Bytes)
    requires end != [] && end[0] == E_RECORD
    ensures ShowEntries(entries, end) != [] && (ShowEntries(entries, end)[0] == E_RECORD <==> entries == [])
  {
    if entries != [] {
      var e := entries[0];
      assert ShowRecord(e.record, ShowEntries(entries[1..], end))[0] == Kind(e.record);
    }
  }

  lemma {:induction false} EntriesAreUnique(
    entries: seq<Entry>, rest: Bytes, entries': seq<Entry>, rest': Bytes, preserve: bool)
    requires GoodEntries(entries, preserve, preserve) && GoodEntries(entries', preserve, preserve)
    requires ShowEntries(entries, [E_RECORD] + ([NEWLINE] + rest))
          == ShowEntries(entries', [E_RECORD] + ([NEWLINE] + rest'))
    ensures entries == entries' && rest == rest'
    decreases entries, 0
  {
    hide GoodEntry;
    var end, end' := [E_RECORD] + ([NEWLINE] + rest), [E_RECORD] + ([NEWLINE] + rest');
    EndIsMarked(entries, end);
    EndIsMarked(entries', end');
    if entries == [] {
      TailIsUnique(E_RECORD, [NEWLINE] + rest, [NEWLINE] + rest');
      TailIsUnique(NEWLINE, rest, rest');
    } else {
      EntryIsUnique(entries[0], ShowEntries(entries[1..], end),
                    entries'[0], ShowEntries(entries'[1..], end'), preserve);
      EntriesAreUnique(entries[1..], rest, entries'[1..], rest', preserve);
      assert entries == [entries[0]] + entries[1..] && entries' == [entries'[0]] + entries'[1..];
    }
  }

  // ---------- appending ----------

  lemma FieldAppend(text: Bytes, delimiter: Byte, rest: Bytes, more: Bytes)
    ensures Field(text, delimiter, rest) + more == Field(text, delimiter, rest + more)
  {
  }

  lemma HeadAppend(r: Record, rest: Bytes, more: Bytes)
    ensures ShowHead(r, rest) + more == ShowHead(r, rest + more)
  {
    hide Field;
    var m := if r.FileRecord? then r.size else r.length;
    FieldAppend(r.name, NEWLINE, rest, more);
    FieldAppend(m, SPACE, Field(r.name, NEWLINE, rest), more);
    FieldAppend(r.mode, SPACE, Field(m, SPACE, Field(r.name, NEWLINE, rest)), more);
    Shift([Kind(r)], Field(r.mode, SPACE, Field(m, SPACE, Field(r.name, NEWLINE, rest))), more);
  }

  lemma Shift(a: Bytes, b: Bytes, c: Bytes)
    ensures a + b + c == a + (b + c)
  {
  }

  lemma StampAppend(s: Stamp, rest: Bytes, more: Bytes)
    ensures ShowStamp(s, rest) + more == ShowStamp(s, rest + more)
  {
    hide Field;
    var f4 := Field(s.tail, NEWLINE, rest);
    var f3 := Field(s.atime, SPACE, f4);
    var f2 := Field(s.gap, SPACE, f3);
    FieldAppend(s.tail, NEWLINE, rest, more);
    FieldAppend(s.atime, SPACE, f4, more);
    FieldAppend(s.gap, SPACE, f3, more);
    FieldAppend(s.mtime, SPACE, f2, more);
    Shift([T_RECORD], Field(s.mtime, SPACE, f2), more);
  }

  lemma {:induction false} RecordAppend(r: Record, rest: Bytes, more: Bytes)
    ensures ShowRecord(r, rest) + more == ShowRecord(r, rest + more)
    decreases r, 1
  {
    hide ShowHead;
    match r {
      case FileRecord(_, _, _, content, closing) =>
        if closing.Warned? {
          FieldAppend(closing.message, NEWLINE, rest, more);
        }
        assert ShowClosing(closing, rest) + more == ShowClosing(closing, rest + more);
        HeadAppend(r, content + ShowClosing(closing, rest), more);
        Shift(content, ShowClosing(closing, rest), more);
      case DirRecord(_, _, _, entries) =>
        var end := [E_RECORD] + ([NEWLINE] + rest);
        HeadAppend(r, ShowEntries(entries, end), more);
        EntriesAppend(entries, end, more);
        assert end + more == [E_RECORD] + ([NEWLINE] + (rest + more));
    }
  }

  lemma {:induction false} EntryAppend(e: Entry, rest: Bytes, more: Bytes)
    ensures ShowEntry(e, rest) + more == ShowEntry(e, rest + more)
    decreases e, 2
  {
    RecordAppend(e.record, rest, more);
    if e.stamp.Some? {
      StampAppend(e.stamp.value, ShowRecord(e.record, rest), more);
    }
  }

  lemma {:induction false} EntriesAppend(entries: seq<Entry>, rest: Bytes, more: Bytes)
    ensures ShowEntries(entries, rest) + more == ShowEntries(entries, rest + more)
    decreases entries, 0
  {
    if entries != [] {
      EntryAppend(entries[0], ShowEntries(entries[1..], rest), more);
      EntriesAppend(entries[1..], rest, more);
    }
  }

  // ---------- the receiver and the grammar ----------

  ghost predicate Denotes(w: World, path: Path, times: Option<Times>, preserve: bool, r: Record, rest: Bytes)
  {
    && r.DirRecord? && GoodRecord(r, preserve) && w.input == ShowRecord(r, rest)
    && StoreRecord(w.disk, path, true, times, r, preserve).Some?
  }

  /** ReceiveDirectory succeeds exactly on the sentences the disk allows, and then does exactly what they mean. */
  lemma ReceivesExactlySentences(w: World, path: Path, times: Option<Times>, preserve: bool)
    ensures ReceiveDirectory(w, path, times, preserve).Done?
       <==> exists r, rest :: Denotes(w, path, times, preserve, r, rest)
    ensures forall r, rest :: Denotes(w, path, times, preserve, r, rest) ==>
              (ReceiveDirectory(w, path, times, preserve)
               == Done(World(rest, HeardRecord(r, w.log),
                             StoreRecord(w.disk, path, true, times, r, preserve).value), ()))
  {
    hide ReceiveDirectory;
    var result := ReceiveDirectory(w, path, times, preserve);
    if result.Done? {
      var r := DirectoryWasReceived(w, path, true, times, preserve);
      assert Denotes(w, path, times, preserve, r, result.w.input);
    }
    forall r, rest | Denotes(w, path, times, preserve, r, rest)
      ensures result
           == Done(World(rest, HeardRecord(r, w.log), StoreRecord(w.disk, path, true, times, r, preserve).value), ())
    {
      DirectoryIsReceived(w, r, path, times, preserve, rest);
    }
  }

  /** No strict prefix of a sentence is accepted, on any disk. */
  lemma StrictPrefixesAreRefused(r: Record, more: Bytes, w: World, path: Path, times: Option<Times>, preserve: bool)
    requires GoodRecord(r, preserve) && more != [] && w.input + more == ShowRecord(r, [])
    ensures ReceiveDirectory(w, path, times, preserve).Failed?
  {
    hide ReceiveDirectory, GoodRecord, ShowRecord;
    var result := ReceiveDirectory(w, path, times, preserve);
    if result.Done? {
      var r' := DirectoryWasReceived(w, path, true, times, preserve);
      RecordAppend(r', result.w.input, more);
      RecordIsUnique(r, [], r', result.w.input + more, preserve);
    }
  }
}
