/** From tree to tree: what the sender writes of a sound source, the receiver turns back into the same tree. */
module RoundTrip {
  import opened Prelude
  import opened Numerals
  import opened FileSystem
  import opened Stream
  import opened Receiver
  import opened Sender
  import opened Grammar
  import opened Acceptance
  import opened Transmission
  import opened Placement
  import opened Soundness
  import opened Unambiguity

  predicate GoodTimes(info: Info)
  {
    0 <= info.mtime < TWO_63 && 0 <= info.atime < TWO_63
  }

  /** A tree with nothing wrong in it: readable, well named, and with times a time record can carry if it must. */
  predicate Sendable(node: Source, preserve: bool)
    decreases node, 1
  {
    && (node.RegularFile? || node.Directory?)
    && GoodName(node.info.name) && (preserve ==> GoodTimes(node.info))
    && (node.RegularFile? ==> node.info.size <= |node.content| && node.info.size < TWO_63)
    && (node.Directory? ==> SendableAll(node.entries, preserve))
  }

  predicate SendableAll(nodes: seq<Source>, preserve: bool)
    decreases nodes, 0
  {
    nodes != [] ==>
      && Sendable(nodes[0], preserve) && SendableAll(nodes[1..], preserve)
      && forall i | 1 <= i < |nodes| :: NameOf(nodes[i]) != NameOf(nodes[0])
  }

  function NameOf(node: Source): Name
  {
    if node.RegularFile? || node.Directory? then node.info.name else []
  }

  function NamesOf(nodes: seq<Source>): set<Name>
  {
    set i | 0 <= i < |nodes| :: NameOf(nodes[i])
  }

  // ---------- the sentence a tree is sent as ----------

  function StampOf(info: Info): Stamp
  {
    Stamp(Decimal(info.mtime), [ZERO], Decimal(info.atime), [ZERO])
  }

  function EntryOf(node: Source, preserve: bool): Entry
    requires Sendable(node, preserve)
    decreases node, 1
  {
    var mode := Octal4(node.info.mode % 4096);
    Entry(if preserve then Some(StampOf(node.info)) else None,
          match node
          case RegularFile(info, content) =>
            FileRecord(mode, Decimal(info.size), info.name, Available(info, content), Accepted)
          case Directory(info, entries) => DirRecord(mode, [ZERO], info.name, EntriesOf(entries, preserve)))
  }

  function EntriesOf(nodes: seq<Source>, preserve: bool): (entries: seq<Entry>)
    requires SendableAll(nodes, preserve)
    ensures |entries| == |nodes| && forall i :: 0 <= i < |nodes| ==> entries[i].record.name == NameOf(nodes[i])
    decreases nodes, 0
  {
    if nodes == [] then [] else [EntryOf(nodes[0], preserve)] + EntriesOf(nodes[1..], preserve)
  }

  lemma SameNames(nodes: seq<Source>, preserve: bool)
    requires SendableAll(nodes, preserve)
    ensures Names(EntriesOf(nodes, preserve)) == NamesOf(nodes)
  {
    var entries := EntriesOf(nodes, preserve);
    assert forall i :: 0 <= i < |nodes| ==> entries[i].record.name == NameOf(nodes[i]);
  }

  lemma StampIsGood(info: Info)
    requires GoodTimes(info)
    ensures GoodStamp(StampOf(info)) && TimesOf(Some(StampOf(info))) == Some(Times(info.mtime, info.atime))
  {
    TimeTextRoundTrip(info.mtime);
    TimeTextRoundTrip(info.atime);
  }

  lemma {:induction false} EntryIsGood(node: Source, preserve: bool)
    requires Sendable(node, preserve)
    ensures GoodEntry(EntryOf(node, preserve), preserve, preserve) && OrderlyEntry(EntryOf(node, preserve))
    decreases node, 1
  {
    hide ParseUint, ParseInt, Octal4, Decimal;
    ModeTextRoundTrip(node.info.mode % 4096);
    if preserve {
      StampIsGood(node.info);
    }
    match node {
      case RegularFile(info, content) =>
        SizeTextRoundTrip(info.size);
      case Directory(_, entries) =>
        EntriesAreGood(entries, preserve);
    }
  }

  lemma {:induction false} EntriesAreGood(nodes: seq<Source>, preserve: bool)
    requires SendableAll(nodes, preserve)
    ensures GoodEntries(EntriesOf(nodes, preserve), preserve, preserve) && OrderlyAll(EntriesOf(nodes, preserve))
    decreases nodes, 0
  {
    hide GoodEntry, OrderlyEntry;
    if nodes != [] {
      EntryIsGood(nodes[0], preserve);
      EntriesAreGood(nodes[1..], preserve);
      var entries := EntriesOf(nodes, preserve);
      assert entries[1..] == EntriesOf(nodes[1..], preserve);
    }
  }

  lemma LineIsHead(node: Source, preserve: bool, rest: Bytes)
    requires Sendable(node, preserve)
    ensures (if node.RegularFile? then FileLine(node.info) else DirLine(node.info)) + rest
         == ShowHead(EntryOf(node, preserve).record, rest)
  {
    var mode := Octal4(node.info.mode % 4096);
    match node {
      case RegularFile(info, content) =>
        var r := FileRecord(mode, Decimal(info.size), info.name, Available(info, content), Accepted);
        assert FileLine(info) + rest == ShowHead(r, rest);
      case Directory(info, entries) =>
        var r := DirRecord(mode, [ZERO], info.name, EntriesOf(entries, preserve));
        assert DirLine(info) + rest == ShowHead(r, rest);
    }
  }

  /** A sound tree's transcript is one sentence of the receiver's grammar. */
  lemma {:induction false} TranscriptIsSentence(node: Source, preserve: bool, render: Error -> Bytes, rest: Bytes)
    requires Sendable(node, preserve)
    ensures Transcript(node, preserve, render, rest) == ShowEntry(EntryOf(node, preserve), rest)
    decreases node, 1
  {
    hide FileLine, DirLine, TimesLine, ShowHead, ShowStamp, StampOf, Octal4, Decimal, Available;
    var e := EntryOf(node, preserve);
    match node {
      case RegularFile(info, content) =>
        LineIsHead(node, preserve, Available(info, content) + ([0] + rest));
      case Directory(info, entries) =>
        assert END_LINE + rest == [E_RECORD] + ([NEWLINE] + rest);
        TranscriptsAreSentences(entries, preserve, render, END_LINE + rest);
        LineIsHead(node, preserve, ShowEntries(EntriesOf(entries, preserve), END_LINE + rest));
    }
    StampIsLine(node.info, ShowRecord(e.record, rest));
  }

  lemma StampIsLine(info: Info, rest: Bytes)
    ensures TimesLine(info) + rest == ShowStamp(StampOf(info), rest)
  {
  }

  lemma {:induction false} TranscriptsAreSentences(
    nodes: seq<Source>, preserve: bool, render: Error -> Bytes, rest: Bytes)
    requires SendableAll(nodes, preserve)
    ensures Transcripts(nodes, preserve, render, rest) == ShowEntries(EntriesOf(nodes, preserve), rest)
    decreases nodes, 0
  {
    if nodes != [] {
      TranscriptIsSentence(nodes[0], preserve, render, Transcripts(nodes[1..], preserve, render, rest));
      TranscriptsAreSentences(nodes[1..], preserve, render, rest);
      assert EntriesOf(nodes, preserve)[1..] == EntriesOf(nodes[1..], preserve);
    }
  }

  // ---------- the tree that arrives ----------

  /** The tree is at `p`: names, nesting, contents, permissions, and whole-second times if they were preserved. */
  ghost predicate Restored(d: Disk, p: Path, node: Source, preserve: bool)
    requires Sendable(node, preserve)
    decreases node, 1
  {
    && p in d.nodes
    && (preserve ==> d.nodes[p].mtime == node.info.mtime && d.nodes[p].atime == node.info.atime)
    && match node
       case RegularFile(info, content) =>
         && d.nodes[p].FileNode? && d.nodes[p].content == content[..info.size]
         && d.nodes[p].mode == (if preserve then info.mode % 512 else AndNot(info.mode % 512, d.umask))
       case Directory(info, entries) =>
         && d.nodes[p].DirNode? && d.nodes[p].mode == AndNot(info.mode % 512, d.umask)
         && RestoredAll(d, p, entries, preserve)
         && forall q | q in d.nodes && |q| > |p| && q[..|p|] == p :: q[|p|] in NamesOf(entries)
  }

  ghost predicate RestoredAll(d: Disk, dir: Path, nodes: seq<Source>, preserve: bool)
    requires SendableAll(nodes, preserve)
    decreases nodes, 0
  {
    nodes != [] ==>
      && Restored(d, dir + [NameOf(nodes[0])], nodes[0], preserve)
      && RestoredAll(d, dir, nodes[1..], preserve)
  }

  /** What is left of a mode after Mode() & 07777, the header, and the system call: the permission bits. */
  lemma PermissionBits(mode: nat)
    ensures SystemMode(mode % 4096) == mode % 512
    ensures ParseUint(Octal4(mode % 4096), 8, TWO_32) == Some(mode % 4096)
  {
    ModeTextRoundTrip(mode % 4096);
    hide Octal4, ParseUint, SystemMode;
    PlainMode(mode % 4096);
    LowBits(mode);
  }

  lemma LowBits(m: nat)
    ensures m % 4096 % 512 == m % 512
  {
    var (q, r) := (m / 4096, m % 4096);
    SameRemainder(m, 8 * q + r / 512, r % 512);
  }

  lemma SameRemainder(m: nat, a: nat, b: nat)
    requires m == 512 * a + b && b < 512
    ensures m % 512 == b
  {
  }

  /** Twelve bits hold none of the bits where Go keeps setuid, setgid and sticky. */
  lemma PlainMode(m: nat)
    requires m < 4096
    ensures SystemMode(m) == m % 512
  {
    assert m / 0x80_0000 == 0 && m / 0x40_0000 == 0 && m / 0x10_0000 == 0;
  }

  /** The mode and the times an entry announces are the node's own. */
  lemma AnnouncesNode(node: Source, preserve: bool)
    requires Sendable(node, preserve)
    ensures var e := EntryOf(node, preserve);
            && SystemMode(ModeOf(e.record)) == node.info.mode % 512
            && TimesOf(e.stamp) == if preserve then Some(Times(node.info.mtime, node.info.atime)) else None
  {
    hide ParseUint, Octal4, Decimal, SystemMode;
    PermissionBits(node.info.mode);
    if preserve {
      StampIsGood(node.info);
    }
  }

  lemma {:induction false} PlacedIsRestored(d: Disk, p: Path, node: Source, preserve: bool)
    requires Sendable(node, preserve) && Placed(d, p, EntryOf(node, preserve), preserve, true)
    ensures Restored(d, p, node, preserve)
    decreases node, 1
  {
    hide Octal4, Decimal, SystemMode, AndNot, StampOf, EntriesOf, PlacedAll, RestoredAll, SendableAll, Names, NamesOf,
         ModeOf,
         TimesOf;
    AnnouncesNode(node, preserve);
    if node.Directory? {
      PlacedAreRestored(d, p, node.entries, preserve);
      SameNames(node.entries, preserve);
    }
  }

  lemma {:induction false} PlacedAreRestored(d: Disk, dir: Path, nodes: seq<Source>, preserve: bool)
    requires SendableAll(nodes, preserve) && PlacedAll(d, dir, EntriesOf(nodes, preserve), preserve, true)
    ensures RestoredAll(d, dir, nodes, preserve)
    decreases nodes, 0
  {
    if nodes != [] {
      assert EntriesOf(nodes, preserve)[1..] == EntriesOf(nodes[1..], preserve);
      PlacedIsRestored(d, dir + [NameOf(nodes[0])], nodes[0], preserve);
      PlacedAreRestored(d, dir, nodes[1..], preserve);
    }
  }

  /** Nothing is in the way of the trees in `dir`. */
  ghost predicate Room(d: Disk, dir: Path, nodes: seq<Source>)
  {
    Open(d, dir) && forall i | 0 <= i < |nodes| :: Clear(d, dir, NameOf(nodes[i]))
  }

  /**
   Whole-tree round trip: in an existing directory without that name, the transcript of a sound tree is
   received in full, nothing after it is touched, and the tree is there; outside it only the directory's
   modification time changed.
   */
  lemma TreeRoundTrip(w: World, node: Source, dir: Path, preserve: bool, render: Error -> Bytes, rest: Bytes)
    requires Sendable(node, preserve) && Room(w.disk, dir, [node])
    requires w.input == Transcript(node, preserve, render, rest)
    ensures var next := NextMessage(w, preserve);
            && next.Done? && next.value.Message?
            && var r := ReceiveMessage(next.w, next.value, dir, true, preserve);
               && r.Done? && r.w.input == rest
               && Restored(r.w.disk, dir + [NameOf(node)], node, preserve)
               && Confined(w.disk, r.w.disk, dir, {NameOf(node)})
  {
    hide NextMessage, ReceiveMessage, GoodEntry, StoreEntry, Transcript, ShowEntry, Placed, Confined, Restored;
    var e := EntryOf(node, preserve);
    assert Absent(w.disk, dir, NameOf([node][0]));
    TranscriptIsSentence(node, preserve, render, rest);
    EntryIsGood(node, preserve);
    EntryIsAllowed(w.disk, dir, e, preserve);
    EntryIsReceived(w, e, dir, true, preserve, preserve, rest);
    var d' := StoreEntry(w.disk, dir, true, e, preserve).value;
    assert dir[..|dir|] == dir;
    EntryIsPlaced(w.disk, d', dir, e, preserve, true);
    PlacedIsRestored(d', dir + [NameOf(node)], node, preserve);
  }

  /** The same for the sources of a whole command, received in target mode up to the end of input. */
  lemma CommandRoundTrip(
    w: World, nodes: seq<Source>, target: Path, preserve: bool, render: Error -> Bytes)
    requires SendableAll(nodes, preserve) && Room(w.disk, target, nodes)
    requires w.input == Transcripts(nodes, preserve, render, [])
    ensures var r := TargetMessages(w, target, true, preserve, render);
            && r.Done? && r.w.input == []
            && r.w.log == HeardEntries(EntriesOf(nodes, preserve), w.log) + [Eof]
            && RestoredAll(r.w.disk, target, nodes, preserve)
            && Confined(w.disk, r.w.disk, target, NamesOf(nodes))
  {
    hide GoodEntries, StoreEntries, Transcripts, ShowEntries, PlacedAll, Confined, RestoredAll, TargetMessages;
    var entries := EntriesOf(nodes, preserve);
    TranscriptsAreSentences(nodes, preserve, render, []);
    EntriesAreGood(nodes, preserve);
    TopEntriesAreGood(entries, preserve);
    forall name | name in Names(entries) ensures Absent(w.disk, target, name) {
      var i :| 0 <= i < |entries| && entries[i].record.name == name;
      assert Absent(w.disk, target, NameOf(nodes[i]));
    }
    EntriesAreAllowed(w.disk, target, entries, preserve);
    TransmissionIsReceived(w, entries, None, target, true, preserve, render);
    var d' := StoreEntries(w.disk, target, true, entries, preserve).value;
    assert target[..|target|] == target;
    EntriesArePlaced(w.disk, d', target, entries, preserve, true);
    PlacedAreRestored(d', target, nodes, preserve);
    SameNames(nodes, preserve);
  }

  lemma {:induction false} TopEntriesAreGood(entries: seq<Entry>, preserve: bool)
    requires GoodEntries(entries, preserve, preserve)
    ensures GoodEntries(entries, true, preserve)
  {
    if entries != [] {
      TopEntriesAreGood(entries[1..], preserve);
    }
  }

  /** A time record comes back exactly when neither time is negative; otherwise the receiver refuses it. */
  lemma TimeRecordRoundTrip(w: World, info: Info, rest: Bytes)
    requires -TWO_63 <= info.mtime < TWO_63 && -TWO_63 <= info.atime < TWO_63
    requires w.input == TimesLine(info) + rest
    ensures ReceiveTimes(w).Done? <==> info.mtime >= 0 && info.atime >= 0
    ensures ReceiveTimes(w).Done? ==>
              ReceiveTimes(w).value == Times(info.mtime, info.atime) && ReceiveTimes(w).w.input == rest
  {
    hide ReceiveTimes, ParseUint, Decimal;
    StampIsLine(info, rest);
    if GoodTimes(info) {
      StampIsGood(info);
      StampIsRead(w, StampOf(info), rest);
    } else if ReceiveTimes(w).Done? {
      var s := StampWasRead(w);
      DecimalIsSolid(info.mtime);
      DecimalIsSolid(info.atime);
      SameFields(info, rest, s, ReceiveTimes(w).w.input);
      TimeTextRoundTrip(info.mtime);
      TimeTextRoundTrip(info.atime);
    }
  }

  lemma DecimalIsSolid(n: int)
    requires -TWO_63 <= n < TWO_63
    ensures SPACE !in Decimal(n)
  {
    SizeTextRoundTrip(n);
    NumeralsAreSolid(Decimal(n), 10);
  }

  lemma SameFields(info: Info, rest: Bytes, s: Stamp, rest': Bytes)
    requires SPACE !in Decimal(info.mtime) && SPACE !in Decimal(info.atime)
    requires GoodStamp(s) && ShowStamp(StampOf(info), rest) == ShowStamp(s, rest')
    ensures s.mtime == Decimal(info.mtime) && s.atime == Decimal(info.atime)
  {
    hide Decimal, Field;
    NumeralsAreSolid(s.mtime, 10);
    NumeralsAreSolid(s.atime, 10);
    var t := StampOf(info);
    var f4, f4' := Field(t.tail, NEWLINE, rest), Field(s.tail, NEWLINE, rest');
    var f3, f3' := Field(t.atime, SPACE, f4), Field(s.atime, SPACE, f4');
    var f2, f2' := Field(t.gap, SPACE, f3), Field(s.gap, SPACE, f3');
    TailIsUnique(T_RECORD, Field(t.mtime, SPACE, f2), Field(s.mtime, SPACE, f2'));
    FieldIsUnique(t.mtime, SPACE, f2, s.mtime, f2');
    FieldIsUnique(t.gap, SPACE, f3, s.gap, f3');
    FieldIsUnique(t.atime, SPACE, f4, s.atime, f4');
  }
}
