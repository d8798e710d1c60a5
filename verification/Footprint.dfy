/** Where a sentence writes, whatever names it carries. */
module Footprint {
  import opened Prelude
  import opened FileSystem
  import opened Stream
  import opened Receiver
  import opened Grammar
  import opened Acceptance
  import opened Soundness
  import opened Placement

  /** The paths a record received into the directory `dir` is stored at. */
  function Places(dir: Path, r: Record): set<Path>
    decreases r, 1
  {
    var p := Join(dir, r.name);
    {p} + if r.DirRecord? then PlacesOfAll(p, r.entries) else {}
  }

  function PlacesOfEntry(dir: Path, e: Entry): set<Path>
    decreases e, 2
  {
    Places(dir, e.record)
  }

  function PlacesOfAll(dir: Path, entries: seq<Entry>): set<Path>
    decreases entries, 0
  {
    if entries == [] then {} else PlacesOfEntry(dir, entries[0]) + PlacesOfAll(dir, entries[1..])
  }

  /** At the top a file may become the target itself, and so may a directory that does not exist yet. */
  function PlacesAt(d: Disk, path: Path, pathIsDir: bool, r: Record): set<Path>
  {
    match r
    case FileRecord(_, _, name, _, _) => {if pathIsDir then Join(path, name) else path}
    case DirRecord(_, _, name, entries) =>
      var target := TargetDirectory(d, path, name);
      {target} + PlacesOfAll(target, entries)
  }

  predicate ParentOfOne(q: Path, places: set<Path>)
  {
    exists p :: p in places && p != [] && Parent(p) == q
  }

  predicate OnlyStamped(d: Disk, d': Disk, q: Path)
  {
    q in d.nodes && q in d'.nodes && d'.nodes[q] == d.nodes[q].(mtime := d'.nodes[q].mtime)
  }

  /** All that changed is at one of the places, but for the times of their parents; and all the places are there. */
  ghost predicate WritesJust(d: Disk, d': Disk, places: set<Path>)
  {
    && (forall q :: q in places || SameAt(d, d', q) || (ParentOfOne(q, places) && OnlyStamped(d, d', q)))
    && (forall q :: q in d.nodes || q in places ==> q in d'.nodes)
    && (forall q :: IsDir(d, q) ==> IsDir(d', q))
  }

  lemma WritesBoth(d: Disk, d1: Disk, d2: Disk, a: set<Path>, b: set<Path>)
    requires WritesJust(d, d1, a) && WritesJust(d1, d2, b)
    ensures WritesJust(d, d2, a + b)
  {
    hide SameAt, OnlyStamped, ParentOfOne;
    forall q ensures q in a + b || SameAt(d, d2, q) || (ParentOfOne(q, a + b) && OnlyStamped(d, d2, q)) {
      ParentsOfBoth(q, a, b);
      SameTwice(d, d1, d2, q);
    }
  }

  lemma ParentsOfBoth(q: Path, a: set<Path>, b: set<Path>)
    ensures ParentOfOne(q, a) || ParentOfOne(q, b) ==> ParentOfOne(q, a + b)
  {
    if ParentOfOne(q, a) {
      var p :| p in a && p != [] && Parent(p) == q;
      assert p in a + b;
    } else if ParentOfOne(q, b) {
      var p :| p in b && p != [] && Parent(p) == q;
      assert p in a + b;
    }
  }

  lemma SameTwice(d: Disk, d1: Disk, d2: Disk, q: Path)
    ensures SameAt(d, d1, q) && SameAt(d1, d2, q) ==> SameAt(d, d2, q)
    ensures (SameAt(d, d1, q) || OnlyStamped(d, d1, q)) && OnlyStamped(d1, d2, q) ==> OnlyStamped(d, d2, q)
    ensures OnlyStamped(d, d1, q) && (SameAt(d1, d2, q) || OnlyStamped(d1, d2, q)) ==> OnlyStamped(d, d2, q)
  {
  }

  lemma LinkWrites(d: Disk, p: Path, node: Node)
    requires p != [] && p !in d.nodes && IsDir(d, Parent(p))
    ensures WritesJust(d, Link(d, p, node), {p})
  {
    assert p in {p};
    assert ParentOfOne(Parent(p), {p});
  }

  lemma FileIsCreated(d: Disk, p: Path, mode: nat)
    requires Create(d, p, mode).Ok?
    ensures WritesJust(d, Create(d, p, mode).value, {p}) && IsFile(Create(d, p, mode).value, p)
  {
    hide AndNot, SystemMode;
    if p !in d.nodes {
      LinkWrites(d, p, FileNode([], AndNot(SystemMode(mode), d.umask), d.now, d.now));
    }
  }

  /** Changing a file that is there. */
  lemma FileIsChanged(d: Disk, d': Disk, p: Path)
    requires IsFile(d, p) && IsFile(d', p) && d'.nodes == d.nodes[p := d'.nodes[p]]
    ensures WritesJust(d, d', {p})
  {
  }

  lemma FileIsWritten(d: Disk, p: Path, mode: nat, content: Bytes, times: Option<Times>, preserve: bool)
    requires StoreFileRecord(d, p, mode, content, times, preserve).Some?
    ensures WritesJust(d, StoreFileRecord(d, p, mode, content, times, preserve).value, {p})
  {
    hide AndNot, SystemMode, WritesJust;
    var d1 := Create(d, p, mode).value;
    FileIsCreated(d, p, mode);
    var d2 := StoreFileRecord(d, p, mode, content, times, preserve).value;
    hide Create;
    assert d2.nodes == d1.nodes[p := d2.nodes[p]];
    FileIsChanged(d1, d2, p);
    WritesBoth(d, d1, d2, {p}, {p});
    assert {p} + {p} == {p};
  }

  lemma DirectoryIsMade(d: Disk, p: Path, mode: nat)
    requires MakeDirectory(d, p, mode).Some?
    ensures WritesJust(d, MakeDirectory(d, p, mode).value, {p}) && IsDir(MakeDirectory(d, p, mode).value, p)
  {
    hide AndNot, SystemMode;
    if Stat(d, p) == Err(NotExist) {
      LinkWrites(d, p, DirNode(AndNot(SystemMode(mode) % 1024, d.umask), d.now, d.now));
    }
  }

  lemma TimesAreWritten(d: Disk, p: Path, times: Times)
    requires SetTimes(d, p, times).Some?
    ensures WritesJust(d, SetTimes(d, p, times).value, {p})
  {
  }

  /** A directory that was just opened is there, so what it holds goes below it. */
  lemma {:induction false} DirectoryIsWritten(
    d: Disk, target: Path, mode: nat, entries: seq<Entry>, times: Option<Times>, preserve: bool, d': Disk)
    requires
      var made := MakeDirectory(d, target, mode);
      && made.Some?
      && var stored := StoreEntries(made.value, target, true, entries, preserve);
         && stored.Some?
         && (if times.Some? && preserve then SetTimes(stored.value, target, times.value) else stored) == Some(d')
    ensures WritesJust(d, d', {target} + PlacesOfAll(target, entries))
    decreases entries, 1
  {
    hide WritesJust, MakeDirectory, StoreEntries, SetTimes, PlacesOfAll;
    var d1 := MakeDirectory(d, target, mode).value;
    var d2 := StoreEntries(d1, target, true, entries, preserve).value;
    var places := PlacesOfAll(target, entries);
    DirectoryIsMade(d, target, mode);
    EntriesAreWritten(d1, target, entries, preserve);
    WritesBoth(d, d1, d2, {target}, places);
    if times.Some? && preserve {
      TimesAreWritten(d2, target, times.value);
      WritesBoth(d, d2, d', {target} + places, {target});
      assert {target} + places + {target} == {target} + places;
    }
  }

  lemma {:induction false} EntryIsWritten(d: Disk, dir: Path, e: Entry, preserve: bool)
    requires IsDir(d, dir) && StoreEntry(d, dir, true, e, preserve).Some?
    ensures WritesJust(d, StoreEntry(d, dir, true, e, preserve).value, PlacesOfEntry(dir, e))
    decreases e, 2
  {
    hide WritesJust, Join, StoreFileRecord, MakeDirectory, StoreEntries, SetTimes;
    var r := e.record;
    match r
    case FileRecord(_, _, name, content, _) =>
      assert PlacesOfEntry(dir, e) == {Join(dir, name)};
      FileIsWritten(d, Join(dir, name), ModeOf(r), content, TimesOf(e.stamp), preserve);
    case DirRecord(_, _, name, entries) =>
      assert TargetDirectory(d, dir, name) == Join(dir, name);
      DirectoryIsWritten(d, Join(dir, name), ModeOf(r), entries, TimesOf(e.stamp), preserve,
                         StoreEntry(d, dir, true, e, preserve).value);
  }

  lemma {:induction false} EntriesAreWritten(d: Disk, dir: Path, entries: seq<Entry>, preserve: bool)
    requires IsDir(d, dir) && StoreEntries(d, dir, true, entries, preserve).Some?
    ensures WritesJust(d, StoreEntries(d, dir, true, entries, preserve).value, PlacesOfAll(dir, entries))
    decreases entries, 0
  {
    if entries == [] {
      assert forall q :: SameAt(d, d, q);
    } else {
      hide StoreEntry, PlacesOfEntry;
      var d1 := StoreEntry(d, dir, true, entries[0], preserve).value;
      EntryIsWritten(d, dir, entries[0], preserve);
      assert IsDir(d1, dir);
      EntriesAreWritten(d1, dir, entries[1..], preserve);
      WritesBoth(d, d1, StoreEntries(d, dir, true, entries, preserve).value,
                 PlacesOfEntry(dir, entries[0]), PlacesOfAll(dir, entries[1..]));
    }
  }

  /** The same for a record at the top. */
  lemma RecordIsWritten(d: Disk, path: Path, pathIsDir: bool, times: Option<Times>, r: Record, preserve: bool)
    requires StoreRecord(d, path, pathIsDir, times, r, preserve).Some?
    ensures WritesJust(d, StoreRecord(d, path, pathIsDir, times, r, preserve).value, PlacesAt(d, path, pathIsDir, r))
  {
    hide WritesJust, Join, StoreFileRecord, MakeDirectory, StoreEntries, SetTimes;
    match r
    case FileRecord(_, _, name, content, _) =>
      FileIsWritten(d, if pathIsDir then Join(path, name) else path, ModeOf(r), content, times, preserve);
    case DirRecord(_, _, name, entries) =>
      DirectoryIsWritten(d, TargetDirectory(d, path, name), ModeOf(r), entries, times, preserve,
                         StoreRecord(d, path, pathIsDir, times, r, preserve).value);
  }

  /** Is `q` outside `root`, and not the directory that `root` was made in? */
  predicate Beyond(root: Path, q: Path)
  {
    !(root <= q) && !(root != [] && q == Parent(root))
  }

  lemma ParentStaysInside(root: Path, p: Path)
    requires root <= p && p != []
    ensures !Beyond(root, Parent(p))
  {
    if p != root {
      assert root <= p[..|p| - 1];
    }
  }

  /** Is everything new on `d'` at or below `root`? */
  ghost predicate NewIsBelow(d: Disk, d': Disk, root: Path)
  {
    forall q :: q in d'.nodes && q !in d.nodes ==> root <= q
  }

  ghost predicate FreePlacesAreBelow(d: Disk, places: set<Path>, root: Path)
  {
    forall p :: p in places && p !in d.nodes ==> root <= p
  }

  /** What is new is below `root` exactly when the free places are; if all places are, nothing beyond is touched. */
  ghost predicate StaysBelow(d: Disk, d': Disk, places: set<Path>, root: Path)
  {
    && (NewIsBelow(d, d', root) <==> FreePlacesAreBelow(d, places, root))
    && ((forall p :: p in places ==> root <= p) ==> forall q :: Beyond(root, q) ==> SameAt(d, d', q))
  }

  lemma WritesStayBelow(d: Disk, d': Disk, places: set<Path>, root: Path)
    requires WritesJust(d, d', places)
    ensures StaysBelow(d, d', places, root)
  {
    forall q | q in d'.nodes && q !in d.nodes ensures q in places {
      assert !SameAt(d, d', q) && !OnlyStamped(d, d', q);
    }
    hide SameAt;
    if forall p :: p in places ==> root <= p {
      forall q | Beyond(root, q) ensures SameAt(d, d', q) {
        if ParentOfOne(q, places) {
          var p :| p in places && p != [] && Parent(p) == q;
          ParentStaysInside(root, p);
        }
      }
    }
  }

  /** For every sentence, whatever names it carries. */
  lemma StoredStaysBelow(
    d: Disk, path: Path, pathIsDir: bool, times: Option<Times>, r: Record, preserve: bool, root: Path)
    requires StoreRecord(d, path, pathIsDir, times, r, preserve).Some?
    ensures StaysBelow(d, StoreRecord(d, path, pathIsDir, times, r, preserve).value,
                       PlacesAt(d, path, pathIsDir, r), root)
  {
    hide StoreRecord, PlacesAt, WritesJust, StaysBelow;
    RecordIsWritten(d, path, pathIsDir, times, r, preserve);
    WritesStayBelow(d, StoreRecord(d, path, pathIsDir, times, r, preserve).value,
                    PlacesAt(d, path, pathIsDir, r), root);
  }

  /** For every file or directory that was received, from whatever input. */
  lemma ReceivedStaysBelow(w: World, message: Message, path: Path, pathIsDir: bool, preserve: bool, root: Path)
    returns (r: Record)
    requires message.Message? && ReceiveMessage(w, message, path, pathIsDir, preserve).Done?
    ensures
      var received := ReceiveMessage(w, message, path, pathIsDir, preserve).w;
      && w.input == ShowRecord(r, received.input)
      && StaysBelow(w.disk, received.disk, PlacesAt(w.disk, path, pathIsDir, r), root)
  {
    hide ReceiveMessage, StoreRecord, PlacesAt, ShowRecord, StaysBelow;
    r := RecordWasReceived(w, message, path, pathIsDir, preserve);
    var rest := ReceiveMessage(w, message, path, pathIsDir, preserve).w.input;
    RecordIsReceived(w, r, path, pathIsDir, message.times, preserve, rest);
    StoredStaysBelow(w.disk, path, pathIsDir, message.times, r, preserve, root);
  }

  // Whole transmissions

  /** Each record is placed on the disk its predecessors left. */
  function PlacesOver(d: Disk, path: Path, pathIsDir: bool, entries: seq<Entry>, preserve: bool): set<Path>
    decreases |entries|
  {
    if entries == [] then {} else
      var stored := StoreEntry(d, path, pathIsDir, entries[0], preserve);
      PlacesAt(d, path, pathIsDir, entries[0].record)
      + if stored.Some? then PlacesOver(stored.value, path, pathIsDir, entries[1..], preserve) else {}
  }

  lemma {:induction false} TransmissionIsWritten(
    d: Disk, path: Path, pathIsDir: bool, entries: seq<Entry>, preserve: bool)
    requires StoreEntries(d, path, pathIsDir, entries, preserve).Some?
    ensures WritesJust(d, StoreEntries(d, path, pathIsDir, entries, preserve).value,
                       PlacesOver(d, path, pathIsDir, entries, preserve))
    decreases |entries|
  {
    if entries == [] {
      assert forall q :: SameAt(d, d, q);
    } else {
      hide StoreRecord, PlacesAt, WritesJust;
      var e := entries[0];
      var d1 := StoreEntry(d, path, pathIsDir, e, preserve).value;
      RecordIsWritten(d, path, pathIsDir, TimesOf(e.stamp), e.record, preserve);
      TransmissionIsWritten(d1, path, pathIsDir, entries[1..], preserve);
      WritesBoth(d, d1, StoreEntries(d, path, pathIsDir, entries, preserve).value,
                 PlacesAt(d, path, pathIsDir, e.record), PlacesOver(d1, path, pathIsDir, entries[1..], preserve));
    }
  }

  /** For every input that target mode accepts. */
  lemma TransmissionStaysBelow(
    w: World, target: Path, targetIsDir: bool, preserve: bool, render: Error -> Bytes, root: Path)
    returns (entries: seq<Entry>, lone: Option<Stamp>)
    requires TargetMessages(w, target, targetIsDir, preserve, render).Done?
    ensures w.input == ShowEntries(entries, ShowLone(lone))
    ensures StaysBelow(w.disk, TargetMessages(w, target, targetIsDir, preserve, render).w.disk,
                       PlacesOver(w.disk, target, targetIsDir, entries, preserve), root)
  {
    hide TargetMessages, StoreEntries, PlacesOver, ShowEntries, StaysBelow, WritesJust;
    entries, lone := TransmissionWasReceived(w, target, targetIsDir, preserve, render);
    TransmissionIsReceived(w, entries, lone, target, targetIsDir, preserve, render);
    TransmissionIsWritten(w.disk, target, targetIsDir, entries, preserve);
    WritesStayBelow(w.disk, StoreEntries(w.disk, target, targetIsDir, entries, preserve).value,
                    PlacesOver(w.disk, target, targetIsDir, entries, preserve), root);
  }

  // Names

  /** Going through the components from `depth` levels down, does one never come out above where one began? */
  predicate NeverAbove(depth: nat, parts: seq<Name>)
    decreases |parts|
  {
    if parts == [] then true
    else if parts[0] == [] || parts[0] == [DOT] then NeverAbove(depth, parts[1..])
    else if parts[0] == [DOT, DOT] then depth > 0 && NeverAbove(depth - 1, parts[1..])
    else NeverAbove(depth + 1, parts[1..])
  }

  predicate Inward(name: Name)
  {
    NeverAbove(0, Components(name))
  }

  lemma {:induction false} NeverAboveStays(dir: Path, below: Path, parts: seq<Name>)
    requires NeverAbove(|below|, parts)
    ensures dir <= Resolve(dir + below, parts)
    decreases |parts|
  {
    if parts != [] {
      if parts[0] == [] || parts[0] == [DOT] {
        NeverAboveStays(dir, below, parts[1..]);
      } else if parts[0] == [DOT, DOT] {
        assert (dir + below)[..|dir + below| - 1] == dir + below[..|below| - 1];
        NeverAboveStays(dir, below[..|below| - 1], parts[1..]);
      } else {
        assert dir + below + [parts[0]] == dir + (below + [parts[0]]);
        NeverAboveStays(dir, below + [parts[0]], parts[1..]);
      }
    }
  }

  lemma {:induction false} NothingNewAppears(dir: Path, parts: seq<Name>, odd: Name)
    requires odd !in dir && odd !in parts
    ensures odd !in Resolve(dir, parts)
    decreases |parts|
  {
    if parts != [] {
      if parts[0] == [] || parts[0] == [DOT] {
        NothingNewAppears(dir, parts[1..], odd);
      } else if parts[0] == [DOT, DOT] {
        NothingNewAppears(if dir == [] then [] else dir[..|dir| - 1], parts[1..], odd);
      } else {
        NothingNewAppears(dir + [parts[0]], parts[1..], odd);
      }
    }
  }

  /** Coming out above a directory whose name is not among the components, one never comes back to it. */
  lemma {:induction false} AboveLeaves(odd: Name, below: Path, parts: seq<Name>)
    requires !NeverAbove(|below|, parts) && odd !in below && odd !in parts
    ensures odd !in Resolve([odd] + below, parts)
    decreases |parts|
  {
    if parts[0] == [] || parts[0] == [DOT] {
      AboveLeaves(odd, below, parts[1..]);
    } else if parts[0] == [DOT, DOT] {
      if below == [] {
        assert ([odd] + below)[..|[odd] + below| - 1] == [];
        NothingNewAppears([], parts[1..], odd);
      } else {
        assert ([odd] + below)[..|[odd] + below| - 1] == [odd] + below[..|below| - 1];
        AboveLeaves(odd, below[..|below| - 1], parts[1..]);
      }
    } else {
      assert [odd] + below + [parts[0]] == [odd] + (below + [parts[0]]);
      AboveLeaves(odd, below + [parts[0]], parts[1..]);
    }
  }

  lemma LongerThanAll(parts: seq<Name>) returns (odd: Name)
    ensures forall i :: 0 <= i < |parts| ==> |parts[i]| < |odd|
  {
    if parts == [] {
      odd := [];
    } else {
      var rest := LongerThanAll(parts[1..]);
      odd := if |parts[0]| < |rest| then rest else parts[0] + [DOT];
      assert forall i :: 1 <= i < |parts| ==> parts[i] == parts[1..][i - 1];
    }
  }

  lemma PrefixIsIn(odd: Name, p: Path)
    ensures [odd] <= p ==> odd in p
  {
    if [odd] <= p {
      assert p[0] == odd;
    }
  }

  /** A name leads to or below the directory it is joined to, whichever that is, exactly when it is inward. */
  lemma InwardExactly(name: Name)
    ensures (forall dir :: dir <= Join(dir, name)) <==> Inward(name)
  {
    hide Resolve, Components, NeverAbove;
    var parts := Components(name);
    if Inward(name) {
      forall dir ensures dir <= Join(dir, name) {
        NeverAboveStays(dir, [], parts);
        assert dir + [] == dir;
      }
    } else {
      var odd := LongerThanAll(parts);
      AboveLeaves(odd, [], parts);
      assert [odd] + [] == [odd];
      PrefixIsIn(odd, Join([odd], name));
    }
  }

  predicate InwardRecord(r: Record)
    decreases r, 1
  {
    Inward(r.name) && (r.DirRecord? ==> InwardAll(r.entries))
  }

  predicate InwardEntry(e: Entry)
    decreases e, 2
  {
    InwardRecord(e.record)
  }

  predicate InwardAll(entries: seq<Entry>)
    decreases entries, 0
  {
    entries != [] ==> InwardEntry(entries[0]) && InwardAll(entries[1..])
  }

  lemma {:induction false} InwardEntryStaysBelow(dir: Path, e: Entry, p: Path)
    requires InwardEntry(e) && p in PlacesOfEntry(dir, e)
    ensures dir <= p
    decreases e, 2
  {
    hide Join, Inward;
    InwardExactly(e.record.name);
    if e.record.DirRecord? && p != Join(dir, e.record.name) {
      InwardAllStayBelow(Join(dir, e.record.name), e.record.entries, p);
    }
  }

  lemma {:induction false} InwardAllStayBelow(dir: Path, entries: seq<Entry>, p: Path)
    requires InwardAll(entries) && p in PlacesOfAll(dir, entries)
    ensures dir <= p
    decreases entries, 0
  {
    if p in PlacesOfEntry(dir, entries[0]) {
      InwardEntryStaysBelow(dir, entries[0], p);
    } else {
      InwardAllStayBelow(dir, entries[1..], p);
    }
  }

  /** A sentence all of whose names are inward is placed at or below the path it is received at. */
  lemma InwardStaysBelow(d: Disk, path: Path, pathIsDir: bool, r: Record)
    requires InwardRecord(r)
    ensures forall p :: p in PlacesAt(d, path, pathIsDir, r) ==> path <= p
  {
    hide Join, Inward;
    InwardExactly(r.name);
    forall p | p in PlacesAt(d, path, pathIsDir, r) ensures path <= p {
      if r.DirRecord? {
        var target := TargetDirectory(d, path, r.name);
        if p != target {
          InwardAllStayBelow(target, r.entries, p);
        }
      }
    }
  }

  // A name that is not

  lemma UpAndDown(dir: Path, x: Name)
    requires dir != [] && GoodName(x)
    ensures Join(dir, [DOT, DOT, SLASH] + x) == Parent(dir) + [x] && !Inward([DOT, DOT, SLASH] + x)
  {
    var name := [DOT, DOT, SLASH] + x;
    assert name[0] != SLASH && name[1] != SLASH && name[2] == SLASH;
    SlashIsThird(x);
    assert name[..2] == [DOT, DOT] && name[3..] == x;
    assert IndexOf(x, SLASH) == |x| && Components(x) == [x];
    assert Components(name) == [[DOT, DOT]] + [x];
    assert ([[DOT, DOT]] + [x])[1..] == [x] && [x][1..] == [];
    assert Resolve(Parent(dir), [x]) == Parent(dir) + [x];
  }

  lemma SlashIsThird(x: Name)
    ensures IndexOf([DOT, DOT, SLASH] + x, SLASH) == 2
  {
    var name := [DOT, DOT, SLASH] + x;
    assert IndexOf([SLASH] + x, SLASH) == 0;
    assert ([DOT, SLASH] + x)[1..] == [SLASH] + x && IndexOf([DOT, SLASH] + x, SLASH) == 1;
    assert name[1..] == [DOT, SLASH] + x;
  }

  /** A file named "../x" is stored beside the directory it is received into. */
  lemma EscapingFile(d: Disk, dir: Path, r: Record, times: Option<Times>, x: Name)
    requires r.FileRecord? && r.name == [DOT, DOT, SLASH] + x && GoodName(x)
    requires dir != [] && x != dir[|dir| - 1] && Open(d, Parent(dir)) && Clear(d, Parent(dir), x)
    ensures
      var stored := StoreRecord(d, dir, true, times, r, false);
      var p := Parent(dir) + [x];
      && stored.Some? && p in stored.value.nodes && p !in d.nodes && !(dir <= p)
      && !NewIsBelow(d, stored.value, dir)
  {
    hide Join, AndNot, SystemMode;
    var p := Parent(dir) + [x];
    UpAndDown(dir, x);
    NotRefused(d, Parent(dir), x);
    assert Under(Parent(dir), x, p);
    OpenIsDir(d, Parent(dir), x);
    assert Parent(p) == Parent(dir);
    assert p[|dir| - 1] == x;
  }
}
