/**
 What storing a sentence leaves on the disk when sibling names are distinct and well formed: every received
 file and directory is in its place with the announced contents, modes and times, and nothing else changed.
 */
module Placement {
  import opened Prelude
  import opened FileSystem
  import opened Receiver
  import opened Grammar

  predicate Orderly(r: Record)
    decreases r, 1
  {
    GoodName(r.name) && (r.DirRecord? ==> OrderlyAll(r.entries))
  }

  predicate OrderlyEntry(e: Entry)
    decreases e, 2
  {
    Orderly(e.record)
  }

  predicate OrderlyAll(entries: seq<Entry>)
    decreases entries, 0
  {
    entries != [] ==>
      && OrderlyEntry(entries[0])
      && entries[0].record.name !in Names(entries[1..])
      && OrderlyAll(entries[1..])
  }

  function Names(entries: seq<Entry>): set<Name>
  {
    set i | 0 <= i < |entries| :: entries[i].record.name
  }

  /** `q` is at or below the entry `name` of `dir`. */
  predicate Under(dir: Path, name: Name, q: Path)
  {
    |q| > |dir| && q[..|dir|] == dir && q[|dir|] == name
  }

  predicate SameAt(d: Disk, d': Disk, q: Path)
  {
    (q in d.nodes <==> q in d'.nodes) && (q in d.nodes ==> d.nodes[q] == d'.nodes[q])
  }

  ghost predicate Absent(d: Disk, dir: Path, name: Name)
  {
    forall q | q in d.nodes :: !Under(dir, name, q)
  }

  /** Only the named entries of `dir` may have changed, and the modification time of `dir` itself. */
  ghost predicate Confined(d: Disk, d': Disk, dir: Path, names: set<Name>)
  {
    && d'.umask == d.umask && d'.refused == d.refused
    && IsDir(d, dir) && IsDir(d', dir) && d'.nodes[dir] == d.nodes[dir].(mtime := d'.nodes[dir].mtime)
    && forall q | q != dir && !(|q| > |dir| && q[..|dir|] == dir && q[|dir|] in names) :: SameAt(d, d', q)
  }

  /** The entry is at `p` as announced; `novel` when nothing was there before. */
  ghost predicate Placed(d: Disk, p: Path, e: Entry, preserve: bool, novel: bool)
    decreases e, 2
  {
    var times := TimesOf(e.stamp);
    match e.record
    case FileRecord(_, _, _, content, _) =>
      && IsFile(d, p) && d.nodes[p].content == content
      && (preserve ==> d.nodes[p].mode == SystemMode(ModeOf(e.record)))
      && (novel && !preserve ==> d.nodes[p].mode == AndNot(SystemMode(ModeOf(e.record)), d.umask))
      && (times.Some? ==> d.nodes[p].mtime == times.value.mtime && d.nodes[p].atime == times.value.atime)
    case DirRecord(_, _, _, entries) =>
      && IsDir(d, p) && PlacedAll(d, p, entries, preserve, novel)
      && (novel ==> d.nodes[p].mode == AndNot(SystemMode(ModeOf(e.record)) % 1024, d.umask))
      && (novel ==> forall q | q in d.nodes && |q| > |p| && q[..|p|] == p :: q[|p|] in Names(entries))
      && (times.Some? && preserve ==> d.nodes[p].mtime == times.value.mtime && d.nodes[p].atime == times.value.atime)
  }

  ghost predicate PlacedAll(d: Disk, dir: Path, entries: seq<Entry>, preserve: bool, novel: bool)
    decreases entries, 0
  {
    entries != [] ==>
      && Placed(d, dir + [entries[0].record.name], entries[0], preserve, novel)
      && PlacedAll(d, dir, entries[1..], preserve, novel)
  }

  lemma DeeperIsUnder(dir: Path, name: Name, q: Path)
    ensures var p := dir + [name]; |q| > |p| && q[..|p|] == p ==> Under(dir, name, q)
  {
    var p := dir + [name];
    if |q| > |p| && q[..|p|] == p {
      assert q[..|dir|] == p[..|dir|] && q[|dir|] == p[|dir|];
    }
  }

  ghost predicate AgreeBelow(d: Disk, d': Disk, p: Path)
  {
    d'.umask == d.umask && forall q | p <= q :: SameAt(d, d', q)
  }

  // ---------- frame ----------

  lemma {:induction false} PlacedKept(d: Disk, d': Disk, p: Path, e: Entry, preserve: bool, novel: bool)
    requires Placed(d, p, e, preserve, novel) && AgreeBelow(d, d', p)
    ensures Placed(d', p, e, preserve, novel)
    decreases e, 2
  {
    assert SameAt(d, d', p);
    if e.record.DirRecord? {
      PlacedAllKept(d, d', p, e.record.entries, preserve, novel);
      forall q | novel && q in d'.nodes && |q| > |p| && q[..|p|] == p ensures q[|p|] in Names(e.record.entries) {
        assert p <= q && SameAt(d, d', q);
      }
    }
  }

  lemma {:induction false} PlacedAllKept(d: Disk, d': Disk, dir: Path, entries: seq<Entry>, preserve: bool, novel: bool)
    requires PlacedAll(d, dir, entries, preserve, novel) && d'.umask == d.umask
    requires forall q | dir <= q && q != dir :: SameAt(d, d', q)
    ensures PlacedAll(d', dir, entries, preserve, novel)
    decreases entries, 0
  {
    if entries != [] {
      PlacedKept(d, d', dir + [entries[0].record.name], entries[0], preserve, novel);
      PlacedAllKept(d, d', dir, entries[1..], preserve, novel);
    }
  }

  lemma ConfinedUpdate(d: Disk, d1: Disk, d2: Disk, dir: Path, name: Name, node: Node)
    requires Confined(d, d1, dir, {name}) && d2 == d1.(nodes := d1.nodes[dir + [name] := node], now := d2.now)
    ensures Confined(d, d2, dir, {name})
  {
    assert Under(dir, name, dir + [name]);
    forall q | q != dir && !(|q| > |dir| && q[..|dir|] == dir && q[|dir|] in {name}) ensures SameAt(d, d2, q) {
      assert SameAt(d, d1, q);
    }
  }

  lemma ConfinedTwice(d: Disk, d1: Disk, d2: Disk, dir: Path, a: set<Name>, b: set<Name>)
    requires Confined(d, d1, dir, a) && Confined(d1, d2, dir, b)
    ensures Confined(d, d2, dir, a + b)
  {
    forall q | q != dir && !(|q| > |dir| && q[..|dir|] == dir && q[|dir|] in a + b) ensures SameAt(d, d2, q) {
      assert SameAt(d, d1, q) && SameAt(d1, d2, q);
    }
  }

  // ---------- one file ----------

  lemma ContentsArePlaced(d: Disk, d': Disk, dir: Path, name: Name, mode: nat, content: Bytes)
    requires IsDir(d, dir) && WriteFile(d, dir + [name], mode, content) == Some(d')
    ensures Confined(d, d', dir, {name})
    ensures IsFile(d', dir + [name]) && d'.nodes[dir + [name]].content == content
    ensures Absent(d, dir, name) ==> d'.nodes[dir + [name]].mode == AndNot(SystemMode(mode), d.umask)
  {
    hide AndNot, SystemMode;
    var p := dir + [name];
    assert Parent(p) == dir;
    assert Under(dir, name, p);
    var created := Create(d, p, mode).value;
    assert Confined(d, created, dir, {name});
    if content != [] {
      ConfinedUpdate(d, created, d', dir, name, d'.nodes[p]);
    }
  }

  lemma FileIsPlaced(d: Disk, d': Disk, dir: Path, e: Entry, preserve: bool, novel: bool)
    requires e.record.FileRecord? && Orderly(e.record) && IsDir(d, dir)
    requires novel ==> Absent(d, dir, e.record.name)
    requires StoreEntry(d, dir, true, e, preserve) == Some(d')
    ensures Placed(d', dir + [e.record.name], e, preserve, novel)
    ensures Confined(d, d', dir, {e.record.name})
  {
    hide AndNot, SystemMode, Join, WriteFile, Confined, Absent;
    var (r, name) := (e.record, e.record.name);
    JoinGoodName(dir, name);
    var p := dir + [name];
    var d1 := WriteFile(d, p, ModeOf(r), r.content).value;
    ContentsArePlaced(d, d1, dir, name, ModeOf(r), r.content);
    SameMask(d, d1, dir, {name});
    var d2 := if preserve then SetMode(d1, p, ModeOf(r)).value else d1;
    if preserve {
      ConfinedUpdate(d, d1, d2, dir, name, d2.nodes[p]);
    }
    if TimesOf(e.stamp).Some? {
      ConfinedUpdate(d, d2, d', dir, name, d'.nodes[p]);
    }
  }

  lemma SameMask(d: Disk, d': Disk, dir: Path, names: set<Name>)
    requires Confined(d, d', dir, names)
    ensures d'.umask == d.umask && d'.refused == d.refused && IsDir(d', dir)
  {
  }

  // ---------- trees ----------

  lemma DirectoryIsOpened(d: Disk, d': Disk, dir: Path, r: Record, novel: bool)
    requires r.DirRecord? && GoodName(r.name) && IsDir(d, dir)
    requires novel ==> Absent(d, dir, r.name)
    requires MakeDirectory(d, dir + [r.name], ModeOf(r)) == Some(d')
    ensures TargetDirectory(d, dir, r.name) == dir + [r.name]
    ensures IsDir(d', dir + [r.name]) && Confined(d, d', dir, {r.name})
    ensures novel ==> d'.nodes[dir + [r.name]].mode == AndNot(SystemMode(ModeOf(r)) % 1024, d.umask)
    ensures novel ==> forall q | q in d'.nodes && Under(dir, r.name, q) :: q == dir + [r.name]
  {
    hide AndNot, SystemMode, Join;
    JoinGoodName(dir, r.name);
    var p := dir + [r.name];
    assert Parent(p) == dir;
    assert Under(dir, r.name, p);
  }

  /** The directory's own changes stay below it. */
  lemma ConfinedBelow(d: Disk, d1: Disk, d2: Disk, dir: Path, name: Name, names: set<Name>)
    requires Confined(d, d1, dir, {name}) && Confined(d1, d2, dir + [name], names)
    ensures Confined(d, d2, dir, {name})
  {
    var p := dir + [name];
    assert SameAt(d1, d2, dir);
    forall q | q != dir && !(|q| > |dir| && q[..|dir|] == dir && q[|dir|] in {name}) ensures SameAt(d, d2, q) {
      assert SameAt(d, d1, q);
      DeeperIsUnder(dir, name, q);
      assert SameAt(d1, d2, q);
    }
  }

  lemma {:induction false} EntryIsPlaced(d: Disk, d': Disk, dir: Path, e: Entry, preserve: bool, novel: bool)
    requires Orderly(e.record) && IsDir(d, dir)
    requires novel ==> Absent(d, dir, e.record.name)
    requires StoreEntry(d, dir, true, e, preserve) == Some(d')
    ensures Placed(d', dir + [e.record.name], e, preserve, novel)
    ensures Confined(d, d', dir, {e.record.name})
    decreases e, 2
  {
    if e.record.FileRecord? {
      FileIsPlaced(d, d', dir, e, preserve, novel);
    } else {
      hide MakeDirectory, AndNot, SystemMode, Join;
      var r := e.record;
      var p := dir + [r.name];
      JoinGoodName(dir, r.name);
      assert TargetDirectory(d, dir, r.name) == p;
      var d1 := MakeDirectory(d, p, ModeOf(r)).value;
      DirectoryIsOpened(d, d1, dir, r, novel);
      forall name | novel ensures Absent(d1, p, name) {
        forall q | q in d1.nodes ensures !Under(p, name, q) {
          DeeperIsUnder(dir, r.name, q);
        }
      }
      var d2 := StoreEntries(d1, p, true, r.entries, preserve).value;
      EntriesArePlaced(d1, d2, p, r.entries, preserve, novel);
      ConfinedBelow(d, d1, d2, dir, r.name, Names(r.entries));
      DirectoryIsClosed(d, d1, d2, d', dir, e, preserve, novel);
    }
  }

  lemma DirectoryIsClosed(
    d: Disk, d1: Disk, d2: Disk, d': Disk, dir: Path, e: Entry, preserve: bool, novel: bool)
    requires e.record.DirRecord?
    requires Confined(d, d1, dir, {e.record.name}) && Confined(d, d2, dir, {e.record.name})
    requires Confined(d1, d2, dir + [e.record.name], Names(e.record.entries))
    requires novel ==> d1.nodes[dir + [e.record.name]].mode == AndNot(SystemMode(ModeOf(e.record)) % 1024, d.umask)
    requires novel ==> forall q | q in d1.nodes && Under(dir, e.record.name, q) :: q == dir + [e.record.name]
    requires PlacedAll(d2, dir + [e.record.name], e.record.entries, preserve, novel)
    requires var times := TimesOf(e.stamp);
             Some(d') == if times.Some? && preserve then SetTimes(d2, dir + [e.record.name], times.value) else Some(d2)
    ensures Placed(d', dir + [e.record.name], e, preserve, novel)
    ensures Confined(d, d', dir, {e.record.name})
  {
    hide AndNot, SystemMode;
    var p := dir + [e.record.name];
    ConfinedUpdate(d, d2, d', dir, e.record.name, d'.nodes[p]);
    PlacedAllKept(d2, d', p, e.record.entries, preserve, novel);
    if novel {
      OnlyTheChildren(d1, d2, dir, e.record.name, Names(e.record.entries));
    }
  }

  lemma OnlyTheChildren(d1: Disk, d2: Disk, dir: Path, name: Name, names: set<Name>)
    requires Confined(d1, d2, dir + [name], names)
    requires forall q | q in d1.nodes && Under(dir, name, q) :: q == dir + [name]
    ensures var p := dir + [name]; forall q | q in d2.nodes && |q| > |p| && q[..|p|] == p :: q[|p|] in names
  {
    var p := dir + [name];
    forall q | q in d2.nodes && |q| > |p| && q[..|p|] == p ensures q[|p|] in names {
      DeeperIsUnder(dir, name, q);
      assert q[|p|] in names || SameAt(d1, d2, q);
    }
  }

  lemma {:induction false} EntriesArePlaced(
    d: Disk, d': Disk, dir: Path, entries: seq<Entry>, preserve: bool, novel: bool)
    requires OrderlyAll(entries) && IsDir(d, dir)
    requires novel ==> forall name | name in Names(entries) :: Absent(d, dir, name)
    requires StoreEntries(d, dir, true, entries, preserve) == Some(d')
    ensures PlacedAll(d', dir, entries, preserve, novel)
    ensures Confined(d, d', dir, Names(entries))
    decreases entries, 0
  {
    if entries != [] {
      hide StoreEntry, Placed, OrderlyEntry;
      var (e, others) := (entries[0], entries[1..]);
      var name := e.record.name;
      assert name in Names(entries);
      assert Names(entries) == {name} + Names(others) by {
        forall n | n in Names(entries) ensures n in {name} + Names(others) {
          var i :| 0 <= i < |entries| && entries[i].record.name == n;
          if i > 0 {
            assert others[i - 1].record.name == n;
          }
        }
        forall n | n in Names(others) ensures n in Names(entries) {
          var i :| 0 <= i < |others| && others[i].record.name == n;
          assert entries[i + 1].record.name == n;
        }
      }
      var d1 := StoreEntry(d, dir, true, e, preserve).value;
      FirstIsPlaced(d, d1, dir, e, preserve, novel);
      forall n | novel && n in Names(others) ensures Absent(d1, dir, n) {
        assert n in Names(entries);
        StillAbsent(d, d1, dir, name, n);
      }
      EntriesArePlaced(d1, d', dir, others, preserve, novel);
      ConfinedTwice(d, d1, d', dir, {name}, Names(others));
      forall q | dir + [name] <= q ensures SameAt(d1, d', q) {
        assert q[..|dir|] == dir && q[|dir|] == name;
      }
      PlacedKept(d1, d', dir + [name], e, preserve, novel);
    }
  }

  lemma StillAbsent(d: Disk, d1: Disk, dir: Path, name: Name, other: Name)
    requires Confined(d, d1, dir, {name}) && other != name && Absent(d, dir, other)
    ensures Absent(d1, dir, other)
  {
    forall q | q in d1.nodes ensures !Under(dir, other, q) {
      assert Under(dir, other, q) ==> SameAt(d, d1, q);
    }
  }

  lemma {:induction false} FirstIsPlaced(d: Disk, d': Disk, dir: Path, e: Entry, preserve: bool, novel: bool)
    requires OrderlyEntry(e) && IsDir(d, dir)
    requires novel ==> Absent(d, dir, e.record.name)
    requires StoreEntry(d, dir, true, e, preserve) == Some(d')
    ensures Placed(d', dir + [e.record.name], e, preserve, novel)
    ensures Confined(d, d', dir, {e.record.name})
    decreases e, 3
  {
    EntryIsPlaced(d, d', dir, e, preserve, novel);
  }

  // ---------- success ----------

  /** A directory one can descend to and create things in. */
  ghost predicate Open(d: Disk, dir: Path)
  {
    && !Refuses(d, dir)
    && forall k | 0 <= k <= |dir| :: IsDir(d, dir[..k])
  }

  /** There is nothing under that name, and no call on it or below is refused. */
  ghost predicate Clear(d: Disk, dir: Path, name: Name)
  {
    Absent(d, dir, name) && forall q | q in d.refused :: !Under(dir, name, q)
  }

  lemma OpenKept(d: Disk, d': Disk, dir: Path, names: set<Name>)
    requires Open(d, dir) && Confined(d, d', dir, names)
    ensures Open(d', dir)
  {
    forall k | 0 <= k <= |dir| ensures IsDir(d', dir[..k]) {
      if k < |dir| {
        assert IsDir(d, dir[..k]) && SameAt(d, d', dir[..k]);
      } else {
        assert dir[..k] == dir;
      }
    }
  }

  lemma NotRefused(d: Disk, dir: Path, name: Name)
    requires Open(d, dir) && GoodName(name) && Clear(d, dir, name)
    ensures !Refuses(d, dir) && !Refuses(d, dir + [name])
    ensures Stat(d, dir + [name]) == Err(NotExist)
  {
    var p := dir + [name];
    assert Under(dir, name, p);
    forall k | 0 <= k < |p| ensures !IsFile(d, p[..k]) {
      assert p[..k] == dir[..k] && IsDir(d, dir[..k]);
    }
  }

  lemma FileIsAllowed(d: Disk, dir: Path, e: Entry, preserve: bool)
    requires e.record.FileRecord? && Orderly(e.record) && Open(d, dir) && Clear(d, dir, e.record.name)
    ensures StoreEntry(d, dir, true, e, preserve).Some?
  {
    hide AndNot, SystemMode, Join;
    var p := dir + [e.record.name];
    JoinGoodName(dir, e.record.name);
    NotRefused(d, dir, e.record.name);
    assert Parent(p) == dir && dir[..|dir|] == dir && Under(dir, e.record.name, p);
  }

  lemma DirectoryIsAllowed(d: Disk, dir: Path, r: Record)
    requires r.DirRecord? && GoodName(r.name) && Open(d, dir) && Clear(d, dir, r.name)
    ensures MakeDirectory(d, dir + [r.name], ModeOf(r)).Some?
    ensures Open(MakeDirectory(d, dir + [r.name], ModeOf(r)).value, dir + [r.name])
  {
    hide AndNot, SystemMode, Join;
    var p := dir + [r.name];
    NotRefused(d, dir, r.name);
    assert Parent(p) == dir && dir[..|dir|] == dir && Under(dir, r.name, p);
    var d' := MakeDirectory(d, p, ModeOf(r)).value;
    DirectoryIsOpened(d, d', dir, r, true);
    OpenKept(d, d', dir, {r.name});
    forall k | 0 <= k <= |p| ensures IsDir(d', p[..k]) {
      if k < |p| {
        assert p[..k] == dir[..k];
      } else {
        assert p[..k] == p;
      }
    }
  }

  /** Storing an orderly entry where nothing is in the way succeeds. */
  lemma {:induction false} EntryIsAllowed(d: Disk, dir: Path, e: Entry, preserve: bool)
    requires Orderly(e.record) && Open(d, dir) && Clear(d, dir, e.record.name)
    ensures StoreEntry(d, dir, true, e, preserve).Some?
    decreases e, 2
  {
    if e.record.FileRecord? {
      FileIsAllowed(d, dir, e, preserve);
    } else {
      hide MakeDirectory, AndNot, SystemMode, Join;
      var r := e.record;
      var p := dir + [r.name];
      assert dir[..|dir|] == dir;
      DirectoryIsAllowed(d, dir, r);
      var d1 := MakeDirectory(d, p, ModeOf(r)).value;
      DirectoryIsOpened(d, d1, dir, r, true);
      forall name ensures Clear(d1, p, name) {
        forall q | q in d1.nodes || q in d1.refused ensures !Under(p, name, q) {
          DeeperIsUnder(dir, r.name, q);
        }
      }
      EntriesAreAllowed(d1, p, r.entries, preserve);
      var d2 := StoreEntries(d1, p, true, r.entries, preserve).value;
      EntriesArePlaced(d1, d2, p, r.entries, preserve, true);
      TimesAreAllowed(d1, d2, p, Names(r.entries));
    }
  }

  lemma TimesAreAllowed(d: Disk, d': Disk, p: Path, names: set<Name>)
    requires Open(d, p) && Confined(d, d', p, names)
    ensures forall times: Times :: SetTimes(d', p, times).Some?
  {
    assert p[..|p|] == p;
  }

  lemma OthersStayClear(d: Disk, d1: Disk, dir: Path, entries: seq<Entry>)
    requires OrderlyAll(entries) && entries != [] && Confined(d, d1, dir, {entries[0].record.name})
    requires forall name | name in Names(entries) :: Clear(d, dir, name)
    ensures forall name | name in Names(entries[1..]) :: Clear(d1, dir, name)
  {
    hide OrderlyEntry;
    forall name | name in Names(entries[1..]) ensures Clear(d1, dir, name) {
      var i :| 0 <= i < |entries[1..]| && entries[1..][i].record.name == name;
      assert entries[i + 1].record.name == name;
      assert Clear(d, dir, name);
      StillAbsent(d, d1, dir, entries[0].record.name, name);
    }
  }

  lemma {:induction false} EntriesAreAllowed(d: Disk, dir: Path, entries: seq<Entry>, preserve: bool)
    requires OrderlyAll(entries) && Open(d, dir)
    requires forall name | name in Names(entries) :: Clear(d, dir, name)
    ensures StoreEntries(d, dir, true, entries, preserve).Some?
    decreases entries, 0
  {
    if entries != [] {
      hide StoreEntry, OrderlyEntry, Placed, Clear, Open, Confined;
      var e := entries[0];
      assert e.record.name in Names(entries);
      FirstIsAllowed(d, dir, e, preserve);
      OpenIsDir(d, dir, e.record.name);
      var d1 := StoreEntry(d, dir, true, e, preserve).value;
      FirstIsPlaced(d, d1, dir, e, preserve, true);
      OpenKept(d, d1, dir, {e.record.name});
      OthersStayClear(d, d1, dir, entries);
      EntriesAreAllowed(d1, dir, entries[1..], preserve);
    }
  }

  lemma OpenIsDir(d: Disk, dir: Path, name: Name)
    requires Open(d, dir) && Clear(d, dir, name)
    ensures IsDir(d, dir) && Absent(d, dir, name)
  {
    assert dir[..|dir|] == dir;
  }

  lemma {:induction false} FirstIsAllowed(d: Disk, dir: Path, e: Entry, preserve: bool)
    requires OrderlyEntry(e) && Open(d, dir) && Clear(d, dir, e.record.name)
    ensures StoreEntry(d, dir, true, e, preserve).Some?
    decreases e, 3
  {
    EntryIsAllowed(d, dir, e, preserve);
  }
}
