/**
 The language the receiver accepts. A record keeps the texts of its fields as they came; `Show` functions
 put a sentence in front of the bytes that follow it, `Store` functions say what it does to the disk, and
 `Heard` functions say what the receiver's log gains.
 */
module Grammar {
  import opened Prelude
  import opened Numerals
  import opened FileSystem
  import opened Stream
  import opened Receiver

  /** T<mtime> <gap> <atime> <tail>\n */
  datatype Stamp = Stamp(mtime: Bytes, gap: Bytes, atime: Bytes, tail: Bytes)

  /** The sender's word on the contents it sent. */
  datatype Closing = Accepted | Warned(message: Bytes)

  datatype Record =
    | FileRecord(mode: Bytes, size: Bytes, name: Name, content: Bytes, closing: Closing)
    | DirRecord(mode: Bytes, length: Bytes, name: Name, entries: seq<Entry>)

  datatype Entry = Entry(stamp: Option<Stamp>, record: Record)

  // ---------- well-formed sentences ----------

  predicate GoodStamp(s: Stamp)
  {
    && ParseUint(s.mtime, 10, TWO_64).Some? && SPACE !in s.gap
    && ParseUint(s.atime, 10, TWO_64).Some? && NEWLINE !in s.tail
  }

  predicate GoodRecord(r: Record, preserve: bool)
    decreases r, 1
  {
    && ParseUint(r.mode, 8, TWO_32).Some?
    && NEWLINE !in r.name
    && match r
       case FileRecord(_, size, _, content, closing) =>
         && ParseInt(size).Some?
         && |content| == ContentLength(ParseInt(size).value)
         && (closing.Warned? ==> NEWLINE !in closing.message)
       case DirRecord(_, length, _, entries) =>
         SPACE !in length && GoodEntries(entries, preserve, preserve)
  }

  /** Inside a directory time records need the preserve flag; at the top they are always allowed. */
  predicate GoodEntry(e: Entry, timesAllowed: bool, preserve: bool)
    decreases e, 2
  {
    (e.stamp.Some? ==> timesAllowed && GoodStamp(e.stamp.value)) && GoodRecord(e.record, preserve)
  }

  predicate GoodEntries(entries: seq<Entry>, timesAllowed: bool, preserve: bool)
    decreases entries, 0
  {
    entries != [] ==> GoodEntry(entries[0], timesAllowed, preserve) && GoodEntries(entries[1..], timesAllowed, preserve)
  }

  // ---------- bytes ----------

  function Field(text: Bytes, delimiter: Byte, rest: Bytes): Bytes
  {
    text + ([delimiter] + rest)
  }

  function ShowStamp(s: Stamp, rest: Bytes): Bytes
  {
    [T_RECORD] + Field(s.mtime, SPACE, Field(s.gap, SPACE, Field(s.atime, SPACE, Field(s.tail, NEWLINE, rest))))
  }

  function Kind(r: Record): Byte
  {
    if r.FileRecord? then C_RECORD else D_RECORD
  }

  function ShowHead(r: Record, rest: Bytes): Bytes
  {
    var second := if r.FileRecord? then r.size else r.length;
    [Kind(r)] + Field(r.mode, SPACE, Field(second, SPACE, Field(r.name, NEWLINE, rest)))
  }

  function ShowClosing(c: Closing, rest: Bytes): Bytes
  {
    match c
    case Accepted => [0] + rest
    case Warned(message) => [1] + Field(message, NEWLINE, rest)
  }

  function ShowRecord(r: Record, rest: Bytes): Bytes
    decreases r, 1
  {
    ShowHead(r, match r
             case FileRecord(_, _, _, content, closing) => content + ShowClosing(closing, rest)
             case DirRecord(_, _, _, entries) => ShowEntries(entries, [E_RECORD] + ([NEWLINE] + rest)))
  }

  function ShowEntry(e: Entry, rest: Bytes): Bytes
    decreases e, 2
  {
    if e.stamp.Some? then ShowStamp(e.stamp.value, ShowRecord(e.record, rest)) else ShowRecord(e.record, rest)
  }

  function ShowEntries(entries: seq<Entry>, rest: Bytes): Bytes
    decreases entries, 0
  {
    if entries == [] then rest else ShowEntry(entries[0], ShowEntries(entries[1..], rest))
  }

  // ---------- what a sentence does to the disk ----------

  function TimesOf(stamp: Option<Stamp>): Option<Times>
  {
    if stamp.Some? && GoodStamp(stamp.value) then
      Some(Times(ToInt64(ParseUint(stamp.value.mtime, 10, TWO_64).value),
                 ToInt64(ParseUint(stamp.value.atime, 10, TWO_64).value)))
    else None
  }

  function ModeOf(r: Record): nat
  {
    var mode := ParseUint(r.mode, 8, TWO_32);
    if mode.Some? then mode.value else 0
  }

  function WriteFile(d: Disk, target: Path, mode: nat, content: Bytes): Option<Disk>
  {
    var created := Create(d, target, mode);
    if created.Err? then None else Some(Append(created.value, target, content))
  }

  function SetMode(d: Disk, target: Path, mode: nat): Option<Disk>
  {
    var changed := Chmod(d, target, mode);
    if changed.Err? then None else Some(changed.value)
  }

  function SetTimes(d: Disk, target: Path, times: Times): Option<Disk>
  {
    var changed := Chtimes(d, target, times.atime, times.mtime);
    if changed.Err? then None else Some(changed.value)
  }

  function StoreFileRecord(
    d: Disk, target: Path, mode: nat, content: Bytes, times: Option<Times>, preserve: bool): Option<Disk>
  {
    var d :- WriteFile(d, target, mode, content);
    var d :- if preserve then SetMode(d, target, mode) else Some(d);
    if times.Some? then SetTimes(d, target, times.value) else Some(d)
  }

  function MakeDirectory(d: Disk, target: Path, mode: nat): Option<Disk>
  {
    match Stat(d, target)
    case Err(NotExist) => (var made := Mkdir(d, target, mode); if made.Ok? then Some(made.value) else None)
    case Err(_) => None
    case Ok(node) => if node.DirNode? then Some(d) else None
  }

  function StoreRecord(
    d: Disk, path: Path, pathIsDir: bool, times: Option<Times>, r: Record, preserve: bool): Option<Disk>
    decreases r, 1
  {
    match r
    case FileRecord(_, _, name, content, _) =>
      StoreFileRecord(d, if pathIsDir then Join(path, name) else path, ModeOf(r), content, times, preserve)
    case DirRecord(_, _, name, entries) =>
      var target := TargetDirectory(d, path, name);
      var d :- MakeDirectory(d, target, ModeOf(r));
      var d :- StoreEntries(d, target, true, entries, preserve);
      if times.Some? && preserve then SetTimes(d, target, times.value) else Some(d)
  }

  function StoreEntry(d: Disk, path: Path, pathIsDir: bool, e: Entry, preserve: bool): Option<Disk>
    decreases e, 2
  {
    StoreRecord(d, path, pathIsDir, TimesOf(e.stamp), e.record, preserve)
  }

  function StoreEntries(d: Disk, path: Path, pathIsDir: bool, entries: seq<Entry>, preserve: bool): Option<Disk>
    decreases entries, 0
  {
    if entries == [] then Some(d)
    else
      var d :- StoreEntry(d, path, pathIsDir, entries[0], preserve);
      StoreEntries(d, path, pathIsDir, entries[1..], preserve)
  }

  // ---------- what the receiver does with its streams ----------

  function HeardStamp(s: Stamp, log: seq<Event>): seq<Event>
  {
    log + Gots(ShowStamp(s, [])) + [Put(0)]
  }

  function HeardHead(r: Record, log: seq<Event>): seq<Event>
  {
    log + Gots(ShowHead(r, [])) + [Put(0)]
  }

  function HeardClosing(c: Closing): seq<Event>
  {
    Gots(ShowClosing(c, [])) + (if c.Warned? then [Note(c.message)] else [])
  }

  function HeardRecord(r: Record, log: seq<Event>): seq<Event>
    decreases r, 1
  {
    match r
    case FileRecord(_, _, _, content, closing) => HeardHead(r, log) + Gots(content) + HeardClosing(closing) + [Put(0)]
    case DirRecord(_, _, _, entries) =>
      HeardEntries(entries, HeardHead(r, log)) + [Peeked(E_RECORD)] + Gots([E_RECORD, NEWLINE]) + [Put(0)]
  }

  function HeardEntry(e: Entry, log: seq<Event>): seq<Event>
    decreases e, 2
  {
    HeardRecord(e.record,
                (if e.stamp.Some? then HeardStamp(e.stamp.value, log + [Peeked(T_RECORD)]) else log)
                + [Peeked(Kind(e.record))])
  }

  function HeardEntries(entries: seq<Entry>, log: seq<Event>): seq<Event>
    decreases entries, 0
  {
    if entries == [] then log else HeardEntries(entries[1..], HeardEntry(entries[0], log))
  }
}
