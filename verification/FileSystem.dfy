/**
 The file system the receiver changes: a map from cleaned absolute paths to nodes, with a clock.
 Creating an entry and writing a file move modification times the way POSIX asks.
 */
module FileSystem {
  import opened Prelude

  type Name = Bytes
  type Path = seq<Name>

  datatype Node =
    | FileNode(content: Bytes, mode: nat, atime: int, mtime: int)
    | DirNode(mode: nat, atime: int, mtime: int)

  /** `refused` holds the paths on which the operating system denies every call. */
  datatype Disk = Disk(nodes: map<Path, Node>, umask: nat, now: int, refused: set<Path>)

  datatype OsError = NotExist | NotDirectory | IsDirectory | Exists | Refused

  const SLASH: Byte := 47
  const DOT: Byte := 46

  // ---------- paths ----------

  function Components(s: Bytes): seq<Name>
  {
    var i := IndexOf(s, SLASH);
    if i == |s| then [s] else [s[..i]] + Components(s[i + 1..])
  }

  function Resolve(dir: Path, parts: seq<Name>): Path
    decreases |parts|
  {
    if parts == [] then dir
    else if parts[0] == [] || parts[0] == [DOT] then Resolve(dir, parts[1..])
    else if parts[0] == [DOT, DOT] then Resolve(if dir == [] then [] else dir[..|dir| - 1], parts[1..])
    else Resolve(dir + [parts[0]], parts[1..])
  }

  /** filepath.Join(dir, name), lexical cleaning included. */
  function Join(dir: Path, name: Name): Path
  {
    Resolve(dir, Components(name))
  }

  /** Names a directory listing can hold and one scp header line can carry. */
  predicate GoodName(name: Name)
  {
    name != [] && name != [DOT] && name != [DOT, DOT] && SLASH !in name && NEWLINE !in name && 0 !in name
  }

  lemma JoinGoodName(dir: Path, name: Name)
    requires GoodName(name)
    ensures Join(dir, name) == dir + [name]
  {
    assert IndexOf(name, SLASH) == |name|;
    assert Components(name) == [name] && [name][1..] == [];
    assert Resolve(dir + [name], []) == dir + [name];
  }

  // ---------- permission bits ----------

  /** Bitwise a &^ b. */
  function AndNot(a: nat, b: nat): nat
  {
    if a == 0 then 0 else (if a % 2 == 1 && b % 2 == 0 then 1 else 0) + 2 * AndNot(a / 2, b / 2)
  }

  predicate BitSet(m: nat, weight: nat)
    requires weight > 0
  {
    m / weight % 2 == 1
  }

  /** os.syscallMode: the nine permission bits, and Go's setuid, setgid and sticky bits moved into place. */
  function SystemMode(m: nat): nat
  {
    m % 512 + (if BitSet(m, 0x80_0000) then 2048 else 0) + (if BitSet(m, 0x40_0000) then 1024 else 0)
    + (if BitSet(m, 0x10_0000) then 512 else 0)
  }

  // ---------- system calls ----------

  function Parent(p: Path): Path
    requires p != []
  {
    p[..|p| - 1]
  }

  predicate Refuses(d: Disk, p: Path)
  {
    p in d.refused || exists i :: 0 <= i < |p| && 0 in p[i]
  }

  predicate IsDir(d: Disk, p: Path)
  {
    p in d.nodes && d.nodes[p].DirNode?
  }

  predicate IsFile(d: Disk, p: Path)
  {
    p in d.nodes && d.nodes[p].FileNode?
  }

  function Stat(d: Disk, p: Path): Result<Node, OsError>
  {
    if Refuses(d, p) then Err(Refused)
    else if p in d.nodes then Ok(d.nodes[p])
    else if exists k :: 0 <= k < |p| && IsFile(d, p[..k]) then Err(NotDirectory)
    else Err(NotExist)
  }

  /** Links a new node at `p` and stamps the parent directory. */
  function Link(d: Disk, p: Path, node: Node): Disk
    requires p != [] && IsDir(d, Parent(p))
  {
    d.(nodes := d.nodes[p := node][Parent(p) := d.nodes[Parent(p)].(mtime := d.now)], now := d.now + 1)
  }

  function Mkdir(d: Disk, p: Path, mode: nat): Result<Disk, OsError>
  {
    if Refuses(d, p) then Err(Refused)
    else if p == [] || p in d.nodes then Err(Exists)
    else if IsFile(d, Parent(p)) then Err(NotDirectory)
    else if !IsDir(d, Parent(p)) then Err(NotExist)
    else Ok(Link(d, p, DirNode(AndNot(SystemMode(mode) % 1024, d.umask), d.now, d.now)))
  }

  /** open(2) with O_WRONLY, O_CREAT and O_TRUNC. */
  function Create(d: Disk, p: Path, mode: nat): Result<Disk, OsError>
  {
    if Refuses(d, p) then Err(Refused)
    else if IsDir(d, p) || p == [] then Err(IsDirectory)
    else if p in d.nodes then
      Ok(d.(nodes := d.nodes[p := d.nodes[p].(content := [], mtime := d.now)], now := d.now + 1))
    else if IsFile(d, Parent(p)) then Err(NotDirectory)
    else if !IsDir(d, Parent(p)) then Err(NotExist)
    else Ok(Link(d, p, FileNode([], AndNot(SystemMode(mode), d.umask), d.now, d.now)))
  }

  /** Appending to the open file; writing nothing leaves the times alone. */
  function Append(d: Disk, p: Path, data: Bytes): Disk
    requires IsFile(d, p)
  {
    if data == [] then d
    else d.(nodes := d.nodes[p := d.nodes[p].(content := d.nodes[p].content + data, mtime := d.now)], now := d.now + 1)
  }

  function Chmod(d: Disk, p: Path, mode: nat): Result<Disk, OsError>
  {
    if Refuses(d, p) then Err(Refused)
    else if p !in d.nodes then Err(NotExist)
    else Ok(d.(nodes := d.nodes[p := d.nodes[p].(mode := SystemMode(mode))]))
  }

  function Chtimes(d: Disk, p: Path, atime: int, mtime: int): Result<Disk, OsError>
  {
    if Refuses(d, p) then Err(Refused)
    else if p !in d.nodes then Err(NotExist)
    else Ok(d.(nodes := d.nodes[p := d.nodes[p].(atime := atime, mtime := mtime)]))
  }
}
