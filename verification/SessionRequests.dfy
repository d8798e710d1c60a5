/**
 * What a session does with its requests: the replies, the environment of the command it starts,
 * and the size of its pty.
 */
module SessionRequests {
  import opened Prelude

  datatype PtyRequest = PtyRequest(term: string, columns: nat, rows: nat, modes: Bytes)

  /** A request with its payload decoded; `Malformed` when that failed. */
  datatype Body =
    | Env(name: string, value: string)
    | Signal(signal: string)
    | Pty(pty: PtyRequest)
    | WindowChange(columns: nat, rows: nat)
    | Exec(command: string)
    | Shell
    | Subsystem(subsystem: string)
    | Malformed
    | Unknown

  datatype Request = Request(wantReply: bool, body: Body)

  datatype Reply = Reply(to: nat, success: bool)

  /** How the calls to the system go that handling a request may need. */
  datatype Luck = Luck(served: bool, open: bool, piped: bool, started: bool, resized: bool)

  /** What the request loop sees happen: a request, another session's write to the shared map, a teardown. */
  datatype Event =
    | Incoming(request: Request, luck: Luck)
    | Foreign(name: string, value: string)
    | Destroyed

  datatype Command = Command(args: seq<string>, environment: seq<string>)

  datatype Size = Size(width: nat, height: nat)

  /** A session, as a value. */
  datatype View = View(
    vars: map<string, string>,
    complete: bool,
    command: Option<Command>,
    allocPty: bool,
    pty: PtyRequest,
    master: Option<Size>,
    replies: seq<Reply>)

  /** The daemon's own variables, and the order in which a map is iterated. */
  datatype Host = Host(home: string, user: string, order: map<string, string> -> seq<string>)

  ghost predicate IsOrder(order: seq<string>, keys: set<string>)
  {
    && (forall k :: k in order <==> k in keys)
    && (forall i, j :: 0 <= i < j < |order| ==> order[i] != order[j])
  }

  ghost predicate Iterates(host: Host)
  {
    forall m :: IsOrder(host.order(m), m.Keys)
  }

  const NO_PTY := PtyRequest("", 0, 0, [])

  function Opened(vars: map<string, string>): View
  {
    View(vars, false, None, false, NO_PTY, None, [])
  }

  // The environment of a command

  function Entry(name: string, value: string): string
  {
    name + "=" + value
  }

  const DEFAULTS := [Entry("PATH", "/bin:/usr/bin"), Entry("LANG", "en_US.UTF8")]

  function Entries(vars: map<string, string>, order: seq<string>): seq<string>
  {
    if order == [] then [] else
      var k, before := order[|order| - 1], Entries(vars, order[..|order| - 1]);
      if k in vars && k != "HOME" && k != "USER" then before + [Entry(k, vars[k])] else before
  }

  /** The list a command is given when the map is iterated in this order. */
  function Listing(host: Host, vars: map<string, string>, order: seq<string>): seq<string>
  {
    DEFAULTS + Entries(vars, order) + [Entry("HOME", host.home), Entry("USER", host.user)]
  }

  function EnvironmentOf(host: Host, vars: map<string, string>): seq<string>
  {
    Listing(host, vars, host.order(vars))
  }

  predicate Defines(entry: string, name: string)
  {
    name + "=" <= entry
  }

  /** The last entry for a name wins. */
  function Lookup(entries: seq<string>, name: string): Option<string>
  {
    if entries == [] then None else
      var last := entries[|entries| - 1];
      if Defines(last, name) then Some(last[|name| + 1..]) else Lookup(entries[..|entries| - 1], name)
  }

  // Handling requests

  function Answer(v: View, id: nat, r: Request, success: bool): View
  {
    if r.wantReply then v.(replies := v.replies + [Reply(id, success)]) else v
  }

  function Destroy(v: View): View
  {
    if v.complete then v else v.(complete := true, master := None)
  }

  /** The kernel keeps window sizes in sixteen bits. */
  function Window(columns: nat, rows: nat): Size
  {
    Size(columns % 0x1_0000, rows % 0x1_0000)
  }

  predicate IsSpace(c: char)
  {
    c == ' ' || c == '\t' || c == '\n' || c == '\r' || c == 12 as char
  }

  function SkipSpace(s: string): string
  {
    if s != "" && IsSpace(s[0]) then SkipSpace(s[1..]) else s
  }

  /** A command that begins with the word scp is served by the daemon itself. */
  predicate IsScp(command: string)
  {
    var s := SkipSpace(command);
    "scp" <= s && (|s| == 3 || IsSpace(s[3]))
  }

  function RunOnPty(v: View, luck: Luck): View
  {
    if !luck.open then Destroy(v) else
      var w := v.(master := Some(if luck.resized then Window(v.pty.columns, v.pty.rows) else Size(0, 0)));
      if luck.started then w else Destroy(w)
  }

  function ExecuteShell(host: Host, v: View, id: nat, r: Request, luck: Luck, args: seq<string>): View
  {
    if v.command.Some? then
      Answer(v, id, r, false)
    else
      var w := Answer(v.(command := Some(Command(args, EnvironmentOf(host, v.vars)))), id, r, true);
      if w.allocPty then RunOnPty(w, luck)
      else if luck.piped && luck.started then w
      else Destroy(w)
  }

  function Resize(v: View, columns: nat, rows: nat, luck: Luck): View
  {
    var w := if v.allocPty then v.(pty := v.pty.(columns := columns, rows := rows)) else v;
    if w.master.Some? && luck.resized then w.(master := Some(Window(w.pty.columns, w.pty.rows))) else w
  }

  function Handle(host: Host, v: View, id: nat, r: Request, luck: Luck): View
  {
    match r.body
    case Env(name, value) => Answer(v.(vars := v.vars[name := value]), id, r, true)
    case Signal(_) => Answer(v, id, r, true)
    case Pty(p) => Answer(v.(allocPty := true, pty := p, vars := v.vars["TERM" := p.term]), id, r, true)
    case WindowChange(columns, rows) => Answer(Resize(v, columns, rows, luck), id, r, true)
    case Exec(command) =>
      if IsScp(command) then Destroy(Answer(v, id, r, true)) else ExecuteShell(host, v, id, r, luck, ["-c", command])
    case Shell => ExecuteShell(host, v, id, r, luck, [])
    case Subsystem(name) => Answer(v, id, r, name == "sftp" && luck.served)
    case Malformed => Answer(v, id, r, false)
    case Unknown => Answer(v, id, r, false)
  }

  function Apply(host: Host, v: View, id: nat, e: Event): View
  {
    match e
    case Incoming(request, luck) => Handle(host, v, id, request, luck)
    case Foreign(name, value) => v.(vars := v.vars[name := value])
    case Destroyed => Destroy(v)
  }

  /** The session after these events; requests are numbered by their place among them. */
  function After(host: Host, v: View, events: seq<Event>): View
  {
    if events == [] then v else
      var n: nat := |events| - 1;
      Apply(host, After(host, v, events[..n]), n, events[n])
  }

  /** The map of variables; every session of the daemon has the same one. */
  class Environment {
    var vars: map<string, string>

    constructor (vars: map<string, string>)
      ensures this.vars == vars
    {
      this.vars := vars;
    }
  }

  class Session {
    const host: Host
    const env: Environment
    var complete: bool
    var command: Option<Command>
    var allocPty: bool
    var ptyRequest: PtyRequest
    var ptyMaster: Option<Size>
    var replies: seq<Reply>

    constructor (host: Host, env: Environment)
      ensures this.host == host && this.env == env && Now() == Opened(env.vars)
    {
      this.host, this.env := host, env;
      complete, command, allocPty, ptyRequest, ptyMaster, replies := false, None, false, NO_PTY, None, [];
    }

    function Now(): View
      reads this, env
    {
      View(env.vars, complete, command, allocPty, ptyRequest, ptyMaster, replies)
    }

    /** Nothing is sent for a request that asked for no reply. */
    method SendReply(id: nat, request: Request, success: bool)
      modifies this
      ensures Now() == Answer(old(Now()), id, request, success)
    {
      if request.wantReply {
        replies := replies + [Reply(id, success)];
      }
    }

    method DestroySession()
      modifies this
      ensures Now() == Destroy(old(Now()))
    {
      if complete {
        return;
      }
      complete := true;
      if ptyMaster.Some? {
        ptyMaster := None;
      }
    }

    method BuildEnvironment() returns (entries: seq<string>)
      ensures entries == EnvironmentOf(host, env.vars)
    {
      entries := DEFAULTS;
      var order := host.order(env.vars);
      for i := 0 to |order|
        invariant entries == DEFAULTS + Entries(env.vars, order[..i])
      {
        assert order[..i + 1][..i] == order[..i];
        var k := order[i];
        if k in env.vars && k != "HOME" && k != "USER" {
          entries := entries + [Entry(k, env.vars[k])];
        }
      }
      assert order[..|order|] == order;
      entries := entries + [Entry("HOME", host.home)];
      entries := entries + [Entry("USER", host.user)];
    }

    method Start(luck: Luck) returns (ok: bool)
      modifies this
      ensures Now() == if allocPty && luck.open then
                var size := if luck.resized then Window(ptyRequest.columns, ptyRequest.rows) else Size(0, 0);
                old(Now()).(master := Some(size))
              else old(Now())
      ensures ok <==> if allocPty then luck.open && luck.started else luck.piped && luck.started
    {
      if !allocPty {
        return luck.piped && luck.started;
      }
      if !luck.open {
        return false;
      }
      ptyMaster := Some(Size(0, 0));
      if luck.resized {
        ptyMaster := Some(Window(ptyRequest.columns, ptyRequest.rows));
      }
      return luck.started;
    }

    method HandleShell(id: nat, request: Request, luck: Luck, args: seq<string>)
      modifies this
      ensures Now() == ExecuteShell(host, old(Now()), id, request, luck, args)
    {
      if command.Some? {
        SendReply(id, request, false);
        return;
      }
      var entries := BuildEnvironment();
      command := Some(Command(args, entries));
      SendReply(id, request, true);
      var ok := Start(luck);
      if !ok {
        DestroySession();
      }
    }

    method HandleWindowChange(id: nat, request: Request, luck: Luck)
      requires request.body.WindowChange?
      modifies this
      ensures Now() == Answer(Resize(old(Now()), request.body.columns, request.body.rows, luck), id, request, true)
    {
      if allocPty {
        ptyRequest := ptyRequest.(columns := request.body.columns, rows := request.body.rows);
      }
      if ptyMaster.Some? && luck.resized {
        ptyMaster := Some(Window(ptyRequest.columns, ptyRequest.rows));
      }
      SendReply(id, request, true);
    }

    method HandleRequest(id: nat, request: Request, luck: Luck)
      modifies this, env
      ensures Now() == Handle(host, old(Now()), id, request, luck)
    {
      match request.body
      case Env(name, value) =>
        env.vars := env.vars[name := value];
        SendReply(id, request, true);
      case Signal(_) =>
        SendReply(id, request, true);
      case Pty(pty) =>
        allocPty := true;
        ptyRequest := pty;
        env.vars := env.vars["TERM" := pty.term];
        SendReply(id, request, true);
      case WindowChange(_, _) =>
        HandleWindowChange(id, request, luck);
      case Exec(command) =>
        if IsScp(command) {
          SendReply(id, request, true);
          DestroySession();
        } else {
          HandleShell(id, request, luck, ["-c", command]);
        }
      case Shell =>
        HandleShell(id, request, luck, []);
      case Subsystem(name) =>
        SendReply(id, request, name == "sftp" && luck.served);
      case Malformed =>
        SendReply(id, request, false);
      case Unknown =>
        SendReply(id, request, false);
    }

    /** The request loop, with what the rest of the daemon does between two requests. */
    method ServiceRequests(events: seq<Event>)
      modifies this, env
      ensures Now() == Destroy(After(host, old(Now()), events))
    {
      for i := 0 to |events|
        invariant Now() == After(host, old(Now()), events[..i])
      {
        assert events[..i + 1][..i] == events[..i];
        match events[i] {
          case Incoming(request, luck) => HandleRequest(i, request, luck);
          case Foreign(name, value) => env.vars := env.vars[name := value];
          case Destroyed => DestroySession();
        }
      }
      assert events[..|events|] == events;
      DestroySession();
    }
  }

  /** Sessions of one daemon share their variables: what one stores, the command of another will be given. */
  method StoreElsewhere(
    here: Session, there: Session, id: nat, name: string, value: string, args: seq<string>, luck: Luck)
    requires here != there && here.env == there.env && there.command.None?
    modifies here, there, here.env
    ensures there.command == Some(Command(args, EnvironmentOf(there.host, old(there.env.vars)[name := value])))
  {
    here.HandleRequest(id, Request(false, Env(name, value)), luck);
    there.HandleShell(id, Request(false, Shell), luck, args);
  }
}
