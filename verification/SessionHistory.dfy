/** What a session shows is a function of what happened to it. */
module SessionHistory {
  import opened Prelude
  import opened SessionRequests

  // What one event does

  predicate Asks(e: Event)
  {
    e.Incoming? && e.request.wantReply
  }

  predicate IsShell(e: Event)
  {
    e.Incoming? && (e.request.body.Shell? || (e.request.body.Exec? && !IsScp(e.request.body.command)))
  }

  /** Is this request granted, given whether a shell was asked for before? */
  predicate Granted(e: Event, hadShell: bool)
    requires e.Incoming?
  {
    match e.request.body
    case Malformed => false
    case Unknown => false
    case Subsystem(name) => name == "sftp" && e.luck.served
    case Shell => !hadShell
    case Exec(command) => IsScp(command) || !hadShell
    case _ => true
  }

  function Args(e: Event): seq<string>
    requires IsShell(e)
  {
    if e.request.body.Shell? then [] else ["-c", e.request.body.command]
  }

  /** The variable an event stores, in this session or through another one that shares the map. */
  function Stored(e: Event): Option<(string, string)>
  {
    match e
    case Foreign(name, value) => Some((name, value))
    case Incoming(Request(_, Env(name, value)), _) => Some((name, value))
    case Incoming(Request(_, Pty(p)), _) => Some(("TERM", p.term))
    case _ => None
  }

  lemma ShellEvent(host: Host, v: View, id: nat, r: Request, luck: Luck, args: seq<string>)
    ensures var w := ExecuteShell(host, v, id, r, luck, args);
      && w.vars == v.vars
      && w.replies == v.replies + (if r.wantReply then [Reply(id, v.command.None?)] else [])
      && w.command == (if v.command.None? then Some(Command(args, EnvironmentOf(host, v.vars))) else v.command)
  {
    hide EnvironmentOf;
  }

  lemma EventReplies(host: Host, v: View, id: nat, e: Event)
    ensures Apply(host, v, id, e).replies
            == v.replies + if Asks(e) then [Reply(id, Granted(e, v.command.Some?))] else []
  {
    hide ExecuteShell, EnvironmentOf, IsScp;
    if IsShell(e) {
      ShellEvent(host, v, id, e.request, e.luck, Args(e));
    }
  }

  lemma EventCommand(host: Host, v: View, id: nat, e: Event)
    ensures Apply(host, v, id, e).command
            == if IsShell(e) && v.command.None? then Some(Command(Args(e), EnvironmentOf(host, v.vars))) else v.command
  {
    hide ExecuteShell, EnvironmentOf, IsScp;
    if IsShell(e) {
      ShellEvent(host, v, id, e.request, e.luck, Args(e));
    }
  }

  lemma EventVars(host: Host, v: View, id: nat, e: Event)
    ensures Apply(host, v, id, e).vars
            == match Stored(e) case None => v.vars case Some((name, value)) => v.vars[name := value]
  {
    hide ExecuteShell, EnvironmentOf, IsScp;
    if IsShell(e) {
      ShellEvent(host, v, id, e.request, e.luck, Args(e));
    }
  }

  // Replies

  predicate HadShell(events: seq<Event>)
  {
    events != [] && (IsShell(events[|events| - 1]) || HadShell(events[..|events| - 1]))
  }

  function ReplyTo(n: nat, e: Event, hadShell: bool): (r: Reply)
    ensures r.to == n
  {
    Reply(n, e.Incoming? && Granted(e, hadShell))
  }

  /** One reply for each request that wants one, in order; `had` when there was a command before all of them. */
  function Replies(had: bool, events: seq<Event>): seq<Reply>
  {
    if events == [] then [] else
      var n: nat := |events| - 1;
      Replies(had, events[..n]) + if Asks(events[n]) then [ReplyTo(n, events[n], had || HadShell(events[..n]))] else []
  }

  /** The first shell request is accepted, whatever happened before, and no other. */
  lemma {:induction false} CommandIsFirstShell(host: Host, v: View, events: seq<Event>)
    ensures After(host, v, events).command.Some? <==> v.command.Some? || HadShell(events)
  {
    hide Apply, IsShell;
    if events != [] {
      var n := |events| - 1;
      CommandIsFirstShell(host, v, events[..n]);
      EventCommand(host, After(host, v, events[..n]), n, events[n]);
    }
  }

  /**
   * From any state of a session, the replies sent are the replies due, for every sequence of requests and
   * whatever happens in between.
   */
  lemma {:induction false} ReplyDiscipline(host: Host, v: View, events: seq<Event>)
    ensures After(host, v, events).replies == v.replies + Replies(v.command.Some?, events)
  {
    hide Apply, Granted, HadShell;
    if events != [] {
      var n := |events| - 1;
      ReplyDiscipline(host, v, events[..n]);
      CommandIsFirstShell(host, v, events[..n]);
      EventReplies(host, After(host, v, events[..n]), n, events[n]);
    }
  }

  ghost predicate InOrder(replies: seq<Reply>)
  {
    forall j, k :: 0 <= j < k < |replies| ==> replies[j].to < replies[k].to
  }

  function Numbers(replies: seq<Reply>): set<nat>
  {
    set r | r in replies :: r.to
  }

  lemma OneMore(before: seq<Reply>, last: Reply)
    requires InOrder(before) && forall i :: i in Numbers(before) ==> i < last.to
    ensures InOrder(before + [last]) && Numbers(before + [last]) == Numbers(before) + {last.to}
  {
    var now := before + [last];
    assert last in now;
    forall r | r in before ensures r in now && r.to in Numbers(before) {
    }
    forall j | 0 <= j < |before| ensures before[j].to < last.to {
      assert before[j] in before;
    }
  }

  function AskedFor(events: seq<Event>): set<nat>
  {
    set i | 0 <= i < |events| && Asks(events[i])
  }

  lemma AskedOneMore(events: seq<Event>)
    requires events != []
    ensures var n := |events| - 1;
      AskedFor(events) == AskedFor(events[..n]) + if Asks(events[n]) then {n} else {}
  {
    hide Asks;
    var n := |events| - 1;
    assert forall i :: 0 <= i < n ==> events[..n][i] == events[i];
  }

  lemma NoneAsked()
    ensures InOrder([]) && Numbers([]) == {} && AskedFor([]) == {}
  {
  }

  /** Each once and in order: the numbers of the replies increase, and are those of the requests that ask for one. */
  lemma {:induction false} RepliesAreDue(had: bool, events: seq<Event>)
    ensures InOrder(Replies(had, events)) && Numbers(Replies(had, events)) == AskedFor(events)
  {
    hide ReplyTo, HadShell, InOrder, Numbers, Asks, AskedFor;
    if events == [] {
      NoneAsked();
    } else {
      var n := |events| - 1;
      RepliesAreDue(had, events[..n]);
      AskedOneMore(events);
      AskedIsWithin(events[..n]);
      if Asks(events[n]) {
        OneMore(Replies(had, events[..n]), ReplyTo(n, events[n], had || HadShell(events[..n])));
      } else {
        assert Replies(had, events) == Replies(had, events[..n]);
      }
    }
  }

  lemma AskedIsWithin(events: seq<Event>)
    ensures forall i :: i in AskedFor(events) ==> i < |events|
  {
  }

  // Variables

  /** The value last stored under a name. */
  function LastStored(vars: map<string, string>, events: seq<Event>, name: string): Option<string>
  {
    if events == [] then
      if name in vars then Some(vars[name]) else None
    else
      var n := |events| - 1;
      match Stored(events[n])
      case None => LastStored(vars, events[..n], name)
      case Some((k, value)) => if k == name then Some(value) else LastStored(vars, events[..n], name)
  }

  lemma {:induction false} VariablesAreLastStored(
    host: Host, vars: map<string, string>, events: seq<Event>, name: string)
    ensures var now := After(host, Opened(vars), events).vars;
      LastStored(vars, events, name) == if name in now then Some(now[name]) else None
  {
    hide Apply, Stored;
    if events != [] {
      var n := |events| - 1;
      VariablesAreLastStored(host, vars, events[..n], name);
      EventVars(host, After(host, Opened(vars), events[..n]), n, events[n]);
    }
  }

  // The size of the pty

  predicate IsPty(e: Event)
  {
    e.Incoming? && e.request.body.Pty?
  }

  predicate IsResize(e: Event)
  {
    e.Incoming? && e.request.body.WindowChange?
  }

  predicate HadPty(events: seq<Event>)
  {
    events != [] && (IsPty(events[|events| - 1]) || HadPty(events[..|events| - 1]))
  }

  /** The size last asked for, by a pty request or a later window change. */
  function Wanted(events: seq<Event>): (nat, nat)
    requires HadPty(events)
  {
    var n := |events| - 1;
    var e := events[n];
    if IsPty(e) then (e.request.body.pty.columns, e.request.body.pty.rows)
    else if IsResize(e) then (e.request.body.columns, e.request.body.rows)
    else Wanted(events[..n])
  }

  /** Does this event, after those, open a terminal? */
  predicate OpensTerminal(events: seq<Event>, e: Event)
  {
    IsShell(e) && !HadShell(events) && HadPty(events) && e.luck.open
  }

  /** The size the terminal was given: the one wanted when it was opened, then that of each later window change. */
  function Displayed(events: seq<Event>): Option<Size>
  {
    if events == [] then None else
      var n := |events| - 1;
      var e := events[n];
      if OpensTerminal(events[..n], e) then
        var (columns, rows) := Wanted(events[..n]);
        Some(if e.luck.resized then Window(columns, rows) else Size(0, 0))
      else if Displayed(events[..n]).Some? && IsResize(e) && e.luck.resized then
        Some(Window(e.request.body.columns, e.request.body.rows))
      else Displayed(events[..n])
  }

  lemma ShellTerminal(host: Host, v: View, id: nat, r: Request, luck: Luck, args: seq<string>)
    ensures var w := ExecuteShell(host, v, id, r, luck, args);
      && w.allocPty == v.allocPty && w.pty == v.pty
      && (w.master.Some? ==>
            if v.command.None? && v.allocPty && luck.open
            then w.master == Some(if luck.resized then Window(v.pty.columns, v.pty.rows) else Size(0, 0))
            else w.master == v.master)
  {
    hide EnvironmentOf;
  }

  lemma EventPty(host: Host, v: View, id: nat, e: Event)
    ensures var w := Apply(host, v, id, e);
      && w.allocPty == (v.allocPty || IsPty(e))
      && w.pty == (if IsPty(e) then e.request.body.pty
                   else if IsResize(e) && v.allocPty then
                     v.pty.(columns := e.request.body.columns, rows := e.request.body.rows)
                   else v.pty)
  {
    hide ExecuteShell, IsScp;
    if IsShell(e) {
      ShellTerminal(host, v, id, e.request, e.luck, Args(e));
    }
  }

  lemma EventTerminal(host: Host, v: View, id: nat, e: Event)
    ensures var w := Apply(host, v, id, e);
      w.master.Some? ==>
        if IsShell(e) && v.command.None? && v.allocPty && e.luck.open
        then w.master == Some(if e.luck.resized then Window(v.pty.columns, v.pty.rows) else Size(0, 0))
        else
          && v.master.Some?
          && w.master == (if IsResize(e) && e.luck.resized then Some(Window(w.pty.columns, w.pty.rows)) else v.master)
  {
    hide ExecuteShell, IsScp;
    if IsShell(e) {
      ShellTerminal(host, v, id, e.request, e.luck, Args(e));
    }
  }

  lemma {:induction false} WantedIsKept(host: Host, vars: map<string, string>, events: seq<Event>)
    ensures var v := After(host, Opened(vars), events);
      && (v.allocPty <==> HadPty(events))
      && (HadPty(events) ==> (v.pty.columns, v.pty.rows) == Wanted(events))
  {
    hide Apply, IsPty, IsResize;
    if events != [] {
      var n := |events| - 1;
      WantedIsKept(host, vars, events[..n]);
      EventPty(host, After(host, Opened(vars), events[..n]), n, events[n]);
    }
  }

  /** While the session has its pty open, that has the size displayed. */
  lemma {:induction false} TerminalFollowsRequests(host: Host, vars: map<string, string>, events: seq<Event>)
    ensures var v := After(host, Opened(vars), events);
      v.master.Some? ==> v.allocPty && v.command.Some? && v.master == Displayed(events)
  {
    hide Apply, IsShell, HadShell, HadPty, Wanted;
    if events != [] {
      var n := |events| - 1;
      var v := After(host, Opened(vars), events[..n]);
      TerminalFollowsRequests(host, vars, events[..n]);
      WantedIsKept(host, vars, events[..n]);
      CommandIsFirstShell(host, Opened(vars), events[..n]);
      EventPty(host, v, n, events[n]);
      EventCommand(host, v, n, events[n]);
      EventTerminal(host, v, n, events[n]);
    }
  }
}
