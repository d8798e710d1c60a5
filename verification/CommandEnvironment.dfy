/** What the command of a session finds in its environment. */
module CommandEnvironment {
  import opened Prelude
  import opened SessionRequests
  import opened SessionHistory

  // Looking up a list

  lemma {:induction false} LookupAppend(a: seq<string>, b: seq<string>, name: string)
    ensures Lookup(a + b, name) == if Lookup(b, name).Some? then Lookup(b, name) else Lookup(a, name)
  {
    hide Defines;
    if b == [] {
      assert a + b == a;
    } else {
      assert (a + b)[..|a + b| - 1] == a + b[..|b| - 1];
      LookupAppend(a, b[..|b| - 1], name);
    }
  }

  /** What a variable stored under `k` says under `name`; past an equals sign it speaks for a shorter name. */
  function Says(k: string, value: string, name: string): Option<string>
  {
    if k == name then Some(value)
    else if Defines(k, name) then Some(k[|name| + 1..] + "=" + value)
    else None
  }

  lemma DefinesHasEquals(k: string, name: string)
    ensures Defines(k, name) ==> '=' in k
  {
    if Defines(k, name) {
      assert k[|name|] == '=';
    }
  }

  lemma LongerNameHasEquals(k: string, value: string, name: string)
    ensures Defines(Entry(k, value), name) && |k| < |name| ==> '=' in name
  {
    var e := Entry(k, value);
    if Defines(e, name) && |k| < |name| {
      assert name[|k|] == e[|k|] == '=';
    }
  }

  lemma EntryDefines(k: string, value: string, name: string)
    requires '=' !in name
    ensures Defines(Entry(k, value), name) <==> k == name || Defines(k, name)
  {
    var e := Entry(k, value);
    LongerNameHasEquals(k, value, name);
    if Defines(e, name) {
      assert e[..|name|] == name && e[|name|] == '=';
      if |name| < |k| {
        assert name + "=" == e[..|name| + 1] == k[..|name| + 1];
      } else {
        assert e[..|name|] == k;
      }
    }
  }

  /** An entry of the list says what the variable it was made from says. */
  lemma EntrySays(k: string, value: string, name: string)
    requires '=' !in name
    ensures Defines(Entry(k, value), name) <==> Says(k, value, name).Some?
    ensures Defines(Entry(k, value), name) ==> Entry(k, value)[|name| + 1..] == Says(k, value, name).value
  {
    EntryDefines(k, value, name);
    if k == name {
      assert Entry(k, value) == (name + "=") + value;
    } else if Defines(k, name) {
      assert Entry(k, value)[|name| + 1..] == k[|name| + 1..] + ("=" + value);
    }
  }

  /** The last variable in the order that says something under `name` decides. */
  function LastSays(vars: map<string, string>, order: seq<string>, name: string): Option<string>
  {
    if order == [] then None else
      var n := |order| - 1;
      var k := order[n];
      if k in vars && k != "HOME" && k != "USER" && Says(k, vars[k], name).Some? then Says(k, vars[k], name)
      else LastSays(vars, order[..n], name)
  }

  lemma {:induction false} EntriesLookup(vars: map<string, string>, order: seq<string>, name: string)
    requires '=' !in name
    ensures Lookup(Entries(vars, order), name) == LastSays(vars, order, name)
  {
    hide Defines, Says, Entry;
    if order != [] {
      var n := |order| - 1;
      var k, before := order[n], Entries(vars, order[..n]);
      EntriesLookup(vars, order[..n], name);
      if k in vars {
        EntrySays(k, vars[k], name);
        assert (before + [Entry(k, vars[k])])[..|before|] == before;
      }
    }
  }

  lemma PairLookup(a: string, x: string, b: string, y: string, name: string)
    requires '=' !in name && '=' !in a && '=' !in b
    ensures Lookup([Entry(a, x), Entry(b, y)], name)
            == if name == b then Some(y) else if name == a then Some(x) else None
  {
    EntrySays(a, x, name);
    EntrySays(b, y, name);
    DefinesHasEquals(a, name);
    DefinesHasEquals(b, name);
    hide Defines, Entry;
    var one := [Entry(a, x)];
    assert Lookup(one, name) == if name == a then Some(x) else None by {
      assert one[..0] == [];
    }
    assert (one + [Entry(b, y)])[..1] == one;
  }

  // The list a command is given

  /** What was stored, else the defaults. */
  function Defaulted(stored: Option<string>, name: string): Option<string>
  {
    if stored.Some? then stored
    else if name == "PATH" then Some("/bin:/usr/bin")
    else if name == "LANG" then Some("en_US.UTF8")
    else None
  }

  /** The daemon's home and user, else what was stored, else the defaults. */
  function Seen(host: Host, stored: Option<string>, name: string): Option<string>
  {
    if name == "HOME" then Some(host.home)
    else if name == "USER" then Some(host.user)
    else Defaulted(stored, name)
  }

  /** For every map, every order of iteration and every name that is one. */
  lemma ListingLookup(host: Host, vars: map<string, string>, order: seq<string>, name: string)
    requires '=' !in name
    ensures Lookup(Listing(host, vars, order), name) == Seen(host, LastSays(vars, order, name), name)
  {
    var middle, last := Entries(vars, order), [Entry("HOME", host.home), Entry("USER", host.user)];
    PairLookup("HOME", host.home, "USER", host.user, name);
    PairLookup("PATH", "/bin:/usr/bin", "LANG", "en_US.UTF8", name);
    EntriesLookup(vars, order, name);
    LookupAppend(DEFAULTS, middle, name);
    LookupAppend(DEFAULTS + middle, last, name);
    hide Lookup, Entry, LastSays;
  }

  // When that is what was stored under the name

  lemma {:induction false} LastSaysIsSaid(vars: map<string, string>, order: seq<string>, name: string)
    ensures
      match LastSays(vars, order, name)
      case Some(value) => exists k :: k in order && k in vars && Says(k, vars[k], name) == Some(value)
      case None => forall k :: k in order && k in vars && k != "HOME" && k != "USER" ==> Says(k, vars[k], name).None?
  {
    hide Says;
    if order != [] {
      LastSaysIsSaid(vars, order[..|order| - 1], name);
    }
  }

  lemma SomeOrder(keys: set<string>) returns (order: seq<string>)
    ensures IsOrder(order, keys)
  {
    if keys == {} {
      order := [];
    } else {
      var k :| k in keys;
      order := OrderWithLast(keys, k);
    }
  }

  lemma OrderWithLast(keys: set<string>, k: string) returns (order: seq<string>)
    requires k in keys
    ensures IsOrder(order, keys) && order != [] && order[|order| - 1] == k
  {
    var front := SomeOrder(keys - {k});
    order := front + [k];
  }

  function StoredIn(vars: map<string, string>, name: string): Option<string>
  {
    if name in vars then Some(vars[name]) else None
  }

  /** Does every longer name that speaks for this one say just what is expected? */
  ghost predicate Unmistaken(vars: map<string, string>, name: string)
  {
    forall k :: k in vars && Defines(k, name) ==> Says(k, vars[k], name) == Defaulted(StoredIn(vars, name), name)
  }

  ghost predicate ReadsAsStored(host: Host, vars: map<string, string>, order: seq<string>, name: string)
  {
    Lookup(Listing(host, vars, order), name) == Seen(host, StoredIn(vars, name), name)
  }

  lemma UnmistakenReads(host: Host, vars: map<string, string>, order: seq<string>, name: string)
    requires '=' !in name && Unmistaken(vars, name) && IsOrder(order, vars.Keys)
    ensures ReadsAsStored(host, vars, order, name)
  {
    ListingLookup(host, vars, order, name);
    LastSaysIsSaid(vars, order, name);
    hide Lookup, Listing, LastSays, Defines;
  }

  /** A name that says something else misleads when it comes last. */
  lemma MistakenMisleads(host: Host, vars: map<string, string>, order: seq<string>, name: string)
    requires '=' !in name && name != "HOME" && name != "USER"
    requires order != [] && order[|order| - 1] in vars && Defines(order[|order| - 1], name)
    requires var k := order[|order| - 1]; Says(k, vars[k], name) != Defaulted(StoredIn(vars, name), name)
    ensures !ReadsAsStored(host, vars, order, name)
  {
    DefinesHasEquals(order[|order| - 1], name);
    ListingLookup(host, vars, order, name);
    hide Lookup, Listing, Defines;
  }

  /**
   * A command finds under a name what was stored there, or the default, in whatever order the map is iterated,
   * exactly when all longer names that speak for it say the same. HOME and USER need no such condition.
   */
  lemma ReadsAsStoredExactly(host: Host, vars: map<string, string>, name: string)
    requires '=' !in name
    ensures (forall order :: IsOrder(order, vars.Keys) ==> ReadsAsStored(host, vars, order, name))
            <==> name == "HOME" || name == "USER" || Unmistaken(vars, name)
  {
    if name == "HOME" || name == "USER" {
      forall order ensures ReadsAsStored(host, vars, order, name) {
        ListingLookup(host, vars, order, name);
      }
    } else if Unmistaken(vars, name) {
      forall order | IsOrder(order, vars.Keys) ensures ReadsAsStored(host, vars, order, name) {
        UnmistakenReads(host, vars, order, name);
      }
    } else {
      var k :| k in vars && Defines(k, name) && Says(k, vars[k], name) != Defaulted(StoredIn(vars, name), name);
      var order := OrderWithLast(vars.Keys, k);
      MistakenMisleads(host, vars, order, name);
    }
  }

  // The command of a session

  /** What had happened when the command was created. */
  function BeforeShell(events: seq<Event>): seq<Event>
    requires HadShell(events)
  {
    var n := |events| - 1;
    if HadShell(events[..n]) then BeforeShell(events[..n]) else events[..n]
  }

  lemma {:induction false} CommandIsCreatedThen(host: Host, vars: map<string, string>, events: seq<Event>)
    requires HadShell(events)
    ensures After(host, Opened(vars), events).command.Some?
    ensures After(host, Opened(vars), events).command.value.environment
            == EnvironmentOf(host, After(host, Opened(vars), BeforeShell(events)).vars)
  {
    hide Apply, IsShell, EnvironmentOf;
    var n := |events| - 1;
    if HadShell(events[..n]) {
      CommandIsCreatedThen(host, vars, events[..n]);
    }
    CommandIsFirstShell(host, Opened(vars), events[..n]);
    EventCommand(host, After(host, Opened(vars), events[..n]), n, events[n]);
  }

  /** What the command finds under a name, if there is a command. */
  function Finds(host: Host, vars: map<string, string>, events: seq<Event>, name: string): Option<string>
  {
    match After(host, Opened(vars), events).command
    case None => None
    case Some(command) => Lookup(command.environment, name)
  }

  /** The variables as they are after these events, whatever the order of iteration. */
  function Variables(vars: map<string, string>, events: seq<Event>): map<string, string>
  {
    if events == [] then vars else
      var n := |events| - 1;
      match Stored(events[n])
      case None => Variables(vars, events[..n])
      case Some((name, value)) => Variables(vars, events[..n])[name := value]
  }

  lemma {:induction false} VariablesAreThese(host: Host, vars: map<string, string>, events: seq<Event>)
    ensures After(host, Opened(vars), events).vars == Variables(vars, events)
  {
    hide Apply, Stored;
    if events != [] {
      var n := |events| - 1;
      VariablesAreThese(host, vars, events[..n]);
      EventVars(host, After(host, Opened(vars), events[..n]), n, events[n]);
    }
  }

  /**
   * For every history and every name: the command finds the daemon's value, else what the last variable that
   * speaks for the name says, of those stored before it was created and in the order of iteration, else the default.
   */
  lemma CommandSees(host: Host, vars: map<string, string>, events: seq<Event>, name: string)
    requires HadShell(events) && '=' !in name
    ensures After(host, Opened(vars), events).command.Some?
    ensures var now := Variables(vars, BeforeShell(events));
      Finds(host, vars, events, name) == Seen(host, LastSays(now, host.order(now), name), name)
  {
    hide After, LastSays, Lookup, HadShell, BeforeShell, Listing;
    CommandIsCreatedThen(host, vars, events);
    VariablesAreThese(host, vars, BeforeShell(events));
    var now := Variables(vars, BeforeShell(events));
    ListingLookup(host, now, host.order(now), name);
  }

  ghost function OrderOf(vars: map<string, string>): (order: seq<string>)
    ensures IsOrder(order, vars.Keys)
  {
    AnOrderExists(vars.Keys);
    var order :| IsOrder(order, vars.Keys);
    order
  }

  lemma AnOrderExists(keys: set<string>)
    ensures exists order :: IsOrder(order, keys)
  {
    var order := SomeOrder(keys);
  }

  /** A host may iterate one map in any order it likes. */
  lemma HostWithOrder(vars: map<string, string>, order: seq<string>) returns (host: Host)
    requires IsOrder(order, vars.Keys)
    ensures Iterates(host) && host.order(vars) == order
  {
    host := Host("", "", m => if m == vars then order else OrderOf(m));
    forall m ensures IsOrder(host.order(m), m.Keys) {
    }
  }

  /** Does the command find what was last stored under the name before it was created? */
  ghost predicate FindsLastStored(host: Host, vars: map<string, string>, events: seq<Event>, name: string)
    requires HadShell(events)
  {
    Finds(host, vars, events, name) == Seen(host, LastStored(vars, BeforeShell(events), name), name)
  }

  lemma FindsAsRead(host: Host, vars: map<string, string>, events: seq<Event>, name: string)
    requires HadShell(events) && '=' !in name
    ensures var now := Variables(vars, BeforeShell(events));
      FindsLastStored(host, vars, events, name) <==> ReadsAsStored(host, now, host.order(now), name)
  {
    hide After, LastSays, Lookup, HadShell, BeforeShell, Listing, LastStored, Finds;
    var before := BeforeShell(events);
    CommandSees(host, vars, events, name);
    VariablesAreThese(host, vars, before);
    VariablesAreLastStored(host, vars, before, name);
    var now := Variables(vars, before);
    ListingLookup(host, now, host.order(now), name);
  }

  /**
   * Over all hosts, however they iterate maps, a command finds under a name what was last stored there before it
   * was created, exactly when the longer names that speak for it said the same by then.
   */
  lemma CommandSeesExactly(vars: map<string, string>, events: seq<Event>, name: string)
    requires HadShell(events) && '=' !in name
    ensures (forall host :: Iterates(host) ==> FindsLastStored(host, vars, events, name))
            <==> name == "HOME" || name == "USER" || Unmistaken(Variables(vars, BeforeShell(events)), name)
  {
    hide HadShell, BeforeShell, FindsLastStored, Unmistaken, ReadsAsStored, Variables;
    var now := Variables(vars, BeforeShell(events));
    if name == "HOME" || name == "USER" || Unmistaken(now, name) {
      forall host | Iterates(host) ensures FindsLastStored(host, vars, events, name) {
        FindsAsRead(host, vars, events, name);
        ReadsAsStoredExactly(host, now, name);
        assert IsOrder(host.order(now), now.Keys);
      }
    } else {
      var any := Host("", "", m => OrderOf(m));
      ReadsAsStoredExactly(any, now, name);
      var order :| IsOrder(order, now.Keys) && !ReadsAsStored(any, now, order, name);
      var host := HostWithOrder(now, order);
      SameForAllHosts(any, host, now, order, name);
      FindsAsRead(host, vars, events, name);
    }
  }

  lemma SameForAllHosts(a: Host, b: Host, vars: map<string, string>, order: seq<string>, name: string)
    requires '=' !in name && name != "HOME" && name != "USER"
    ensures ReadsAsStored(a, vars, order, name) <==> ReadsAsStored(b, vars, order, name)
  {
    ListingLookup(a, vars, order, name);
    ListingLookup(b, vars, order, name);
    hide Lookup, Listing, LastSays;
  }

  /** Names without equals signs, the usual case, are never mistaken for one another. */
  lemma PlainNamesAreUnmistaken(vars: map<string, string>, name: string)
    requires forall k :: k in vars ==> '=' !in k
    ensures Unmistaken(vars, name)
  {
    forall k | k in vars ensures !Defines(k, name) {
      DefinesHasEquals(k, name);
    }
  }
}
