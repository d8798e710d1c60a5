/**
 * The accept loop, the connection handlers and any number of shutdowns, in every interleaving.
 *
 * A step is what one goroutine does between two points where another may come in.
 */
module Server {
  import opened Prelude

  type Conn = nat
  type Thread = nat

  /** Where a goroutine stands: what it does next. */
  datatype Place =
    // the accept loop
    | Accepting
    | Registering(conn: Conn)
    | Adding(conn: Conn)
    | Counting(conn: Conn)
    | Registered(conn: Conn)
    | Spawning(conn: Conn)
    // asking whether the server is stopping
    | Asking
    | Answering
    // a connection's handler
    | Handling(conn: Conn)
    | Leaving(conn: Conn)
    | Deleting(conn: Conn)
    | Uncounting
    | Deleted
    // a shutdown
    | Stopping
    | Deciding
    | Unlistening
    | Closing
    | Sweeping(left: set<Conn>)
    | Swept
    | Waiting
    | Waited
    | Done

  /** The server's fields; `accepted`, `closed`, `swept` and `sweeps` record what was done. */
  datatype Shared = Shared(
    mutex: Option<Thread>,
    connectionsMutex: Option<Thread>,
    stopping: bool,
    listening: bool,
    connections: set<Conn>,
    waitGroup: int,
    accepted: set<Conn>,
    closed: set<Conn>,
    swept: Option<set<Conn>>,
    sweeps: nat)

  datatype State = State(threads: map<Thread, Place>, g: Shared)

  const IDLE := State(map[], Shared(None, None, false, true, {}, 0, {}, {}, None, 0))

  /** What a goroutine does by itself; a temporary error of accept is followed by another try. */
  datatype Move = Accept(conn: Conn) | AcceptRetries | AcceptFails | CloseOne(conn: Conn) | Go

  datatype Step =
    | Call(thread: Thread, place: Place)
    | Fork(thread: Thread, handler: Thread)
    | Local(thread: Thread, move: Move)

  predicate WantsMutex(p: Place)
  {
    p.Asking? || p.Stopping?
  }

  predicate WantsConnections(p: Place)
  {
    p.Registering? || p.Leaving? || p.Closing?
  }

  predicate Can(g: Shared, p: Place, m: Move)
  {
    match m
    case Accept(c) => p.Accepting? && g.listening && c !in g.accepted
    case AcceptRetries => p.Accepting?
    case AcceptFails => p.Accepting?
    case CloseOne(c) => p.Sweeping? && c in p.left
    case Go =>
      if WantsMutex(p) then g.mutex.None?
      else if WantsConnections(p) then g.connectionsMutex.None?
      else if p.Sweeping? then p.left == {}
      else if p.Waiting? then g.waitGroup == 0
      else !p.Accepting? && !p.Spawning? && !p.Done?
  }

  function Onward(g: Shared, p: Place, m: Move): Place
    requires Can(g, p, m)
  {
    match m
    case Accept(c) => Registering(c)
    case AcceptRetries => Accepting
    case AcceptFails => Asking
    case CloseOne(c) => Sweeping(p.left - {c})
    case Go =>
      match p
      case Registering(c) => Adding(c)
      case Adding(c) => Counting(c)
      case Counting(c) => Registered(c)
      case Registered(c) => Spawning(c)
      case Asking => Answering
      case Answering => Done
      case Handling(c) => Leaving(c)
      case Leaving(c) => Deleting(c)
      case Deleting(c) => Uncounting
      case Uncounting => Deleted
      case Deleted => Done
      case Stopping => Deciding
      case Deciding => if g.stopping then Waiting else Unlistening
      case Unlistening => Closing
      case Closing => Sweeping(g.connections)
      case Sweeping(_) => Swept
      case Swept => Waiting
      case Waiting => Waited
      case Waited => Done
  }

  function Effect(g: Shared, t: Thread, p: Place, m: Move): Shared
    requires Can(g, p, m)
  {
    match m
    case Accept(c) => g.(accepted := g.accepted + {c})
    case AcceptRetries | AcceptFails => g
    case CloseOne(c) => g.(closed := g.closed + {c})
    case Go =>
      match p
      case Registering(_) | Leaving(_) => g.(connectionsMutex := Some(t))
      case Adding(c) => g.(connections := g.connections + {c})
      case Counting(_) => g.(waitGroup := g.waitGroup + 1)
      case Deleting(c) => g.(connections := g.connections - {c})
      case Uncounting => g.(waitGroup := g.waitGroup - 1)
      case Registered(_) | Deleted | Swept => g.(connectionsMutex := None)
      case Asking | Stopping => g.(mutex := Some(t))
      case Answering | Waited => g.(mutex := None)
      case Deciding => g.(stopping := true)
      case Unlistening => g.(listening := false)
      case Closing => g.(connectionsMutex := Some(t), swept := Some(g.connections), sweeps := g.sweeps + 1)
      case Handling(_) | Sweeping(_) | Waiting => g
  }

  predicate Enabled(s: State, step: Step)
  {
    match step
    case Call(t, p) => t !in s.threads && (p.Accepting? || p.Asking? || p.Stopping?)
    case Fork(t, u) => t in s.threads && s.threads[t].Spawning? && u !in s.threads
    case Local(t, m) => t in s.threads && Can(s.g, s.threads[t], m)
  }

  function Next(s: State, step: Step): State
    requires Enabled(s, step)
  {
    match step
    case Call(t, p) => s.(threads := s.threads[t := p])
    case Fork(t, u) => s.(threads := s.threads[t := Accepting][u := Handling(s.threads[t].conn)])
    case Local(t, m) => State(s.threads[t := Onward(s.g, s.threads[t], m)], Effect(s.g, t, s.threads[t], m))
  }

  predicate Legal(s: State, run: seq<Step>)
    decreases |run|
  {
    run != [] ==> Enabled(s, run[0]) && Legal(Next(s, run[0]), run[1..])
  }

  function End(s: State, run: seq<Step>): State
    requires Legal(s, run)
    decreases |run|
  {
    if run == [] then s else End(Next(s, run[0]), run[1..])
  }

  // What every step keeps

  predicate HoldsConnections(p: Place)
  {
    p.Adding? || p.Counting? || p.Registered? || p.Deleting? || p.Uncounting? || p.Deleted? || p.Sweeping? || p.Swept?
  }

  predicate HoldsMutex(p: Place)
  {
    || p.Answering? || p.Deciding? || p.Unlistening? || p.Closing? || p.Sweeping? || p.Swept? || p.Waiting? || p.Waited?
  }

  predicate LockOf(g: Shared, t: Thread, p: Place)
  {
    && (HoldsMutex(p) <==> g.mutex == Some(t))
    && (HoldsConnections(p) <==> g.connectionsMutex == Some(t))
  }

  /** The locks are held by the goroutines whose place says so. */
  ghost predicate Locks(s: State)
  {
    && (s.g.mutex.Some? ==> s.g.mutex.value in s.threads)
    && (s.g.connectionsMutex.Some? ==> s.g.connectionsMutex.value in s.threads)
    && forall t :: t in s.threads ==> LockOf(s.g, t, s.threads[t])
  }

  /** A lock is taken when free, and given back by its holder. */
  predicate LockMove(t: Thread, held: bool, before: Option<Thread>, holds: bool, after: Option<Thread>)
  {
    if held == holds then after == before
    else if holds then before.None? && after == Some(t)
    else after.None?
  }

  lemma MoveKeepsLock(g: Shared, t: Thread, p: Place, m: Move)
    requires Can(g, p, m)
    ensures var q, k := Onward(g, p, m), Effect(g, t, p, m);
      && LockMove(t, HoldsMutex(p), g.mutex, HoldsMutex(q), k.mutex)
      && LockMove(t, HoldsConnections(p), g.connectionsMutex, HoldsConnections(q), k.connectionsMutex)
  {
  }

  lemma StepKeepsLocks(s: State, step: Step)
    requires Locks(s) && Enabled(s, step)
    ensures Locks(Next(s, step))
  {
    if step.Local? {
      MoveKeepsLock(s.g, step.thread, s.threads[step.thread], step.move);
      hide Can, Onward, Effect, HoldsMutex, HoldsConnections;
    }
  }

  predicate Untracked(p: Place)
  {
    p.Registering? || p.Adding?
  }

  predicate Tracked(p: Place)
  {
    p.Counting? || p.Registered? || p.Spawning? || p.Handling? || p.Leaving? || p.Deleting?
  }

  predicate Owns(p: Place)
  {
    Untracked(p) || Tracked(p)
  }

  predicate OwnerOf(g: Shared, p: Place)
  {
    && (Owns(p) ==> p.conn in g.accepted)
    && (Owns(p) ==> (Tracked(p) <==> p.conn in g.connections))
  }

  ghost predicate NoSharing(threads: map<Thread, Place>)
  {
    forall t, u :: t in threads && u in threads && t != u && Owns(threads[t]) && Owns(threads[u])
      ==> threads[t].conn != threads[u].conn
  }

  /** Every accepted connection is looked after by one goroutine, whose place says whether it is in the set. */
  ghost predicate Owners(s: State)
  {
    && s.g.connections <= s.g.accepted
    && NoSharing(s.threads)
    && forall t :: t in s.threads ==> OwnerOf(s.g, s.threads[t])
  }

  /** How a goroutine may keep, register, deregister or take on a connection. */
  predicate OwnerMove(g: Shared, p: Place, k: Shared, q: Place)
  {
    if k.accepted != g.accepted then
      && !Owns(p) && Owns(q) && !Tracked(q) && q.conn !in g.accepted
      && k.connections == g.connections && k.accepted == g.accepted + {q.conn}
    else if Owns(q) then
      && Owns(p) && p.conn == q.conn
      && k.connections == (if Tracked(q) && !Tracked(p) then g.connections + {p.conn} else g.connections)
      && (Tracked(p) ==> Tracked(q))
    else
      k.connections == (if Owns(p) then g.connections - {p.conn} else g.connections)
  }

  lemma MoveKeepsOwner(g: Shared, t: Thread, p: Place, m: Move)
    requires Can(g, p, m)
    ensures OwnerMove(g, p, Effect(g, t, p, m), Onward(g, p, m))
  {
  }

  lemma StepKeepsOwners(s: State, step: Step)
    requires Owners(s) && Enabled(s, step)
    ensures Owners(Next(s, step))
  {
    if step.Local? {
      MoveKeepsOwner(s.g, step.thread, s.threads[step.thread], step.move);
      hide Can, Onward, Effect, Owns, Tracked, Untracked;
    }
  }

  predicate OwnedBy(s: State, c: Conn, t: Thread)
  {
    t in s.threads && Tracked(s.threads[t]) && s.threads[t].conn == c
  }

  /** Every tracked connection still has its goroutine. */
  ghost predicate Attended(s: State)
  {
    forall c :: c in s.g.connections ==> exists t :: OwnedBy(s, c, t)
  }

  lemma StepKeepsAttended(s: State, step: Step)
    requires Owners(s) && Attended(s) && Enabled(s, step)
    ensures Attended(Next(s, step))
  {
    if step.Local? {
      MoveKeepsOwner(s.g, step.thread, s.threads[step.thread], step.move);
      hide Can, Onward, Effect;
    }
    var r := Next(s, step);
    forall c | c in r.g.connections ensures exists t :: OwnedBy(r, c, t) {
      if c in s.g.connections {
        var t :| OwnedBy(s, c, t);
        assert OwnedBy(r, c, if step.Fork? && step.thread == t then step.handler else t);
      } else {
        assert OwnedBy(r, c, step.thread);
      }
    }
  }

  // The count

  /** What the goroutine in the critical section has still to add to the count. */
  function Owed(p: Place): int
  {
    if p.Counting? then 1 else if p.Uncounting? then -1 else 0
  }

  function Pending(s: State): int
  {
    match s.g.connectionsMutex
    case None => 0
    case Some(t) => if t in s.threads then Owed(s.threads[t]) else 0
  }

  ghost predicate Counts(s: State)
  {
    s.g.waitGroup + Pending(s) == |s.g.connections|
  }

  lemma MoveKeepsCount(g: Shared, t: Thread, p: Place, m: Move)
    requires Can(g, p, m) && OwnerOf(g, p)
    ensures var q, k := Onward(g, p, m), Effect(g, t, p, m);
      k.waitGroup - g.waitGroup + Owed(q) - Owed(p) == |k.connections| - |g.connections|
    ensures !HoldsConnections(p) ==> Owed(p) == 0
    ensures !HoldsConnections(Onward(g, p, m)) ==> Owed(Onward(g, p, m)) == 0
  {
  }

  lemma StepKeepsCounts(s: State, step: Step)
    requires Locks(s) && Owners(s) && Counts(s) && Enabled(s, step)
    ensures Counts(Next(s, step))
  {
    if step.Local? {
      var t, p := step.thread, s.threads[step.thread];
      assert LockOf(s.g, t, p) && OwnerOf(s.g, p);
      MoveKeepsCount(s.g, t, p, step.move);
      MoveKeepsLock(s.g, t, p, step.move);
      hide Can, Onward, Effect, Owed, HoldsConnections, Locks, Owners;
    }
  }

  // The sweep

  predicate AboutToSweep(p: Place)
  {
    p.Unlistening? || p.Closing?
  }

  /** What a place says about the sweep. */
  predicate SweepOf(g: Shared, p: Place)
  {
    && (AboutToSweep(p) ==> g.stopping && g.swept.None?)
    && (p.Closing? ==> !g.listening)
    && (HoldsMutex(p) && !AboutToSweep(p) ==> g.stopping == g.swept.Some?)
    && (p.Sweeping? ==> g.swept == Some(g.connections) && p.left !! g.closed && p.left + g.closed == g.connections)
    && (p.Swept? ==> g.swept == Some(g.connections) && g.closed == g.connections)
    && (p.Waiting? || p.Waited? ==> g.swept.Some?)
    && ((p.Registering? || p.Adding? || p.Counting?) && g.swept.Some? ==> p.conn !in g.swept.value)
  }

  /** The sweep, seen when nobody is at it. */
  predicate SweepDone(g: Shared)
  {
    if g.swept.None? then g.closed == {} else g.closed == g.swept.value
  }

  predicate InSweep(s: State)
  {
    match s.g.connectionsMutex
    case None => false
    case Some(t) => t in s.threads && s.threads[t].Sweeping?
  }

  predicate SweepsOnce(g: Shared)
  {
    && g.sweeps == (if g.swept.Some? then 1 else 0)
    && (g.swept.Some? ==> g.stopping && !g.listening && g.swept.value <= g.accepted)
    && (g.mutex.None? ==> g.stopping == g.swept.Some?)
  }

  ghost predicate Sweeps(s: State)
  {
    && SweepsOnce(s.g)
    && (!InSweep(s) ==> SweepDone(s.g))
    && forall t :: t in s.threads ==> SweepOf(s.g, s.threads[t])
  }

  lemma MoveKeepsSweep(g: Shared, t: Thread, p: Place, m: Move)
    requires Can(g, p, m) && LockOf(g, t, p) && OwnerOf(g, p) && SweepsOnce(g) && SweepOf(g, p)
    requires g.connections <= g.accepted && (g.connectionsMutex.None? ==> SweepDone(g))
    ensures SweepsOnce(Effect(g, t, p, m)) && SweepOf(Effect(g, t, p, m), Onward(g, p, m))
  {
  }

  /** A goroutine that waits elsewhere meanwhile finds the sweep as it expects. */
  lemma MoveKeepsOthersSweep(g: Shared, t: Thread, p: Place, m: Move, u: Thread, other: Place)
    requires Can(g, p, m) && LockOf(g, t, p) && SweepsOnce(g) && SweepOf(g, p)
    requires t != u && LockOf(g, u, other) && OwnerOf(g, other) && SweepOf(g, other)
    ensures SweepOf(Effect(g, t, p, m), other)
  {
  }

  lemma MoveKeepsSweepDone(g: Shared, t: Thread, p: Place, m: Move)
    requires Can(g, p, m) && SweepOf(g, p) && SweepsOnce(g)
    requires p.Sweeping? || SweepDone(g)
    ensures Onward(g, p, m).Sweeping? || SweepDone(Effect(g, t, p, m))
  {
  }

  lemma StepKeepsSweeps(s: State, step: Step)
    requires Locks(s) && Owners(s) && Sweeps(s) && Enabled(s, step)
    ensures Sweeps(Next(s, step))
  {
    if step.Local? {
      var t, p, m := step.thread, s.threads[step.thread], step.move;
      var r := Next(s, step);
      hide Can, Onward, Effect, OwnerOf, SweepOf, SweepsOnce, SweepDone, HoldsMutex;
      MoveKeepsSweep(s.g, t, p, m);
      forall u | u in r.threads ensures SweepOf(r.g, r.threads[u]) {
        if u != t {
          MoveKeepsOthersSweep(s.g, t, p, m, u, s.threads[u]);
        }
      }
      assert !InSweep(r) ==> SweepDone(r.g) by {
        MoveKeepsLock(s.g, t, p, m);
        if !InSweep(s) || p.Sweeping? {
          MoveKeepsSweepDone(s.g, t, p, m);
        }
      }
    }
  }

  ghost predicate Consistent(s: State)
  {
    Locks(s) && Owners(s) && Attended(s) && Counts(s) && Sweeps(s)
  }

  lemma StepKeepsConsistent(s: State, step: Step)
    requires Consistent(s) && Enabled(s, step)
    ensures Consistent(Next(s, step))
  {
    hide Locks, Owners, Attended, Counts, Sweeps, Enabled, Next;
    StepKeepsLocks(s, step);
    StepKeepsOwners(s, step);
    StepKeepsAttended(s, step);
    StepKeepsCounts(s, step);
    StepKeepsSweeps(s, step);
  }

  lemma {:induction false} RunKeepsConsistent(s: State, run: seq<Step>)
    requires Consistent(s) && Legal(s, run)
    ensures Consistent(End(s, run))
    decreases |run|
  {
    hide Consistent, Enabled, Next;
    if run != [] {
      StepKeepsConsistent(s, run[0]);
      RunKeepsConsistent(Next(s, run[0]), run[1..]);
    }
  }

  ghost predicate Leads(s: State, r: State)
  {
    exists run :: Legal(s, run) && End(s, run) == r
  }

  ghost predicate Reachable(s: State)
  {
    Leads(IDLE, s)
  }

  lemma ReachableIsConsistent(s: State)
    requires Reachable(s)
    ensures Consistent(s)
  {
    var run :| Legal(IDLE, run) && End(IDLE, run) == s;
    RunKeepsConsistent(IDLE, run);
  }

  // What that means

  /** Outside the critical sections the count is the number of tracked connections; it is never negative. */
  lemma CountIsConnections(s: State)
    requires Reachable(s)
    ensures s.g.connectionsMutex.None? ==> s.g.waitGroup == |s.g.connections|
    ensures s.g.waitGroup >= 0
  {
    ReachableIsConsistent(s);
    var g := s.g;
    if g.connectionsMutex.Some? {
      var p := s.threads[g.connectionsMutex.value];
      assert OwnerOf(g, p);
      assert p.Counting? ==> p.conn in g.connections;
    }
  }

  /**
   * The sweep takes place at most once, after the decision to stop; what it covers is what is tracked when it
   * begins, nothing else is ever closed, and when it is over all of that is.
   */
  lemma SweepHappensOnce(s: State)
    requires Reachable(s)
    ensures s.g.sweeps <= 1 && (s.g.swept.Some? <==> s.g.sweeps == 1)
    ensures s.g.swept.Some? ==> s.g.stopping && !s.g.listening
    ensures s.g.closed <= if s.g.swept.Some? then s.g.swept.value else {}
    ensures s.g.swept.Some? && !InSweep(s) ==> s.g.closed == s.g.swept.value
    ensures s.g.stopping && s.g.mutex.None? ==> s.g.swept.Some?
  {
    ReachableIsConsistent(s);
    if InSweep(s) {
      assert SweepOf(s.g, s.threads[s.g.connectionsMutex.value]);
    }
  }

  lemma SweepCoversTracked(s: State, step: Step)
    requires Reachable(s) && Enabled(s, step) && Next(s, step).g.swept != s.g.swept
    ensures s.g.swept.None? && Next(s, step).g.swept == Some(s.g.connections)
  {
    ReachableIsConsistent(s);
    MoveSweepsFromClosing(s.g, step.thread, s.threads[step.thread], step.move);
    assert SweepOf(s.g, s.threads[step.thread]);
    hide Can, Onward, Effect, Locks, Owners, Attended, Counts;
  }

  lemma MoveSweepsFromClosing(g: Shared, t: Thread, p: Place, m: Move)
    requires Can(g, p, m)
    ensures Effect(g, t, p, m).swept != g.swept ==> p.Closing? && Effect(g, t, p, m).swept == Some(g.connections)
  {
  }

  /** Neither the decision to stop nor the sweep is ever taken back. */
  lemma {:induction false} StoppingIsForGood(s: State, run: seq<Step>)
    requires Reachable(s) && Legal(s, run)
    ensures s.g.stopping ==> End(s, run).g.stopping
    ensures s.g.swept.Some? ==> End(s, run).g.swept == s.g.swept
    ensures s.g.closed <= End(s, run).g.closed
    decreases |run|
  {
    if run != [] {
      var r := Next(s, run[0]);
      LeadsOn(IDLE, s, run[0]);
      if r.g.swept != s.g.swept {
        SweepCoversTracked(s, run[0]);
      }
      StoppingIsForGood(r, run[1..]);
    }
  }

  lemma {:induction false} EndOfLonger(s: State, run: seq<Step>, step: Step)
    requires Legal(s, run) && Enabled(End(s, run), step)
    ensures Legal(s, run + [step]) && End(s, run + [step]) == Next(End(s, run), step)
    decreases |run|
  {
    hide Enabled, Next;
    if run == [] {
      assert run + [step] == [step];
    } else {
      assert (run + [step])[1..] == run[1..] + [step];
      EndOfLonger(Next(s, run[0]), run[1..], step);
    }
  }

  lemma LeadsOn(s: State, r: State, step: Step)
    requires Leads(s, r) && Enabled(r, step)
    ensures Leads(s, Next(r, step))
  {
    var run :| Legal(s, run) && End(s, run) == r;
    EndOfLonger(s, run, step);
  }

  /**
   * When a shutdown gets past its wait, every connection tracked at the sweep was closed and has left the set;
   * the set is empty, but for a connection whose registration is going on.
   */
  lemma WaitPassesAtZero(s: State, t: Thread)
    requires Reachable(s) && t in s.threads && s.threads[t].Waiting? && Enabled(s, Local(t, Go))
    ensures s.g.waitGroup == 0
    ensures s.g.swept.Some? && s.g.closed == s.g.swept.value && s.g.swept.value !! s.g.connections
    ensures s.g.connectionsMutex.None? ==> s.g.connections == {}
    ensures |s.g.connections| <= 1
  {
    ReachableIsConsistent(s);
    var g := s.g;
    assert SweepOf(g, s.threads[t]) && LockOf(g, t, s.threads[t]);
    if g.connectionsMutex.Some? {
      var h := g.connectionsMutex.value;
      var p := s.threads[h];
      assert SweepOf(g, p) && OwnerOf(g, p) && LockOf(g, h, p);
      if |g.connections| > 0 {
        assert p.Counting? && p.conn in g.connections && |g.connections| == 1;
        assert |g.connections - {p.conn}| == 0;
        assert g.connections == {p.conn};
      }
    }
  }

  lemma HolderNeedsNothing(g: Shared, p: Place)
    requires HoldsConnections(p)
    ensures exists m :: Can(g, p, m)
  {
    if p.Sweeping? && p.left != {} {
      var c :| c in p.left;
      assert Can(g, p, CloseOne(c));
    } else {
      assert Can(g, p, Go);
    }
  }

  /** The mutexes are nested one way: who holds the connections' mutex never waits for a lock, nor for the count. */
  lemma LockOrder(s: State, t: Thread)
    requires Reachable(s) && t in s.threads
    ensures WantsMutex(s.threads[t]) ==> s.g.mutex != Some(t) && s.g.connectionsMutex != Some(t)
    ensures WantsConnections(s.threads[t]) ==> s.g.connectionsMutex != Some(t)
    ensures s.g.connectionsMutex == Some(t) ==> exists m :: Can(s.g, s.threads[t], m)
  {
    ReachableIsConsistent(s);
    assert LockOf(s.g, t, s.threads[t]);
    if s.g.connectionsMutex == Some(t) {
      HolderNeedsNothing(s.g, s.threads[t]);
    }
  }

  /** Can some goroutine go on, without anybody being called? */
  ghost predicate Live(s: State)
  {
    exists step: Step :: Enabled(s, step) && !step.Call?
  }

  lemma HolderGoesOn(s: State)
    requires Reachable(s) && s.g.connectionsMutex.Some?
    ensures Live(s)
  {
    ReachableIsConsistent(s);
    var t := s.g.connectionsMutex.value;
    LockOrder(s, t);
    var m :| Can(s.g, s.threads[t], m);
    assert Enabled(s, Local(t, m));
  }

  lemma SpawnerGoesOn(s: State, t: Thread)
    requires t in s.threads && s.threads[t].Spawning?
    ensures Live(s)
  {
    var u := Unused(s.threads.Keys);
    assert Enabled(s, Fork(t, u));
  }

  lemma Unused(used: set<Thread>) returns (u: Thread)
    ensures u !in used && forall t :: t in used ==> t < u
  {
    if used == {} {
      u := 0;
    } else {
      var t :| t in used;
      var v := Unused(used - {t});
      u := if t < v then v else t + 1;
      forall x | x in used ensures x < u {
        assert x == t || x in used - {t};
      }
    }
  }

  /** Who holds the mutex and waits for the count is not waited for: some connection's goroutine can go on. */
  lemma MutexHolderIsNotStuck(s: State)
    requires Reachable(s) && s.g.mutex.Some?
    ensures Live(s)
  {
    ReachableIsConsistent(s);
    var t := s.g.mutex.value;
    var p := s.threads[t];
    if s.g.connectionsMutex.Some? {
      HolderGoesOn(s);
    } else if p.Waiting? && s.g.waitGroup != 0 {
      assert |s.g.connections| != 0;
      var c :| c in s.g.connections;
      var u :| OwnedBy(s, c, u);
      if s.threads[u].Spawning? {
        SpawnerGoesOn(s, u);
      } else {
        assert LockOf(s.g, u, s.threads[u]);
        assert Enabled(s, Local(u, Go));
      }
    } else {
      assert LockOf(s.g, t, p);
      assert Enabled(s, Local(t, Go));
    }
  }

  /** No deadlock: as long as one goroutine has not ended, one can go on. */
  lemma NoDeadlock(s: State, t: Thread)
    requires Reachable(s) && t in s.threads && !s.threads[t].Done?
    ensures Live(s)
  {
    var p := s.threads[t];
    if s.g.connectionsMutex.Some? {
      HolderGoesOn(s);
    } else if s.g.mutex.Some? {
      MutexHolderIsNotStuck(s);
    } else if p.Spawning? {
      SpawnerGoesOn(s, t);
    } else if p.Accepting? {
      assert Enabled(s, Local(t, AcceptFails));
    } else {
      ReachableIsConsistent(s);
      assert LockOf(s.g, t, p);
      assert Enabled(s, Local(t, Go));
    }
  }
}
