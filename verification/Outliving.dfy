/**
 * Which connections outlive a shutdown.
 *
 * The closing sweep covers what is tracked when it begins. A connection that was accepted by then but not yet
 * registered escapes it, and only such a one does.
 */
module Outliving {
  import opened Prelude
  import opened Server

  /** The goroutine `t` of a shutdown is about to begin the sweep. */
  ghost predicate SweepBegins(s: State, t: Thread)
  {
    Reachable(s) && t in s.threads && s.threads[t].Closing? && s.g.connectionsMutex.None?
  }

  predicate Arriving(s: State, u: Thread)
  {
    u in s.threads && s.threads[u].Registering?
  }

  /** In `s` the shutdown is over, and a connection is still tracked and was never closed. */
  predicate Outlived(s: State, t: Thread)
  {
    t in s.threads && s.threads[t].Done? && s.g.connections - s.g.closed != {}
  }

  function AtSweep(s: State, t: Thread): State
    requires t in s.threads && s.threads[t].Closing? && s.g.connectionsMutex.None?
  {
    Next(s, Local(t, Go))
  }

  // Without an arrival nothing is left

  predicate Shutting(p: Place)
  {
    p.Sweeping? || p.Swept? || p.Waiting? || p.Waited? || p.Done?
  }

  predicate Settled(p: Place)
  {
    !p.Registering? && !p.Adding? && !p.Counting?
  }

  /** Nobody is on the way to register a connection, nor ever will be, and the shutdown waits for the others. */
  ghost predicate Winds(s: State, t: Thread)
  {
    && !s.g.listening
    && (forall u :: u in s.threads ==> Settled(s.threads[u]))
    && t in s.threads && Shutting(s.threads[t])
    && (s.threads[t].Waited? || s.threads[t].Done? ==> s.g.connections == {})
  }

  ghost predicate Winding(s: State, t: Thread)
  {
    Consistent(s) && Winds(s, t)
  }

  lemma MoveStaysSettled(g: Shared, t: Thread, p: Place, m: Move)
    requires Can(g, p, m) && Settled(p) && !g.listening
    ensures Settled(Onward(g, p, m)) && !Effect(g, t, p, m).listening
    ensures Effect(g, t, p, m).connections <= g.connections
    ensures Shutting(p) ==> Shutting(Onward(g, p, m))
    ensures Shutting(p) && Onward(g, p, m).Waited?
            ==> g.waitGroup == 0 && Effect(g, t, p, m).connections == g.connections
    ensures Onward(g, p, m).Done? && Shutting(p) ==> p.Waited?
  {
  }

  lemma ZeroIsEmpty(s: State, t: Thread)
    requires Winding(s, t) && s.g.waitGroup == 0
    ensures s.g.connections == {}
  {
    hide Owners, Attended, Sweeps;
    assert Pending(s) <= 0;
  }

  lemma LocalWinds(s: State, t: Thread, u: Thread, m: Move)
    requires Winds(s, t) && Enabled(s, Local(u, m)) && (s.g.waitGroup == 0 ==> s.g.connections == {})
    ensures Winds(Next(s, Local(u, m)), t)
  {
    MoveStaysSettled(s.g, u, s.threads[u], m);
    hide Can, Onward, Effect, Settled, Shutting;
  }

  lemma StepKeepsWinding(s: State, t: Thread, step: Step)
    requires Winding(s, t) && Enabled(s, step)
    ensures Winding(Next(s, step), t)
  {
    hide Consistent, Can, Onward, Effect;
    StepKeepsConsistent(s, step);
    if s.g.waitGroup == 0 {
      ZeroIsEmpty(s, t);
    }
    if step.Local? {
      LocalWinds(s, t, step.thread, step.move);
    }
  }

  lemma {:induction false} RunKeepsWinding(s: State, t: Thread, run: seq<Step>)
    requires Winding(s, t) && Legal(s, run)
    ensures Winding(End(s, run), t)
    decreases |run|
  {
    hide Winding, Enabled, Next;
    if run != [] {
      StepKeepsWinding(s, t, run[0]);
      RunKeepsWinding(Next(s, run[0]), t, run[1..]);
    }
  }

  lemma ClosingHeardNobody(s: State, t: Thread)
    requires Consistent(s) && t in s.threads && s.threads[t].Closing?
    ensures !s.g.listening
  {
    assert SweepOf(s.g, s.threads[t]);
  }

  lemma SweeperIsSettled(left: set<Conn>)
    ensures Settled(Sweeping(left))
  {
  }

  lemma SettledWithoutArrivals(s: State)
    requires Consistent(s) && s.g.connectionsMutex.None? && forall u :: !Arriving(s, u)
    ensures forall u :: u in s.threads ==> Settled(s.threads[u])
  {
    forall u | u in s.threads ensures Settled(s.threads[u]) {
      assert LockOf(s.g, u, s.threads[u]) && !Arriving(s, u);
    }
  }

  lemma SweepWinds(s: State, t: Thread)
    requires SweepBegins(s, t) && forall u :: !Arriving(s, u)
    ensures Winding(AtSweep(s, t), t)
  {
    hide Consistent, Settled, Reachable, Arriving;
    ReachableIsConsistent(s);
    StepKeepsConsistent(s, Local(t, Go));
    ClosingHeardNobody(s, t);
    SettledWithoutArrivals(s);
    SweeperIsSettled(s.g.connections);
  }

  /** When nobody is arriving as the sweep begins, nothing is tracked once the shutdown is over, then or ever. */
  lemma NothingOutlives(s: State, t: Thread, run: seq<Step>)
    requires SweepBegins(s, t) && forall u :: !Arriving(s, u)
    requires Legal(AtSweep(s, t), run)
    ensures var r := End(AtSweep(s, t), run); t in r.threads && (r.threads[t].Done? ==> r.g.connections == {})
  {
    SweepWinds(s, t);
    RunKeepsWinding(AtSweep(s, t), t, run);
  }

  // With an arrival something may be

  /** `s` can become `r`, in which `u` is still about to register `c` and `t` stands at `p`. */
  ghost predicate Comes(s: State, r: State, t: Thread, p: Place, u: Thread, c: Conn)
  {
    && Leads(s, r) && Consistent(r)
    && t in r.threads && r.threads[t] == p
    && u in r.threads && r.threads[u] == Registering(c)
  }

  lemma ComesOn(s: State, r: State, t: Thread, p: Place, u: Thread, c: Conn, v: Thread, m: Move) returns (r': State)
    requires Comes(s, r, t, p, u, c) && v in r.threads && v != u && Can(r.g, r.threads[v], m)
    ensures r' == State(r.threads[v := Onward(r.g, r.threads[v], m)], Effect(r.g, v, r.threads[v], m))
    ensures Comes(s, r', t, if v == t then Onward(r.g, p, m) else p, u, c)
  {
    hide Consistent, Leads, Can, Onward, Effect;
    r' := Next(r, Local(v, m));
    LeadsOn(s, r, Local(v, m));
    StepKeepsConsistent(r, Local(v, m));
  }

  /** The sweep closes what is left, one by one. */
  lemma SweepOut(s: State, r: State, t: Thread, left: set<Conn>, u: Thread, c: Conn) returns (r': State)
    requires Comes(s, r, t, Sweeping(left), u, c)
    ensures Comes(s, r', t, Sweeping({}), u, c)
    decreases |left|
  {
    hide Comes;
    if left == {} {
      r' := r;
    } else {
      var d :| d in left;
      r' := CloseNext(s, r, t, left, d, u, c);
      r' := SweepOut(s, r', t, left - {d}, u, c);
    }
  }

  lemma CloseNext(s: State, r: State, t: Thread, left: set<Conn>, d: Conn, u: Thread, c: Conn) returns (r': State)
    requires Comes(s, r, t, Sweeping(left), u, c) && d in left
    ensures Comes(s, r', t, Sweeping(left - {d}), u, c)
  {
    hide Leads, Consistent;
    r' := ComesOn(s, r, t, Sweeping(left), u, c, t, CloseOne(d));
  }

  lemma SweepEnds(s: State, r: State, t: Thread, u: Thread, c: Conn) returns (r': State)
    requires Comes(s, r, t, Sweeping({}), u, c)
    ensures Comes(s, r', t, Waiting, u, c) && r'.g.connectionsMutex.None?
  {
    hide Leads, Consistent;
    r' := ComesOn(s, r, t, Sweeping({}), u, c, t, Go);
    r' := ComesOn(s, r', t, Swept, u, c, t, Go);
  }

  /** A handler that is leaving takes its connection out of the set. */
  lemma LeaverEnds(s: State, r: State, t: Thread, u: Thread, c: Conn, v: Thread, d: Conn) returns (r': State)
    requires Comes(s, r, t, Waiting, u, c) && v in r.threads && r.threads[v] == Leaving(d)
    requires r.g.connectionsMutex.None?
    ensures Comes(s, r', t, Waiting, u, c)
    ensures r'.g.connectionsMutex.None? && r'.g.connections == r.g.connections - {d}
  {
    hide Leads, Consistent;
    r' := ComesOn(s, r, t, Waiting, u, c, v, Go);
    r' := ComesOn(s, r', t, Waiting, u, c, v, Go);
    r' := ComesOn(s, r', t, Waiting, u, c, v, Go);
    r' := ComesOn(s, r', t, Waiting, u, c, v, Go);
  }

  lemma HandlerStarts(s: State, r: State, t: Thread, u: Thread, c: Conn, v: Thread) returns (r': State, w: Thread)
    requires Comes(s, r, t, Waiting, u, c) && v in r.threads && r.threads[v].Spawning?
    ensures Comes(s, r', t, Waiting, u, c) && r'.g == r.g
    ensures w in r'.threads && r'.threads[w] == Handling(r.threads[v].conn)
  {
    hide Leads, Consistent;
    w := Unused(r.threads.Keys);
    r' := Next(r, Fork(v, w));
    LeadsOn(s, r, Fork(v, w));
    StepKeepsConsistent(r, Fork(v, w));
  }

  lemma OwnerIsFree(r: State, d: Conn) returns (v: Thread)
    requires Consistent(r) && r.g.connectionsMutex.None? && d in r.g.connections
    ensures v in r.threads
    ensures r.threads[v] == Spawning(d) || r.threads[v] == Handling(d) || r.threads[v] == Leaving(d)
  {
    v :| OwnedBy(r, d, v);
    assert LockOf(r.g, v, r.threads[v]);
  }

  lemma OneLeaves(s: State, r: State, t: Thread, u: Thread, c: Conn, d: Conn) returns (r': State)
    requires Comes(s, r, t, Waiting, u, c) && r.g.connectionsMutex.None? && d in r.g.connections
    ensures Comes(s, r', t, Waiting, u, c)
    ensures r'.g.connectionsMutex.None? && r'.g.connections == r.g.connections - {d}
  {
    hide Leads, Consistent;
    r' := r;
    var v := OwnerIsFree(r, d);
    if r.threads[v].Spawning? {
      r', v := HandlerStarts(s, r', t, u, c, v);
    }
    if r'.threads[v].Handling? {
      r' := ComesOn(s, r', t, Waiting, u, c, v, Go);
    }
    r' := LeaverEnds(s, r', t, u, c, v, d);
  }

  lemma AllLeave(s: State, r: State, t: Thread, u: Thread, c: Conn) returns (r': State)
    requires Comes(s, r, t, Waiting, u, c) && r.g.connectionsMutex.None?
    ensures Comes(s, r', t, Waiting, u, c)
    ensures r'.g.connectionsMutex.None? && r'.g.connections == {}
    decreases |r.g.connections|
  {
    hide Comes;
    if r.g.connections == {} {
      r' := r;
    } else {
      var d :| d in r.g.connections;
      r' := OneLeaves(s, r, t, u, c, d);
      r' := AllLeave(s, r', t, u, c);
    }
  }

  lemma NothingTrackedIsZero(r: State)
    requires Consistent(r) && r.g.connectionsMutex.None? && r.g.connections == {}
    ensures r.g.waitGroup == 0
  {
    assert Counts(r);
  }

  lemma ShutdownEnds(s: State, r: State, t: Thread, u: Thread, c: Conn) returns (r': State)
    requires Comes(s, r, t, Waiting, u, c) && r.g.connectionsMutex.None? && r.g.connections == {}
    ensures Comes(s, r', t, Done, u, c) && r'.g.connectionsMutex.None? && r'.g.mutex.None?
  {
    hide Leads, Consistent;
    NothingTrackedIsZero(r);
    r' := ComesOn(s, r, t, Waiting, u, c, t, Go);
    r' := ComesOn(s, r', t, Waited, u, c, t, Go);
  }

  lemma ArrivalRegisters(s: State, r: State, t: Thread, u: Thread, c: Conn) returns (r': State)
    requires Comes(s, r, t, Done, u, c) && r.g.connectionsMutex.None? && r.g.mutex.None? && t != u
    ensures Leads(s, r') && t in r'.threads && r'.threads[t].Done?
    ensures c in r'.g.connections && c !in r'.g.closed && r'.g.mutex.None?
  {
    ArrivalEscaped(r, u);
    hide Leads, Consistent;
    LeadsOn(s, r, Local(u, Go));
    var x := Next(r, Local(u, Go));
    LeadsOn(s, x, Local(u, Go));
    r' := Next(x, Local(u, Go));
  }

  lemma ArrivalEscaped(r: State, u: Thread)
    requires Consistent(r) && u in r.threads && r.threads[u].Registering? && r.g.mutex.None?
    ensures r.threads[u].conn !in r.g.closed
  {
    assert SweepOf(r.g, r.threads[u]);
    assert !InSweep(r);
  }

  /** When somebody is arriving as the sweep begins, the shutdown may end with that connection tracked and open. */
  lemma ArrivalMayOutlive(s: State, t: Thread, u: Thread) returns (r: State)
    requires SweepBegins(s, t) && Arriving(s, u)
    ensures Leads(AtSweep(s, t), r) && t in r.threads && r.threads[t].Done? && r.g.mutex.None?
    ensures s.threads[u].conn in r.g.connections && s.threads[u].conn !in r.g.closed
  {
    var c, x := s.threads[u].conn, AtSweep(s, t);
    hide Leads, Consistent, Can, Onward, Effect;
    ReachableIsConsistent(s);
    StepKeepsConsistent(s, Local(t, Go));
    SweeperIsThere(s, t);
    LeadsToItself(x);
    hide Comes;
    r := SweepOut(x, x, t, s.g.connections, u, c);
    r := SweepEnds(x, r, t, u, c);
    r := AllLeave(x, r, t, u, c);
    r := ShutdownEnds(x, r, t, u, c);
    r := ArrivalRegisters(x, r, t, u, c);
  }

  lemma SweeperIsThere(s: State, t: Thread)
    requires t in s.threads && s.threads[t].Closing? && s.g.connectionsMutex.None?
    ensures AtSweep(s, t).threads == s.threads[t := Sweeping(s.g.connections)]
  {
  }

  lemma LeadsToItself(s: State)
    ensures Leads(s, s)
  {
    assert Legal(s, []) && End(s, []) == s;
  }

  /** A shutdown can be outlived by a connection exactly when one is arriving as its sweep begins. */
  lemma OutlivedExactlyByArrivals(s: State, t: Thread)
    requires SweepBegins(s, t)
    ensures (exists r :: Leads(AtSweep(s, t), r) && Outlived(r, t)) <==> exists u :: Arriving(s, u)
  {
    hide Reachable;
    if exists u :: Arriving(s, u) {
      var u :| Arriving(s, u);
      var r := ArrivalMayOutlive(s, t, u);
      assert s.threads[u].conn in r.g.connections - r.g.closed;
      assert Outlived(r, t);
    } else {
      forall r | Leads(AtSweep(s, t), r) ensures !Outlived(r, t) {
        var run :| Legal(AtSweep(s, t), run) && End(AtSweep(s, t), run) == r;
        NothingOutlives(s, t, run);
      }
    }
  }

  // That it happens

  lemma Goes(threads: map<Thread, Place>, t: Thread, p: Place, g: Shared, m: Move, q: Place, k: Shared)
    requires Reachable(State(threads[t := p], g)) && Can(g, p, m)
    requires Onward(g, p, m) == q && Effect(g, t, p, m) == k
    ensures Reachable(State(threads[t := q], k))
  {
    LeadsOn(IDLE, State(threads[t := p], g), Local(t, m));
    assert threads[t := p][t := q] == threads[t := q];
  }

  /** A shutdown is called while a connection has been accepted but not registered. */
  lemma ArrivalMeetsSweep(c: Conn) returns (s: State)
    ensures SweepBegins(s, 1) && s.threads == map[0 := Registering(c), 1 := Closing]
  {
    LeadsToItself(IDLE);
    LeadsOn(IDLE, IDLE, Call(0, Accepting));
    var g := IDLE.g.(accepted := {c});
    var g1 := g.(mutex := Some(1));
    var g2 := g1.(stopping := true);
    var g3 := g2.(listening := false);
    hide Reachable;
    Goes(map[], 0, Accepting, IDLE.g, Accept(c), Registering(c), g);
    var others := map[0 := Registering(c)];
    LeadsOn(IDLE, State(others, g), Call(1, Stopping));
    Goes(others, 1, Stopping, g, Go, Deciding, g1);
    Goes(others, 1, Deciding, g1, Go, Unlistening, g2);
    Goes(others, 1, Unlistening, g2, Go, Closing, g3);
    s := State(others[1 := Closing], g3);
  }

  lemma {:induction false} LeadsThrough(s: State, r: State, run: seq<Step>)
    requires Leads(s, r) && Legal(r, run)
    ensures Leads(s, End(r, run))
    decreases |run|
  {
    hide Leads, Enabled, Next;
    if run != [] {
      LeadsOn(s, r, run[0]);
      LeadsThrough(s, Next(r, run[0]), run[1..]);
    }
  }

  /** So a connection accepted before the listener closed may outlive a finished shutdown. */
  lemma ConnectionMayOutliveShutdown(c: Conn) returns (s: State)
    ensures Reachable(s) && s.g.stopping && Outlived(s, 1) && c in s.g.connections
  {
    var before := ArrivalMeetsSweep(c);
    var sweep := AtSweep(before, 1);
    s := ArrivalMayOutlive(before, 1, 0);
    assert c in s.g.connections - s.g.closed;
    LeadsOn(IDLE, before, Local(1, Go));
    var run :| Legal(sweep, run) && End(sweep, run) == s;
    LeadsThrough(IDLE, sweep, run);
    SweepHappensOnce(sweep);
    hide Reachable, Leads;
    StoppingIsForGood(sweep, run);
  }
}
