/**
 * The goroutines of a session together with what they wait for outside: the command's process, its terminal,
 * and the connection.
 */
module SessionProcess {
  import opened Prelude
  import opened SessionTeardown

  /**
   * `slave`: the daemon still has its own handle on the terminal. `running`: the command has not exited.
   * `attached`: the command, or something it started, has the terminal open. `broken`: the connection takes no
   * more writes. `hungUp`: the keepalive has sent the command a hangup. `keeper`: the goroutine that is, or is
   * about to start, the keepalive.
   */
  datatype Outside = Outside(
    slave: bool, running: bool, attached: bool, broken: bool, hungUp: bool, keeper: Option<Thread>)

  datatype Whole = Whole(s: State, o: Outside)

  const FRESH := Whole(OPENED, Outside(false, false, false, false, false, None))

  /** A step of a goroutine, or something that happens outside. */
  datatype Act = Inner(step: Step) | Exits | LetsGo | Breaks

  /** The wait for the command ends with it; copying ends when nobody has the terminal open, or a write failed. */
  predicate Lets(o: Outside, p: Place, m: Move)
  {
    && (p.AwaitingCommand? && m.Go? ==> !o.running)
    && (p.CopyingOutput? && m.Go? ==> (!o.slave && !o.attached) || o.broken)
  }

  function Reacts(o: Outside, t: Thread, p: Place, m: Move): Outside
  {
    if !m.Go? then o else
      match p
      case StartingPlain => o.(running := true)
      case OpeningPty => o.(slave := true)
      case StartingOnPty => o.(running := true, attached := true, keeper := Some(t))
      case ClosingSlave(_) => o.(slave := false)
      case Ticking => if o.keeper == Some(t) then o.(keeper := None) else o
      case HangingUp => o.(hungUp := true, keeper := if o.keeper == Some(t) then None else o.keeper)
      case _ => o
  }

  predicate May(w: Whole, a: Act)
  {
    match a
    case Inner(step) => Enabled(w.s, step) && (step.Local? ==> Lets(w.o, w.s.threads[step.thread], step.move))
    case Exits => w.o.running
    case LetsGo => w.o.attached
    case Breaks => true
  }

  function Does(w: Whole, a: Act): Whole
    requires May(w, a)
  {
    match a
    case Inner(Local(t, m)) => Whole(Next(w.s, a.step), Reacts(w.o, t, w.s.threads[t], m))
    case Inner(Fork(t, u)) =>
      Whole(Next(w.s, a.step), if w.s.threads[t].ForkingKeepalive? then w.o.(keeper := Some(u)) else w.o)
    case Exits => w.(o := w.o.(running := false))
    case LetsGo => w.(o := w.o.(attached := false))
    case Breaks => w.(o := w.o.(broken := true))
  }

  ghost predicate Runs(w: Whole, run: seq<Act>, v: Whole)
    decreases |run|
  {
    if run == [] then w == v else May(w, run[0]) && Runs(Does(w, run[0]), run[1..], v)
  }

  ghost predicate Occurs(w: Whole)
  {
    exists run :: Runs(FRESH, run, w)
  }

  // What every step keeps

  /** Has this goroutine the daemon's handle on the terminal? */
  predicate HasSlave(p: Place)
  {
    p.CountingCopier? || p.ForkingCopier? || p.StartingOnPty? || p.ForkingKeepalive? || p.ClosingSlave?
  }

  predicate Keeps(p: Place)
  {
    p.ForkingKeepalive? || p.Ticking? || p.HangingUp?
  }

  ghost predicate Tied(w: Whole)
  {
    && (w.o.slave ==> w.s.g.lock.Some? && w.s.g.lock.value in w.s.threads && HasSlave(w.s.threads[w.s.g.lock.value]))
    && (w.o.attached ==> !w.s.g.stop.Absent?)
    && (w.s.g.stop.Open? ==> w.o.keeper.Some? || w.o.hungUp)
    && (w.o.keeper.Some? ==> w.o.keeper.value in w.s.threads && Keeps(w.s.threads[w.o.keeper.value]))
  }

  ghost predicate Sound(w: Whole)
  {
    Reachable(w.s) && Tied(w)
  }

  lemma MoveOfSlave(g: Shared, o: Outside, t: Thread, p: Place, m: Move)
    requires Can(g, p, m) && Reacts(o, t, p, m).slave
    ensures HasSlave(Onward(g, p, m)) || (o.slave && !HasSlave(p))
  {
  }

  lemma MoveOfKeeper(g: Shared, o: Outside, t: Thread, p: Place, m: Move)
    requires Can(g, p, m)
    ensures var k := Reacts(o, t, p, m).keeper;
      && (k.Some? ==> k == Some(t) || k == o.keeper)
      && (k == Some(t) && (o.keeper == Some(t) ==> Keeps(p)) ==> Keeps(Onward(g, p, m)))
  {
  }

  lemma MoveOfStop(g: Shared, o: Outside, t: Thread, p: Place, m: Move)
    requires Can(g, p, m)
    ensures var h, r := Effect(g, t, p, m), Reacts(o, t, p, m);
      && (r.attached ==> o.attached || !h.stop.Absent?)
      && (!g.stop.Absent? ==> !h.stop.Absent?)
      && (h.stop.Open? ==>
            r.keeper == Some(t) || r.hungUp || (g.stop.Open? && r.hungUp == o.hungUp && r.keeper == o.keeper))
  {
    hide EffectInDestroy, EffectElsewhere;
  }

  lemma SlaveIsHeld(p: Place)
    requires HasSlave(p)
    ensures Holds(p)
  {
  }

  lemma LocalKeepsTied(w: Whole, t: Thread, m: Move)
    requires Sound(w) && May(w, Inner(Local(t, m))) && Reachable(Next(w.s, Local(t, m)))
    ensures Tied(Does(w, Inner(Local(t, m))))
  {
    var p := w.s.threads[t];
    var v := Does(w, Inner(Local(t, m)));
    assert v.s.threads == w.s.threads[t := Onward(w.s.g, p, m)] && v.s.g == Effect(w.s.g, t, p, m);
    hide Can, Onward, Effect, Reacts, Reachable, HasSlave, Keeps, Holds, Lets;
    MoveOfKeeper(w.s.g, w.o, t, p, m);
    MoveOfStop(w.s.g, w.o, t, p, m);
    if v.o.slave {
      MoveOfSlave(w.s.g, w.o, t, p, m);
      var h := if HasSlave(v.s.threads[t]) then t else w.s.g.lock.value;
      SlaveIsHeld(v.s.threads[h]);
      ReachableTokens(v.s, h);
    }
  }

  lemma ReachableTokens(s: State, t: Thread)
    requires Reachable(s) && t in s.threads
    ensures TokensOf(s.g, t, s.threads[t])
  {
    hide Consistent;
    ReachableIsConsistent(s);
    TokensAt(s, t);
  }

  lemma ForkOf(p: Place)
    requires Forks(p)
    ensures HasSlave(p) ==> HasSlave(Parent(p))
    ensures if p.ForkingKeepalive? then Keeps(Child(p)) else !Keeps(p)
  {
  }

  lemma HandoverKeeps(g: Shared, u: Thread, p: Place)
    requires Forks(p)
    ensures Handover(g, u, p).stop == g.stop && Handover(g, u, p).lock == g.lock
  {
  }

  lemma ForkKeepsTied(w: Whole, t: Thread, u: Thread)
    requires Tied(w) && May(w, Inner(Fork(t, u)))
    ensures Tied(Does(w, Inner(Fork(t, u))))
  {
    var p := w.s.threads[t];
    ForkOf(p);
    HandoverKeeps(w.s.g, u, p);
    hide HasSlave, Keeps, Handover, Parent, Child, Forks;
  }

  lemma ActKeepsSound(w: Whole, a: Act)
    requires Sound(w) && May(w, a)
    ensures Sound(Does(w, a))
  {
    if a.Inner? {
      hide Enabled, Next, Reachable, Tied, Reacts, Lets;
      ReachableGoesOn(w.s, a.step);
      match a.step
      case Fork(t, u) => ForkKeepsTied(w, t, u);
      case Local(t, m) => LocalKeepsTied(w, t, m);
    }
  }

  lemma {:induction false} RunIsSound(w: Whole, run: seq<Act>, v: Whole)
    requires Sound(w) && Runs(w, run, v)
    ensures Sound(v)
    decreases |run|
  {
    hide Sound, May, Does;
    if run != [] {
      ActKeepsSound(w, run[0]);
      RunIsSound(Does(w, run[0]), run[1..], v);
    }
  }

  /** Whatever occurs here is reachable for the goroutines alone, so what holds of reachable states holds of it. */
  lemma OccurringIsReachable(w: Whole)
    requires Occurs(w)
    ensures Sound(w)
  {
    assert Legal(OPENED, []) && End(OPENED, []) == OPENED;
    assert Sound(FRESH);
    hide Sound;
    var run :| Runs(FRESH, run, w);
    RunIsSound(FRESH, run, w);
  }

  // Who waits for whom

  predicate GoesOn(w: Whole, t: Thread)
    requires t in w.s.threads
  {
    var p := w.s.threads[t];
    Forks(p) || (Can(w.s.g, p, Go) && Lets(w.o, p, Go))
  }

  lemma HolderGoesOn(w: Whole, t: Thread)
    requires t in w.s.threads && Holds(w.s.threads[t])
    requires w.s.threads[t].AwaitingOutput? ==> w.s.g.waitGroup == 0
    ensures GoesOn(w, t)
  {
  }

  /** Is `u` copying the pty's output, or about to say that it has? */
  predicate OutputCopier(s: State, u: Thread)
  {
    u in s.threads && (s.threads[u].CopyingOutput? || s.threads[u].Releasing?)
  }

  predicate Keepalive(s: State, k: Thread)
  {
    k in s.threads && (s.threads[k].Ticking? || s.threads[k].HangingUp?)
  }

  /** The copier can go on, or the command's side of the terminal is still open and a hangup is to come, or was sent. */
  ghost predicate CopierIsServed(w: Whole, u: Thread)
    requires u in w.s.threads
  {
    || GoesOn(w, u)
    || (&& w.o.attached && !w.o.broken && StartedOnPty(w.s.g) && w.s.g.stop.Open?
        && (w.o.hungUp || exists k :: Keepalive(w.s, k)))
  }

  lemma DestroyWaitsWithStopOpen(w: Whole, t: Thread)
    requires Sound(w) && t in w.s.threads && w.s.threads[t].AwaitingOutput? && w.o.attached
    ensures w.s.g.stop.Open? && StartedOnPty(w.s.g)
  {
    hide Reachable;
    ReachableIsConsistent(w.s);
    assert Agrees(w.s.g, w.s.threads[t]);
    hide Consistent;
  }

  lemma WaitedForIsServed(w: Whole, t: Thread, u: Thread)
    requires Sound(w) && t in w.s.threads && u in w.s.threads && w.s.threads[t].AwaitingOutput?
    requires OutputCopier(w.s, u)
    ensures CopierIsServed(w, u)
  {
    ReachableTokens(w.s, t);
    hide Reachable;
    if !GoesOn(w, u) {
      assert w.o.attached && !w.o.broken;
      DestroyWaitsWithStopOpen(w, t);
      if !w.o.hungUp {
        var k := w.o.keeper.value;
        ReachableTokens(w.s, k);
        assert Keepalive(w.s, k);
      }
    }
  }

  /**
   * The holder of the lock can go on, unless it is in destroy waiting for output. Then it waits for the copier
   * from the pty and nobody else. That one can go on, unless the command still has the terminal; then the stop
   * channel is open, and the keepalive is alive or has already hung the command up.
   */
  lemma NoCircularWait(w: Whole, t: Thread)
    requires Occurs(w) && t in w.s.threads && w.s.g.lock == Some(t)
    ensures GoesOn(w, t)
            || (w.s.threads[t].AwaitingOutput? && w.s.g.waitGroup == 1
                && exists u :: OutputCopier(w.s, u) && u != t && w.s.g.copier == Some(u) && CopierIsServed(w, u))
  {
    hide Occurs, CopierIsServed, GoesOn, Reachable, Tied;
    OccurringIsReachable(w);
    ReachableTokens(w.s, t);
    if w.s.threads[t].AwaitingOutput? && w.s.g.waitGroup != 0 {
      var u := OneIsCopying(w.s, t);
      WaitedForIsServed(w, t, u);
    } else {
      HolderGoesOn(w, t);
    }
  }

  lemma OneIsCopying(s: State, t: Thread) returns (u: Thread)
    requires Reachable(s) && t in s.threads && s.threads[t].AwaitingOutput? && s.g.waitGroup != 0
    ensures OutputCopier(s, u) && u != t && s.g.copier == Some(u) && s.g.waitGroup == 1
  {
    hide Reachable;
    ReachableIsConsistent(s);
    assert Held(Release, s);
    u := s.g.copier.value;
    TokensAt(s, u);
    TokensAt(s, t);
    hide Consistent;
  }
}
