/** In which order the half-closer and the relay of a proxied side close it. */
module ClosingOrder {
  import opened RequestRelay
  import opened ProxyTeardown

  /** Was `a` done at a time when `b` was not? */
  predicate Precedes(h: Trace, a: Act, b: Act)
  {
    h.Then? && ((h.act == a && !Has(h.before, b)) || Precedes(h.before, a, b))
  }

  predicate AreCloses(a: Act, b: Act)
  {
    (a == Close && b == CloseWrite) || (a == CloseWrite && b == Close)
  }

  /** Has the goroutine in charge of this close done it? */
  predicate Did(x: Side, act: Act)
  {
    if act == Close then x.relay.Finished? else x.half.HalfClosed?
  }

  datatype Way = Towards | Back

  function At(c: Channel, w: Way): Side
  {
    if w.Towards? then c.target else c.source
  }

  function MoveOf(w: Way, step: Step): Move
  {
    if w.Towards? then ToTarget(step) else ToSource(step)
  }

  // Driving one side of a channel

  lemma {:induction false} EndOfLonger(c: Channel, run: seq<Move>, m: Move)
    requires Legal(c, run) && Allowed(End(c, run), m)
    ensures Legal(c, run + [m]) && End(c, run + [m]) == Moved(End(c, run), m)
    decreases |run|
  {
    hide Allowed, Moved;
    if run == [] {
      assert run + [m] == [m];
    } else {
      assert (run + [m])[1..] == run[1..] + [m];
      EndOfLonger(Moved(c, run[0]), run[1..], m);
    }
  }

  /** `run` takes `c` to `d`. */
  ghost predicate Takes(c: Channel, run: seq<Move>, d: Channel)
  {
    Legal(c, run) && End(c, run) == d && Consistent(d.target) && Consistent(d.source)
  }

  lemma TakesOn(c: Channel, run: seq<Move>, d: Channel, w: Way, step: Step) returns (run': seq<Move>, e: Channel)
    requires Takes(c, run, d) && Enabled(At(d, w), step)
    ensures Takes(c, run', e) && At(e, w) == After(At(d, w), step)
  {
    hide Consistent, Enabled, After, Legal, End;
    var m := MoveOf(w, step);
    run', e := run + [m], Moved(d, m);
    EndOfLonger(c, run, m);
    StepKeepsConsistent(At(d, w), step);
  }

  /** A copier can always be brought to its end. */
  lemma CopierEnds(c: Channel, run: seq<Move>, d: Channel, w: Way, s: Stream) returns (run': seq<Move>, e: Channel)
    requires Takes(c, run, d)
    ensures Takes(c, run', e) && At(e, w).Of(s).Released?
    ensures At(e, w).half == At(d, w).half && At(e, w).relay == At(d, w).relay
    ensures forall o :: o != s ==> At(e, w).Of(o) == At(d, w).Of(o)
    decreases CopierWork(At(d, w).Of(s))
  {
    hide Takes, At;
    var copier := At(d, w).Of(s);
    if copier.Released? {
      run', e := run, d;
    } else {
      var step := if copier.Reading? then EndRead(s) else if copier.Holding? then Store(s) else Release(s);
      run', e := TakesOn(c, run, d, w, step);
      run', e := CopierEnds(c, run', e, w, s);
    }
  }

  /** So can both, and then the count is zero. */
  lemma CopiersEnd(c: Channel, run: seq<Move>, d: Channel, w: Way) returns (run': seq<Move>, e: Channel)
    requires Takes(c, run, d)
    ensures Takes(c, run', e) && At(e, w).wg == 0
    ensures At(e, w).half == At(d, w).half && At(e, w).relay == At(d, w).relay
  {
    hide Takes, At;
    run', e := CopierEnds(c, run, d, w, Stdout);
    run', e := CopierEnds(c, run', e, w, Stderr);
    ReleasedIsZero(c, run', e, w);
  }

  lemma ReleasedIsZero(c: Channel, run: seq<Move>, d: Channel, w: Way)
    requires Takes(c, run, d) && At(d, w).Of(Stdout).Released? && At(d, w).Of(Stderr).Released?
    ensures At(d, w).wg == 0
  {
  }

  lemma RelayIsWithin(c: Channel, run: seq<Move>, d: Channel, w: Way)
    requires Takes(c, run, d) && At(d, w).relay.Relaying?
    ensures At(d, w).relay.next <= |At(d, w).requests|
  {
  }

  lemma RelayStops(c: Channel, run: seq<Move>, d: Channel, w: Way) returns (run': seq<Move>, e: Channel)
    requires Takes(c, run, d) && At(d, w).relay.Relaying? && At(d, w).wg == 0
    ensures Takes(c, run', e) && At(e, w).wg == 0 && At(e, w).half == At(d, w).half && At(e, w).relay.Deferred?
    decreases |At(d, w).requests| - At(d, w).relay.next
  {
    RelayIsWithin(c, run, d, w);
    hide Takes, At;
    if At(d, w).relay.next == |At(d, w).requests| {
      run', e := TakesOn(c, run, d, w, NoMoreRequests);
    } else {
      run', e := TakesOn(c, run, d, w, Forward(false));
      run', e := RelayStops(c, run', e, w);
    }
  }

  predicate JustDid(x: Side, act: Act)
  {
    x.history.Then? && x.history.act == act
  }

  /** A side that is not closed can be closed next, its half-closer standing still. */
  lemma CloseComesNext(c: Channel, w: Way) returns (run: seq<Move>, d: Channel)
    requires Consistent(c.target) && Consistent(c.source) && !At(c, w).relay.Finished?
    ensures Takes(c, run, d) && At(d, w).half == At(c, w).half && JustDid(At(d, w), Close)
  {
    hide Consistent, At, JustDid;
    assert Takes(c, [], c);
    hide Takes;
    run, d := CopiersEnd(c, [], c, w);
    if At(d, w).relay.Relaying? {
      run, d := RelayStops(c, run, d, w);
    }
    if At(d, w).relay.Deferred? {
      run, d := TakesOn(c, run, d, w, RelayWaited);
    }
    run, d := ShutsNow(c, run, d, w);
  }

  lemma ShutsNow(c: Channel, run: seq<Move>, d: Channel, w: Way) returns (run': seq<Move>, e: Channel)
    requires Takes(c, run, d) && At(d, w).relay.Closing?
    ensures Takes(c, run', e) && At(e, w).half == At(d, w).half && JustDid(At(e, w), Close)
  {
    hide Takes, At;
    run', e := TakesOn(c, run, d, w, Shut);
  }

  /** A side that is not half-closed can be half-closed next, its relay standing still. */
  lemma CloseWriteComesNext(c: Channel, w: Way) returns (run: seq<Move>, d: Channel)
    requires Consistent(c.target) && Consistent(c.source) && !At(c, w).half.HalfClosed?
    ensures Takes(c, run, d) && At(d, w).relay == At(c, w).relay && JustDid(At(d, w), CloseWrite)
  {
    hide Consistent, At;
    assert Takes(c, [], c);
    hide Takes;
    run, d := CopiersEnd(c, [], c, w);
    if At(d, w).half.AwaitingCopies? {
      run, d := TakesOn(c, run, d, w, CopiesDone);
    }
    run, d := TakesOn(c, run, d, w, ShutWrite);
  }

  // The order

  lemma DidIsLogged(x: Side, act: Act)
    requires Consistent(x) && (act == Close || act == CloseWrite)
    ensures Did(x, act) <==> Has(x.history, act)
  {
  }

  /** What is in the history stays, and so does the order in which two closes came. */
  lemma StepKeepsOrder(x: Side, step: Step, a: Act, b: Act)
    requires Enabled(x, step) && Has(x.history, b)
    ensures Has(After(x, step).history, b)
    ensures Precedes(After(x, step).history, a, b) <==> Precedes(x.history, a, b)
  {
    hide Has, Precedes;
    OneMoreAct(x.history, After(x, step).history, a, b);
  }

  lemma OneMoreAct(h: Trace, k: Trace, a: Act, b: Act)
    requires k == h || (k.Then? && k.before == h)
    ensures Has(h, b) ==> Has(k, b) && (Precedes(k, a, b) <==> Precedes(h, a, b))
  {
  }

  lemma {:induction false} RunKeepsOrder(c: Channel, run: seq<Move>, w: Way, a: Act, b: Act)
    requires Legal(c, run) && Has(At(c, w).history, b)
    ensures Precedes(At(End(c, run), w).history, a, b) <==> Precedes(At(c, w).history, a, b)
    decreases |run|
  {
    hide Has, Precedes, Enabled, After;
    if run != [] {
      var d := Moved(c, run[0]);
      if run[0] == MoveOf(w, run[0].step) {
        StepKeepsOrder(At(c, w), run[0].step, a, b);
      }
      RunKeepsOrder(d, run[1..], w, a, b);
    }
  }

  lemma AlreadyFirst(h: Trace, a: Act, b: Act)
    requires Has(h, a) && !Has(h, b)
    ensures Precedes(h, a, b)
  {
  }

  /** The first of two closes, neither of which has been done, can be either. */
  lemma MayComeFirst(c: Channel, w: Way, a: Act, b: Act) returns (run: seq<Move>)
    requires Consistent(c.target) && Consistent(c.source) && AreCloses(a, b)
    requires !Did(At(c, w), a) && !Did(At(c, w), b)
    ensures Legal(c, run) && Precedes(At(End(c, run), w).history, a, b)
  {
    hide Consistent;
    var d;
    if a == Close {
      run, d := CloseComesNext(c, w);
    } else {
      run, d := CloseWriteComesNext(c, w);
    }
    DidIsLogged(At(d, w), a);
    DidIsLogged(At(d, w), b);
    AlreadyFirst(At(d, w).history, a, b);
  }

  /** Does this continuation do `a` at a time when `b` was not done? */
  ghost predicate Orders(c: Channel, more: seq<Move>, w: Way, a: Act, b: Act)
  {
    Legal(c, more) && Precedes(At(End(c, more), w).history, a, b)
  }

  /**
   * Close and half-close of a side come in either order. In every reachable state one of them can still be
   * the first exactly when it has been, or the other has not been done.
   */
  lemma OrderIsOpen(fromSource: seq<Request>, fromTarget: seq<Request>, run: seq<Move>, w: Way, a: Act, b: Act)
    requires Legal(Fresh(fromSource, fromTarget), run) && AreCloses(a, b)
    ensures
      var c := End(Fresh(fromSource, fromTarget), run);
      (exists more :: Orders(c, more, w, a, b))
      <==> Precedes(At(c, w).history, a, b) || !Did(At(c, w), b)
  {
    var start := Fresh(fromSource, fromTarget);
    assert Consistent(start.target) && Consistent(start.source);
    hide Consistent, Legal, End, Precedes, Did, Opened, Orders;
    var c := End(start, run);
    RunKeepsConsistent(start, run);
    OrderStaysOpen(c, w, a, b);
  }

  lemma OrderStaysOpen(c: Channel, w: Way, a: Act, b: Act)
    requires Consistent(c.target) && Consistent(c.source) && AreCloses(a, b)
    ensures (exists more :: Orders(c, more, w, a, b))
            <==> Precedes(At(c, w).history, a, b) || !Did(At(c, w), b)
  {
    var h := At(c, w).history;
    DidIsLogged(At(c, w), a);
    DidIsLogged(At(c, w), b);
    hide Consistent, Did, Has, Precedes;
    if Has(h, b) {
      forall more | Legal(c, more) ensures Precedes(At(End(c, more), w).history, a, b) <==> Precedes(h, a, b) {
        RunKeepsOrder(c, more, w, a, b);
      }
    } else if Has(h, a) {
      AlreadyFirst(h, a, b);
    } else {
      var more := MayComeFirst(c, w, a, b);
      assert Orders(c, more, w, a, b);
    }
    assert Orders(c, [], w, a, b) <==> Precedes(h, a, b);
  }
}
