/**
 * The goroutines that serve one proxied channel, in every interleaving.
 *
 * Each of the two sides has two copiers that fill it from the far side, a half-closer and a request
 * relay, all tied together by one wait group.
 */
module ProxyTeardown {
  import opened Prelude
  import opened RequestRelay

  datatype Stream = Stdout | Stderr

  /** What is done to one side, or read from the far side on its behalf. */
  datatype Act =
    | Read(stream: Stream, chunk: Bytes)
    | Wrote(stream: Stream, chunk: Bytes)
    | WriteFailed(stream: Stream, part: Bytes)
    | ReadEnded(stream: Stream)
    | Forwarded(request: Request, ok: bool)
    | CloseWrite
    | Close

  datatype Trace = Start | Then(before: Trace, act: Act)

  // What a trace says

  predicate Has(h: Trace, act: Act)
  {
    h.Then? && (h.act == act || Has(h.before, act))
  }

  function Gotten(h: Trace, s: Stream): Bytes
  {
    match h
    case Start => []
    case Then(before, Read(stream, chunk)) => Gotten(before, s) + if stream == s then chunk else []
    case Then(before, _) => Gotten(before, s)
  }

  function Written(h: Trace, s: Stream): Bytes
  {
    match h
    case Start => []
    case Then(before, Wrote(stream, chunk)) => Written(before, s) + if stream == s then chunk else []
    case Then(before, WriteFailed(stream, part)) => Written(before, s) + if stream == s then part else []
    case Then(before, _) => Written(before, s)
  }

  predicate FailedToWrite(h: Trace, s: Stream)
  {
    h.Then? && ((h.act.WriteFailed? && h.act.stream == s) || FailedToWrite(h.before, s))
  }

  /** The copy of a stream is over once its source ended or a write failed. */
  predicate Over(h: Trace, s: Stream)
  {
    Has(h, ReadEnded(s)) || FailedToWrite(h, s)
  }

  function Tried(h: Trace): seq<Request>
  {
    match h
    case Start => []
    case Then(before, Forwarded(request, _)) => Tried(before) + [request]
    case Then(before, _) => Tried(before)
  }

  predicate ExitPassed(h: Trace)
  {
    h.Then? && ((h.act.Forwarded? && h.act.ok && h.act.request.kind == EXIT_STATUS) || ExitPassed(h.before))
  }

  /** Everything read from the far side was written, unless a write failed; then a prefix of it was. */
  predicate Delivered(h: Trace, s: Stream)
  {
    && Written(h, s) <= Gotten(h, s)
    && (!FailedToWrite(h, s) ==> Written(h, s) == Gotten(h, s))
  }

  predicate CopiesOver(h: Trace)
  {
    Over(h, Stdout) && Delivered(h, Stdout) && Over(h, Stderr) && Delivered(h, Stderr)
  }

  /** May `act` be the next act after `h`? */
  predicate Proper(h: Trace, act: Act, requests: seq<Request>)
  {
    match act
    case Read(s, _) => !Over(h, s) && !Has(h, CloseWrite) && !Has(h, Close)
    case Wrote(s, _) => !Over(h, s) && !Has(h, CloseWrite) && !Has(h, Close)
    case WriteFailed(s, _) => !Over(h, s) && !Has(h, CloseWrite) && !Has(h, Close)
    case ReadEnded(s) => !Over(h, s) && Delivered(h, s) && !Has(h, CloseWrite) && !Has(h, Close)
    case Forwarded(r, _) => Tried(h) + [r] <= requests && !ExitPassed(h) && !Has(h, Close)
    case CloseWrite => CopiesOver(h) && !Has(h, CloseWrite)
    case Close => CopiesOver(h) && !Has(h, Close) && (ExitPassed(h) || Tried(h) == requests)
  }

  predicate Orderly(h: Trace, requests: seq<Request>)
  {
    h.Then? ==> Orderly(h.before, requests) && Proper(h.before, h.act, requests)
  }

  // The goroutines

  datatype Copier = Reading | Holding(chunk: Bytes) | Returning | Released

  datatype HalfCloser = AwaitingCopies | ClosingWrite | HalfClosed

  datatype Relay = Relaying(next: nat) | Deferred | Closing | Finished

  datatype Side = Side(
    requests: seq<Request>, out: Copier, err: Copier, wg: int, half: HalfCloser, relay: Relay, history: Trace)
  {
    function Of(s: Stream): Copier
    {
      if s.Stdout? then out else err
    }

    function Put(s: Stream, c: Copier): Side
    {
      if s.Stdout? then this.(out := c) else this.(err := c)
    }

    function Log(act: Act): Side
    {
      this.(history := Then(history, act))
    }
  }

  function Opened(requests: seq<Request>): Side
  {
    Side(requests, Reading, Reading, 2, AwaitingCopies, Relaying(0), Start)
  }

  datatype Step =
    | Fetch(stream: Stream, chunk: Bytes)
    | Store(stream: Stream)
    | Lose(stream: Stream, part: Bytes)
    | EndRead(stream: Stream)
    | Release(stream: Stream)
    | CopiesDone
    | ShutWrite
    | Forward(ok: bool)
    | NoMoreRequests
    | RelayWaited
    | Shut

  /** What the runtime and the far ends allow in this state. */
  predicate Enabled(x: Side, step: Step)
  {
    match step
    case Fetch(s, chunk) => x.Of(s).Reading? && chunk != []
    case Store(s) => x.Of(s).Holding?
    case Lose(s, part) => x.Of(s).Holding? && part < x.Of(s).chunk
    case EndRead(s) => x.Of(s).Reading?
    case Release(s) => x.Of(s).Returning?
    case CopiesDone => x.half.AwaitingCopies? && x.wg == 0
    case ShutWrite => x.half.ClosingWrite?
    case Forward(_) => x.relay.Relaying? && x.relay.next < |x.requests|
    case NoMoreRequests => x.relay.Relaying? && x.relay.next == |x.requests|
    case RelayWaited => x.relay.Deferred? && x.wg == 0
    case Shut => x.relay.Closing?
  }

  function After(x: Side, step: Step): Side
    requires Enabled(x, step)
  {
    match step
    case Fetch(s, chunk) => x.Put(s, Holding(chunk)).Log(Read(s, chunk))
    case Store(s) => x.Put(s, Reading).Log(Wrote(s, x.Of(s).chunk))
    case Lose(s, part) => x.Put(s, Returning).Log(WriteFailed(s, part))
    case EndRead(s) => x.Put(s, Returning).Log(ReadEnded(s))
    case Release(s) => x.Put(s, Released).(wg := x.wg - 1)
    case CopiesDone => x.(half := ClosingWrite)
    case ShutWrite => x.(half := HalfClosed).Log(CloseWrite)
    case Forward(ok) =>
      var request := x.requests[x.relay.next];
      x.(relay := if ok && request.kind == EXIT_STATUS then Deferred else Relaying(x.relay.next + 1))
       .Log(Forwarded(request, ok))
    case NoMoreRequests => x.(relay := Deferred)
    case RelayWaited => x.(relay := Closing)
    case Shut => x.(relay := Finished).Log(Close)
  }

  /** The channel towards the target and the channel back to the source; each step is one side's. */
  datatype Channel = Channel(target: Side, source: Side)

  datatype Move = ToTarget(step: Step) | ToSource(step: Step)

  predicate Allowed(c: Channel, m: Move)
  {
    match m
    case ToTarget(step) => Enabled(c.target, step)
    case ToSource(step) => Enabled(c.source, step)
  }

  function Moved(c: Channel, m: Move): Channel
    requires Allowed(c, m)
  {
    match m
    case ToTarget(step) => c.(target := After(c.target, step))
    case ToSource(step) => c.(source := After(c.source, step))
  }

  predicate Legal(c: Channel, run: seq<Move>)
    decreases |run|
  {
    run != [] ==> Allowed(c, run[0]) && Legal(Moved(c, run[0]), run[1..])
  }

  function End(c: Channel, run: seq<Move>): Channel
    requires Legal(c, run)
    decreases |run|
  {
    if run == [] then c else End(Moved(c, run[0]), run[1..])
  }

  /** The channel just after it was accepted; a side is handed the requests made on the other one. */
  function Fresh(fromSource: seq<Request>, fromTarget: seq<Request>): Channel
  {
    Channel(Opened(fromSource), Opened(fromTarget))
  }

  // What every step keeps

  predicate CopierAgrees(c: Copier, s: Stream, h: Trace)
  {
    match c
    case Reading => !Over(h, s) && Written(h, s) == Gotten(h, s)
    case Holding(chunk) => !Over(h, s) && Written(h, s) + chunk == Gotten(h, s)
    case _ => Over(h, s) && Delivered(h, s)
  }

  function Unreleased(c: Copier): int
  {
    if c.Released? then 0 else 1
  }

  predicate RelayAgrees(x: Side)
  {
    match x.relay
    case Relaying(next) => next <= |x.requests| && Tried(x.history) == x.requests[..next] && !ExitPassed(x.history)
    case _ => ExitPassed(x.history) || Tried(x.history) == x.requests
  }

  predicate Consistent(x: Side)
  {
    && Orderly(x.history, x.requests)
    && CopierAgrees(x.out, Stdout, x.history)
    && CopierAgrees(x.err, Stderr, x.history)
    && x.wg == Unreleased(x.out) + Unreleased(x.err)
    && RelayAgrees(x)
    && (Has(x.history, CloseWrite) <==> x.half.HalfClosed?)
    && (Has(x.history, Close) <==> x.relay.Finished?)
    && (!x.half.AwaitingCopies? ==> x.wg == 0)
    && (x.relay.Closing? || x.relay.Finished? ==> x.wg == 0)
  }

  /** A copier's act leaves the other stream, the requests and the closes as they were. */
  lemma OthersStay(h: Trace, k: Trace, other: Stream)
    requires k.Then? && k.before == h && (k.act.Read? || k.act.Wrote? || k.act.WriteFailed? || k.act.ReadEnded?)
    requires k.act.stream != other
    ensures Written(k, other) == Written(h, other) && Gotten(k, other) == Gotten(h, other)
    ensures Over(k, other) == Over(h, other) && FailedToWrite(k, other) == FailedToWrite(h, other)
    ensures Tried(k) == Tried(h) && ExitPassed(k) == ExitPassed(h)
    ensures Has(k, CloseWrite) == Has(h, CloseWrite) && Has(k, Close) == Has(h, Close)
  {
  }

  lemma OtherAgrees(h: Trace, k: Trace, other: Stream, c: Copier)
    requires k.Then? && k.before == h && (k.act.Read? || k.act.Wrote? || k.act.WriteFailed? || k.act.ReadEnded?)
    requires k.act.stream != other
    ensures CopierAgrees(c, other, k) == CopierAgrees(c, other, h)
  {
    OthersStay(h, k, other);
    hide Written, Gotten, Over, FailedToWrite;
  }

  /** What a copier's own act does to its own stream. */
  lemma OwnStreamAgrees(x: Side, step: Step)
    requires Enabled(x, step) && (step.Fetch? || step.Store? || step.Lose? || step.EndRead?)
    requires CopierAgrees(x.Of(step.stream), step.stream, x.history)
    ensures CopierAgrees(After(x, step).Of(step.stream), step.stream, After(x, step).history)
  {
    var s := step.stream;
    var h, k := x.history, After(x, step).history;
    if step.Lose? {
      var chunk := x.Of(s).chunk;
      assert Written(k, s) == Written(h, s) + step.part && Gotten(k, s) == Written(h, s) + chunk;
      assert Written(k, s) <= Gotten(k, s);
    }
  }

  lemma CopierStepKeepsConsistent(x: Side, step: Step)
    requires Consistent(x) && Enabled(x, step)
    requires step.Fetch? || step.Store? || step.Lose? || step.EndRead?
    ensures Consistent(After(x, step))
  {
    var y := After(x, step);
    var h, k := x.history, y.history;
    var other := if step.stream.Stdout? then Stderr else Stdout;
    OthersStay(h, k, other);
    OtherAgrees(h, k, other, x.Of(other));
    OwnStreamAgrees(x, step);
    assert x.wg > 0;
    assert Proper(h, k.act, x.requests);
    assert Orderly(k, x.requests);
    hide Written, Gotten, Over, FailedToWrite, Has, Tried, ExitPassed, Orderly, CopierAgrees;
  }

  lemma RelayStepKeepsConsistent(x: Side, ok: bool)
    requires Consistent(x) && Enabled(x, Forward(ok))
    ensures Consistent(After(x, Forward(ok)))
  {
    var y := After(x, Forward(ok));
    var next := x.relay.next;
    assert x.requests[..next] + [x.requests[next]] == x.requests[..next + 1];
    CopiesStay(x.history, y.history);
  }

  lemma CloseStepKeepsConsistent(x: Side, step: Step)
    requires Consistent(x) && Enabled(x, step) && (step.ShutWrite? || step.Shut?)
    ensures Consistent(After(x, step))
  {
    CopiesStay(x.history, After(x, step).history);
  }

  /** Acts that are not a copier's say nothing about what was copied. */
  lemma CopiesStay(h: Trace, k: Trace)
    requires k.Then? && k.before == h && (k.act.Forwarded? || k.act.CloseWrite? || k.act.Close?)
    ensures forall s :: Written(k, s) == Written(h, s) && Gotten(k, s) == Gotten(h, s) && Over(k, s) == Over(h, s)
    ensures forall s :: FailedToWrite(k, s) == FailedToWrite(h, s)
  {
  }

  lemma WaitStepKeepsConsistent(x: Side, step: Step)
    requires Consistent(x) && Enabled(x, step)
    requires step.Release? || step.CopiesDone? || step.NoMoreRequests? || step.RelayWaited?
    ensures Consistent(After(x, step))
  {
    hide Written, Gotten, Over, FailedToWrite, Has, Tried, ExitPassed, Orderly, Delivered;
  }

  lemma StepKeepsConsistent(x: Side, step: Step)
    requires Consistent(x) && Enabled(x, step)
    ensures Consistent(After(x, step)) && After(x, step).requests == x.requests
  {
    hide Consistent;
    match step
    case Fetch(_, _) => CopierStepKeepsConsistent(x, step);
    case Store(_) => CopierStepKeepsConsistent(x, step);
    case Lose(_, _) => CopierStepKeepsConsistent(x, step);
    case EndRead(_) => CopierStepKeepsConsistent(x, step);
    case Forward(ok) => RelayStepKeepsConsistent(x, ok);
    case ShutWrite => CloseStepKeepsConsistent(x, step);
    case Shut => CloseStepKeepsConsistent(x, step);
    case _ => WaitStepKeepsConsistent(x, step);
  }

  lemma {:induction false} RunKeepsConsistent(c: Channel, run: seq<Move>)
    requires Legal(c, run) && Consistent(c.target) && Consistent(c.source)
    ensures Consistent(End(c, run).target) && End(c, run).target.requests == c.target.requests
    ensures Consistent(End(c, run).source) && End(c, run).source.requests == c.source.requests
    decreases |run|
  {
    hide Consistent;
    if run != [] {
      if run[0].ToTarget? {
        StepKeepsConsistent(c.target, run[0].step);
      } else {
        StepKeepsConsistent(c.source, run[0].step);
      }
      RunKeepsConsistent(Moved(c, run[0]), run[1..]);
    }
  }

  /** In every interleaving both sides do only what is proper, and the wait groups never go negative. */
  lemma TeardownSafety(fromSource: seq<Request>, fromTarget: seq<Request>, run: seq<Move>)
    requires Legal(Fresh(fromSource, fromTarget), run)
    ensures
      var c := End(Fresh(fromSource, fromTarget), run);
      && Orderly(c.target.history, fromSource) && c.target.wg >= 0
      && Orderly(c.source.history, fromTarget) && c.source.wg >= 0
  {
    RunKeepsConsistent(Fresh(fromSource, fromTarget), run);
  }

  /** Once a side is half-closed or closed nothing more is copied to it, so what was delivered then is all there is. */
  lemma {:induction false} ClosedIsDelivered(h: Trace, requests: seq<Request>)
    requires Orderly(h, requests)
    ensures Has(h, CloseWrite) || Has(h, Close) ==> CopiesOver(h)
    ensures Has(h, Close) ==> ExitPassed(h) || Tried(h) == requests
  {
    if h.Then? {
      ClosedIsDelivered(h.before, requests);
    }
  }

  // How runs end

  function CopierWork(c: Copier): int
  {
    match c
    case Reading => 2
    case Holding(_) => 3
    case Returning => 1
    case Released => 0
  }

  function Work(x: Side): int
  {
    CopierWork(x.out) + CopierWork(x.err)
    + (match x.half case AwaitingCopies => 2 case ClosingWrite => 1 case HalfClosed => 0)
    + (match x.relay case Relaying(n) => |x.requests| - n + 3 case Deferred => 2 case Closing => 1 case Finished => 0)
  }

  function Fetches(run: seq<Move>): nat
  {
    if run == [] then 0 else (if run[0].step.Fetch? then 1 else 0) + Fetches(run[1..])
  }

  lemma StepSpendsWork(x: Side, step: Step)
    requires Enabled(x, step)
    ensures Work(After(x, step)) <= Work(x) + if step.Fetch? then 1 else -1
  {
  }

  lemma {:induction false} RunIsBounded(c: Channel, run: seq<Move>)
    requires Legal(c, run) && Consistent(c.target) && Consistent(c.source)
    ensures |run| <= Work(c.target) + Work(c.source) + 2 * Fetches(run)
    decreases |run|
  {
    if run == [] {
      assert Work(c.target) >= 0 && Work(c.source) >= 0;
    } else {
      hide Consistent, Work, After;
      var d := Moved(c, run[0]);
      if run[0].ToTarget? {
        StepKeepsConsistent(c.target, run[0].step);
        StepSpendsWork(c.target, run[0].step);
      } else {
        StepKeepsConsistent(c.source, run[0].step);
        StepSpendsWork(c.source, run[0].step);
      }
      RunIsBounded(d, run[1..]);
    }
  }

  predicate Closed(x: Side)
  {
    && Has(x.history, CloseWrite) && Has(x.history, Close) && CopiesOver(x.history)
    && (ExitPassed(x.history) || Tried(x.history) == x.requests)
  }

  lemma StuckIsClosed(x: Side)
    requires Consistent(x) && forall step :: !Enabled(x, step)
    ensures Closed(x)
  {
    hide Written, Gotten, FailedToWrite, Tried, ExitPassed, Orderly, Over, Delivered, Has;
    assert !Enabled(x, EndRead(Stdout)) && !Enabled(x, Store(Stdout)) && !Enabled(x, Release(Stdout));
    assert !Enabled(x, EndRead(Stderr)) && !Enabled(x, Store(Stderr)) && !Enabled(x, Release(Stderr));
    assert !Enabled(x, CopiesDone) && !Enabled(x, ShutWrite);
    assert !Enabled(x, Forward(true)) && !Enabled(x, NoMoreRequests) && !Enabled(x, RelayWaited) && !Enabled(x, Shut);
    ClosedIsDelivered(x.history, x.requests);
  }

  /**
   * Runs are as long as the far ends keep talking and no longer, and a run that cannot go on
   * has half-closed and closed both sides.
   */
  lemma TeardownEnds(fromSource: seq<Request>, fromTarget: seq<Request>, run: seq<Move>)
    requires Legal(Fresh(fromSource, fromTarget), run)
    ensures |run| <= 2 * Fetches(run) + |fromSource| + |fromTarget| + 18
    ensures
      var c := End(Fresh(fromSource, fromTarget), run);
      (forall m :: !Allowed(c, m)) ==> Closed(c.target) && Closed(c.source)
  {
    var start := Fresh(fromSource, fromTarget);
    assert Consistent(start.target) && Consistent(start.source);
    assert Work(start.target) + Work(start.source) == |fromSource| + |fromTarget| + 18;
    hide Consistent, Work, Enabled, Closed, Legal, End, Fetches, Opened;
    var c := End(start, run);
    RunIsBounded(start, run);
    RunKeepsConsistent(start, run);
    if forall m :: !Allowed(c, m) {
      forall step ensures !Enabled(c.target, step) && !Enabled(c.source, step) {
        assert !Allowed(c, ToTarget(step)) && !Allowed(c, ToSource(step));
      }
      StuckIsClosed(c.target);
      StuckIsClosed(c.source);
    }
  }
}
