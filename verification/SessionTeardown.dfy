/**
 * The goroutines of one session channel, in every interleaving: the request loop, the goroutine that waits
 * for the command, the sftp server, the copier from the pty and the keepalive.
 *
 * The copiers towards the command touch neither the lock nor the wait group and are left out.
 */
module SessionTeardown {
  import opened Prelude

  type Thread = nat

  /** Where a goroutine stands: what it does next. */
  datatype Place =
    // the request loop
    | Serving
    | Entering(pty: bool)
    | Inside(pty: bool)
    | EnteringShell
    | Creating
    | Refused
    | Choosing
    | StartingPlain
    | OpeningPty
    | CountingCopier
    | ForkingCopier
    | StartingOnPty
    | ForkingKeepalive
    | ClosingSlave(ok: bool)
    | Started
    | Failed
    | ReportingFailure
    | ForkingWaiter
    | CopyingFiles
    | ForkingSftp
    // destroy; `last` when its caller ends with it
    | Destroying(last: bool)
    | Checking(last: bool)
    | AwaitingOutput(last: bool)
    | ClosingChannel(last: bool)
    | ClosingPty(last: bool)
    | ClosingStop(last: bool)
    | Unlocking(last: bool)
    // the other goroutines
    | AwaitingCommand
    | Reporting
    | ServingFiles
    | CopyingOutput
    | Releasing
    | HalfClosing
    | Ticking
    | HangingUp
    | Gone

  datatype StopChannel = Absent | Open | Closed

  /**
   * The session's fields, and a record of what was done. `reporter` is the goroutine that owes the
   * exit message, `copier` the one that owes the wait group its release, and `late` tells whether
   * the command was created after the session was complete.
   */
  datatype Shared = Shared(
    lock: Option<Thread>,
    complete: bool,
    command: bool,
    allocPty: bool,
    pty: bool,
    stop: StopChannel,
    waitGroup: int,
    bodies: nat,
    channelCloses: nat,
    ptyOpens: nat,
    ptyCloses: nat,
    stopCloses: nat,
    created: nat,
    started: nat,
    exits: nat,
    reporter: Option<Thread>,
    copier: Option<Thread>,
    late: bool)

  datatype State = State(threads: map<Thread, Place>, g: Shared)

  const OPENED := State(map[0 := Serving],
    Shared(None, false, false, false, false, Absent, 0, 0, 0, 0, 0, 0, 0, 0, 0, None, None, false))

  /** What a goroutine does by itself: take a request, have a call fail, or whatever comes next. */
  datatype Move = Request(first: Place) | Fail | Go

  datatype Step = Fork(thread: Thread, child: Thread) | Local(thread: Thread, move: Move)

  predicate Wants(p: Place)
  {
    p.Entering? || p.EnteringShell? || p.Destroying?
  }

  predicate Forks(p: Place)
  {
    p.ForkingCopier? || p.ForkingKeepalive? || p.ForkingWaiter? || p.ForkingSftp?
  }

  predicate FirstPlace(p: Place)
  {
    p.Entering? || p.EnteringShell? || p.CopyingFiles? || p.ForkingSftp? || p == Destroying(true)
  }

  predicate Can(g: Shared, p: Place, m: Move)
  {
    match m
    case Request(first) => p.Serving? && FirstPlace(first)
    case Fail => p.StartingPlain? || p.OpeningPty? || p.StartingOnPty? || p.Ticking?
    case Go =>
      if Wants(p) then g.lock.None?
      else if p.AwaitingOutput? then g.waitGroup == 0
      else if p.Ticking? then g.stop.Closed?
      else !p.Serving? && !Forks(p) && !p.Gone?
  }

  function Onward(g: Shared, p: Place, m: Move): Place
    requires Can(g, p, m)
  {
    match m
    case Request(first) => first
    case Fail => if p.Ticking? then HangingUp else if p.StartingOnPty? then ClosingSlave(false) else Failed
    case Go =>
      match p
      case Entering(pty) => Inside(pty)
      case Inside(_) => Serving
      case EnteringShell => Creating
      case Creating => if g.command then Refused else Choosing
      case Refused => Serving
      case Choosing => if g.allocPty then OpeningPty else StartingPlain
      case StartingPlain => Started
      case OpeningPty => CountingCopier
      case CountingCopier => ForkingCopier
      case StartingOnPty => ForkingKeepalive
      case ClosingSlave(ok) => if ok then Started else Failed
      case Started => ForkingWaiter
      case Failed => ReportingFailure
      case ReportingFailure => Destroying(false)
      case CopyingFiles => Destroying(false)
      case Destroying(last) => Checking(last)
      case Checking(last) => if g.complete then Unlocking(last) else AwaitingOutput(last)
      case AwaitingOutput(last) => ClosingChannel(last)
      case ClosingChannel(last) => ClosingPty(last)
      case ClosingPty(last) => ClosingStop(last)
      case ClosingStop(last) => Unlocking(last)
      case Unlocking(last) => if last then Gone else Serving
      case AwaitingCommand => Reporting
      case Reporting => Destroying(true)
      case ServingFiles => Destroying(true)
      case CopyingOutput => Releasing
      case Releasing => HalfClosing
      case HalfClosing => Gone
      case Ticking => Gone
      case HangingUp => Gone
  }

  predicate InDestroy(p: Place)
  {
    || p.Destroying? || p.Checking? || p.AwaitingOutput? || p.ClosingChannel? || p.ClosingPty? || p.ClosingStop?
    || p.Unlocking?
  }

  function Effect(g: Shared, t: Thread, p: Place, m: Move): Shared
    requires Can(g, p, m)
  {
    if !m.Go? then g else if InDestroy(p) then EffectInDestroy(g, t, p) else EffectElsewhere(g, t, p)
  }

  function EffectInDestroy(g: Shared, t: Thread, p: Place): (h: Shared)
    ensures h.command == g.command && h.waitGroup == g.waitGroup && h.reporter == g.reporter && h.copier == g.copier
    ensures h.created == g.created && h.started == g.started && h.exits == g.exits && h.ptyOpens == g.ptyOpens
    ensures h.late == g.late && (h.channelCloses != g.channelCloses ==> p.ClosingChannel?)
    ensures h.stop == if p.ClosingStop? && !g.stop.Absent? then Closed else g.stop
  {
    match p
    case Destroying(_) => g.(lock := Some(t))
    case Checking(_) => if g.complete then g else g.(complete := true, bodies := g.bodies + 1)
    case ClosingChannel(_) => g.(channelCloses := g.channelCloses + 1)
    case ClosingPty(_) => if g.pty then g.(pty := false, ptyCloses := g.ptyCloses + 1) else g
    case ClosingStop(_) => if g.stop.Absent? then g else g.(stop := Closed, stopCloses := g.stopCloses + 1)
    case Unlocking(_) => g.(lock := None)
    case _ => g
  }

  /** The places that create the command, open its pty and start it. */
  predicate Builds(p: Place)
  {
    p.Creating? || p.StartingPlain? || p.OpeningPty? || p.StartingOnPty?
  }

  function EffectElsewhere(g: Shared, t: Thread, p: Place): (h: Shared)
    ensures h.complete == g.complete && h.bodies == g.bodies
    ensures h.stop == if p.StartingOnPty? then Open else g.stop
    ensures h.channelCloses == g.channelCloses && h.ptyCloses == g.ptyCloses && h.stopCloses == g.stopCloses
    ensures Builds(p) || (h.command == g.command && h.created == g.created && h.started == g.started)
    ensures Builds(p) || (h.pty == g.pty && h.ptyOpens == g.ptyOpens && h.late == g.late)
  {
    match p
    case Entering(_) | EnteringShell => g.(lock := Some(t))
    case Inside(pty) => g.(lock := None, allocPty := g.allocPty || pty)
    case Refused | Started | Failed => g.(lock := None)
    case Creating =>
      if g.command then g
      else g.(command := true, created := g.created + 1, reporter := Some(t), late := g.complete)
    case StartingPlain => g.(started := g.started + 1)
    case OpeningPty => g.(pty := true, ptyOpens := g.ptyOpens + 1)
    case CountingCopier => g.(waitGroup := g.waitGroup + 1, copier := Some(t))
    case StartingOnPty => g.(started := g.started + 1, stop := Open)
    case ReportingFailure | Reporting => g.(exits := g.exits + 1, reporter := None)
    case Releasing => g.(waitGroup := g.waitGroup - 1, copier := None)
    case _ => g
  }

  function Parent(p: Place): Place
    requires Forks(p)
  {
    match p
    case ForkingCopier => StartingOnPty
    case ForkingKeepalive => ClosingSlave(true)
    case _ => Serving
  }

  function Child(p: Place): Place
    requires Forks(p)
  {
    match p
    case ForkingCopier => CopyingOutput
    case ForkingKeepalive => Ticking
    case ForkingWaiter => AwaitingCommand
    case ForkingSftp => ServingFiles
  }

  /** What a new goroutine takes over from the one that starts it. */
  function Handover(g: Shared, u: Thread, p: Place): Shared
    requires Forks(p)
  {
    match p
    case ForkingCopier => g.(copier := Some(u))
    case ForkingWaiter => g.(reporter := Some(u))
    case _ => g
  }

  predicate Enabled(s: State, step: Step)
  {
    match step
    case Fork(t, u) => t in s.threads && Forks(s.threads[t]) && u !in s.threads
    case Local(t, m) => t in s.threads && Can(s.g, s.threads[t], m)
  }

  function Next(s: State, step: Step): State
    requires Enabled(s, step)
  {
    match step
    case Fork(t, u) =>
      var p := s.threads[t];
      State(s.threads[t := Parent(p)][u := Child(p)], Handover(s.g, u, p))
    case Local(t, m) =>
      State(s.threads[t := Onward(s.g, s.threads[t], m)], Effect(s.g, t, s.threads[t], m))
  }

  ghost predicate Legal(s: State, run: seq<Step>)
    decreases |run|
  {
    run != [] ==> Enabled(s, run[0]) && Legal(Next(s, run[0]), run[1..])
  }

  ghost function End(s: State, run: seq<Step>): State
    requires Legal(s, run)
    decreases |run|
  {
    if run == [] then s else End(Next(s, run[0]), run[1..])
  }

  ghost predicate Reachable(s: State)
  {
    exists run :: Legal(OPENED, run) && End(OPENED, run) == s
  }

  // Who holds the lock, owes the exit message, owes the release

  predicate Holds(p: Place)
  {
    || p.Inside? || p.Creating? || p.Refused? || p.Choosing? || p.StartingPlain? || p.OpeningPty? || p.CountingCopier?
    || p.ForkingCopier? || p.StartingOnPty? || p.ForkingKeepalive? || p.ClosingSlave? || p.Started? || p.Failed?
    || p.Checking?
    || p.AwaitingOutput? || p.ClosingChannel? || p.ClosingPty? || p.ClosingStop? || p.Unlocking?
  }

  predicate OwesExit(p: Place)
  {
    || p.Choosing? || p.StartingPlain? || p.OpeningPty? || p.CountingCopier? || p.ForkingCopier? || p.StartingOnPty?
    || p.ForkingKeepalive? || p.ClosingSlave? || p.Started? || p.Failed? || p.ReportingFailure? || p.ForkingWaiter?
    || p.AwaitingCommand? || p.Reporting?
  }

  predicate OwesRelease(p: Place)
  {
    p.ForkingCopier? || p.CopyingOutput? || p.Releasing?
  }

  /** One of the three things at most one goroutine has at a time. */
  datatype Token = Lock | Exit | Release

  predicate Has(k: Token, p: Place)
  {
    match k
    case Lock => Holds(p)
    case Exit => OwesExit(p)
    case Release => OwesRelease(p)
  }

  function Holder(k: Token, g: Shared): Option<Thread>
  {
    match k
    case Lock => g.lock
    case Exit => g.reporter
    case Release => g.copier
  }

  ghost predicate Held(k: Token, s: State)
  {
    && (Holder(k, s.g).Some? ==> Holder(k, s.g).value in s.threads)
    && forall t :: t in s.threads ==> (Has(k, s.threads[t]) <==> Holder(k, s.g) == Some(t))
  }

  /** Taken when free, kept, or given up. */
  predicate TokenMove(t: Thread, had: bool, before: Option<Thread>, has: bool, after: Option<Thread>)
  {
    if had == has then after == before
    else if has then before.None? && after == Some(t)
    else after.None?
  }

  /** What a place on the way to the command says of it. */
  predicate AgreesOnCommand(g: Shared, p: Place)
  {
    && (p.Choosing? || p.StartingPlain? || p.OpeningPty? ==> g.ptyOpens == 0)
    && (p.CountingCopier? || p.ForkingCopier? || p.StartingOnPty? ==> g.ptyOpens == 1)
    && (p.Choosing? || p.StartingPlain? || p.OpeningPty? || p.CountingCopier? ==> g.waitGroup == 0)
    && (p.Choosing? || p.StartingPlain? || p.OpeningPty? || p.CountingCopier? || p.ForkingCopier? || p.StartingOnPty?
        ==> g.stop.Absent? && g.started == 0)
    && (OwesExit(p) ==> g.command)
    && (OwesExit(p) && Holds(p) ==> g.late == g.complete)
  }

  /** What a place in the body of destroy says of the session's resources. */
  predicate AgreesOnBody(g: Shared, p: Place)
  {
    && (p.AwaitingOutput? || p.ClosingChannel? ==> g.channelCloses == 0)
    && (p.AwaitingOutput? || p.ClosingChannel? || p.ClosingPty? ==> g.ptyCloses == 0)
    && (InBody(p) ==> g.complete && g.stopCloses == 0 && !g.late)
    && (p.ClosingChannel? || p.ClosingPty? || p.ClosingStop? ==> g.waitGroup == 0)
    && (p.ClosingStop? ==> !g.pty)
  }

  predicate Agrees(g: Shared, p: Place)
  {
    AgreesOnCommand(g, p) && AgreesOnBody(g, p)
  }

  predicate InBody(p: Place)
  {
    p.AwaitingOutput? || p.ClosingChannel? || p.ClosingPty? || p.ClosingStop?
  }

  predicate StartedOnPty(g: Shared)
  {
    g.started == 1 && g.ptyOpens == 1
  }

  /** What a complete session has left behind. */
  predicate Tidy(g: Shared)
  {
    g.complete ==> (g.pty <==> g.late && g.ptyOpens == 1) && (g.stop.Open? <==> g.late && StartedOnPty(g))
  }

  predicate BodyRuns(s: State)
  {
    s.g.lock.Some? && s.g.lock.value in s.threads && InBody(s.threads[s.g.lock.value])
  }

  predicate Debts(g: Shared)
  {
    && g.bodies == (if g.complete then 1 else 0)
    && g.created == (if g.command then 1 else 0)
    && g.exits + (if g.reporter.Some? then 1 else 0) == g.created
    && g.waitGroup == (if g.copier.Some? then 1 else 0)
    && (!g.command ==> g.waitGroup == 0)
    && (g.late ==> g.complete && g.command)
  }

  predicate Resources(g: Shared)
  {
    && g.started <= g.created
    && g.channelCloses <= g.bodies && g.ptyCloses <= g.bodies && g.stopCloses <= g.bodies
    && g.ptyOpens <= g.created && g.ptyCloses + (if g.pty then 1 else 0) == g.ptyOpens
    && (g.stop.Closed? <==> g.stopCloses == 1)
    && (g.stop.Absent? <==> !StartedOnPty(g))
    && (g.stop.Closed? ==> !g.late)
    && (!g.command ==> g.started == 0 && g.stop.Absent?)
  }

  predicate Bookkeeping(g: Shared)
  {
    Debts(g) && Resources(g)
  }

  ghost predicate Consistent(s: State)
  {
    && (forall k :: Held(k, s))
    && Bookkeeping(s.g)
    && (!BodyRuns(s) ==> Tidy(s.g))
    && forall t :: t in s.threads ==> Agrees(s.g, s.threads[t])
  }

  /** What the tokens say of one goroutine. */
  predicate TokensOf(g: Shared, t: Thread, p: Place)
  {
    && (Holds(p) <==> g.lock == Some(t))
    && (OwesExit(p) <==> g.reporter == Some(t))
    && (OwesRelease(p) <==> g.copier == Some(t))
  }

  // What every step keeps

  predicate GivesUp(p: Place)
  {
    p.Inside? || p.Refused? || p.Started? || p.Failed? || p.Unlocking?
  }

  lemma WhoHoldsNext(g: Shared, p: Place, m: Move)
    requires Can(g, p, m)
    ensures Holds(Onward(g, p, m)) <==> (Wants(p) || (Holds(p) && !(m.Go? && GivesUp(p))))
  {
  }

  lemma LockAfter(g: Shared, t: Thread, p: Place, m: Move)
    requires Can(g, p, m)
    ensures Effect(g, t, p, m).lock == if Wants(p) then Some(t) else if m.Go? && GivesUp(p) then None else g.lock
  {
    hide EffectInDestroy, EffectElsewhere;
    if InDestroy(p) {
      LocksInDestroy(g, t, p);
    } else {
      LocksElsewhere(g, t, p);
    }
  }

  lemma LocksInDestroy(g: Shared, t: Thread, p: Place)
    requires InDestroy(p)
    ensures EffectInDestroy(g, t, p).lock == if Wants(p) then Some(t) else if GivesUp(p) then None else g.lock
  {
  }

  lemma LocksElsewhere(g: Shared, t: Thread, p: Place)
    requires !InDestroy(p)
    ensures EffectElsewhere(g, t, p).lock == if Wants(p) then Some(t) else if GivesUp(p) then None else g.lock
  {
  }

  lemma MoveKeepsLock(g: Shared, t: Thread, p: Place, m: Move)
    requires Can(g, p, m)
    ensures TokenMove(t, Holds(p), g.lock, Holds(Onward(g, p, m)), Effect(g, t, p, m).lock)
  {
    WhoHoldsNext(g, p, m);
    LockAfter(g, t, p, m);
    hide Onward, Effect;
  }

  lemma WhoOwesNext(g: Shared, p: Place, m: Move)
    requires Can(g, p, m)
    ensures var q := Onward(g, p, m);
      && (OwesExit(q) <==>
            || (m.Go? && p.Creating? && !g.command)
            || (OwesExit(p) && !(m.Go? && (p.ReportingFailure? || p.Reporting?))))
      && (OwesRelease(q) <==> (m.Go? && p.CountingCopier?) || (OwesRelease(p) && !(m.Go? && p.Releasing?)))
  {
  }

  lemma DebtsAfter(g: Shared, t: Thread, p: Place, m: Move)
    requires Can(g, p, m)
    ensures var h := Effect(g, t, p, m);
      && h.reporter == (if m.Go? && p.Creating? && !g.command then Some(t)
                        else if m.Go? && (p.ReportingFailure? || p.Reporting?) then None else g.reporter)
      && h.copier == (if m.Go? && p.CountingCopier? then Some(t) else if m.Go? && p.Releasing? then None else g.copier)
  {
    hide EffectInDestroy;
  }

  lemma MoveKeepsDebts(g: Shared, t: Thread, p: Place, m: Move)
    requires Can(g, p, m) && AgreesOnCommand(g, p) && Bookkeeping(g)
    ensures TokenMove(t, OwesExit(p), g.reporter, OwesExit(Onward(g, p, m)), Effect(g, t, p, m).reporter)
    ensures TokenMove(t, OwesRelease(p), g.copier, OwesRelease(Onward(g, p, m)), Effect(g, t, p, m).copier)
  {
    WhoOwesNext(g, p, m);
    DebtsAfter(g, t, p, m);
    hide Onward, Effect;
  }

  lemma MoveKeepsToken(k: Token, g: Shared, t: Thread, p: Place, m: Move)
    requires Can(g, p, m) && Agrees(g, p) && Bookkeeping(g)
    ensures var q, h := Onward(g, p, m), Effect(g, t, p, m);
      TokenMove(t, Has(k, p), Holder(k, g), Has(k, q), Holder(k, h))
  {
    MoveKeepsLock(g, t, p, m);
    MoveKeepsDebts(g, t, p, m);
    hide Can, Onward, Effect, Bookkeeping, Holds, OwesExit, OwesRelease;
  }

  lemma DestroyKeepsBookkeeping(g: Shared, t: Thread, p: Place)
    requires InDestroy(p) && AgreesOnBody(g, p) && Bookkeeping(g)
    ensures Bookkeeping(EffectInDestroy(g, t, p))
  {
  }

  lemma WorkKeepsBookkeeping(g: Shared, t: Thread, p: Place)
    requires !InDestroy(p) && TokensOf(g, t, p) && AgreesOnCommand(g, p) && Bookkeeping(g)
    ensures Bookkeeping(EffectElsewhere(g, t, p))
  {
    hide EffectElsewhere, Debts, Resources, TokensOf, AgreesOnCommand;
    WorkKeepsDebts(g, t, p);
    WorkKeepsResources(g, t, p);
  }

  lemma WorkKeepsDebts(g: Shared, t: Thread, p: Place)
    requires !InDestroy(p) && TokensOf(g, t, p) && AgreesOnCommand(g, p) && Debts(g)
    ensures Debts(EffectElsewhere(g, t, p))
  {
  }

  lemma WorkKeepsResources(g: Shared, t: Thread, p: Place)
    requires !InDestroy(p) && AgreesOnCommand(g, p) && Debts(g) && Resources(g)
    ensures Resources(EffectElsewhere(g, t, p))
  {
    hide EffectElsewhere, AgreesOnCommand;
    if Builds(p) {
      BuildKeepsResources(g, t, p);
    }
  }

  lemma BuildKeepsResources(g: Shared, t: Thread, p: Place)
    requires Builds(p) && AgreesOnCommand(g, p) && Debts(g) && Resources(g)
    ensures Resources(EffectElsewhere(g, t, p))
  {
  }

  lemma MoveKeepsBookkeeping(g: Shared, t: Thread, p: Place, m: Move)
    requires Can(g, p, m) && TokensOf(g, t, p) && Agrees(g, p) && Bookkeeping(g)
    ensures Bookkeeping(Effect(g, t, p, m))
  {
    hide Bookkeeping, AgreesOnBody, AgreesOnCommand, TokensOf, InDestroy, EffectInDestroy, EffectElsewhere;
    if InDestroy(p) {
      DestroyKeepsBookkeeping(g, t, p);
    } else {
      WorkKeepsBookkeeping(g, t, p);
    }
  }

  lemma MoveKeepsAgreement(g: Shared, t: Thread, p: Place, m: Move)
    requires Can(g, p, m) && TokensOf(g, t, p) && Agrees(g, p) && Bookkeeping(g)
    ensures Agrees(Effect(g, t, p, m), Onward(g, p, m))
  {
    MoveKeepsCommand(g, t, p, m);
    MoveKeepsBody(g, t, p, m);
    hide Can, Onward, Effect, Bookkeeping, AgreesOnCommand, AgreesOnBody, TokensOf;
  }

  lemma NoDebtAgrees(g: Shared, p: Place)
    requires !OwesExit(p)
    ensures AgreesOnCommand(g, p)
  {
  }

  /** The goroutine that has come to owe the exit message. */
  lemma CreatorAgrees(g: Shared, t: Thread)
    requires Can(g, Creating, Go) && !g.command && Bookkeeping(g)
    ensures AgreesOnCommand(Effect(g, t, Creating, Go), Onward(g, Creating, Go))
  {
  }

  lemma DebtorAgrees(g: Shared, t: Thread, p: Place, m: Move)
    requires Can(g, p, m) && OwesExit(p) && OwesExit(Onward(g, p, m)) && AgreesOnCommand(g, p) && Bookkeeping(g)
    ensures AgreesOnCommand(Effect(g, t, p, m), Onward(g, p, m))
  {
    hide EffectInDestroy;
  }

  lemma MoveKeepsCommand(g: Shared, t: Thread, p: Place, m: Move)
    requires Can(g, p, m) && AgreesOnCommand(g, p) && Bookkeeping(g)
    ensures AgreesOnCommand(Effect(g, t, p, m), Onward(g, p, m))
  {
    hide Can, Onward, Effect, AgreesOnCommand, Bookkeeping, OwesExit;
    WhoOwesNext(g, p, m);
    if !OwesExit(Onward(g, p, m)) {
      NoDebtAgrees(Effect(g, t, p, m), Onward(g, p, m));
    } else if OwesExit(p) {
      DebtorAgrees(g, t, p, m);
    } else {
      CreatorAgrees(g, t);
    }
  }

  lemma BodyComesFromDestroy(g: Shared, p: Place, m: Move)
    requires Can(g, p, m)
    ensures InBody(Onward(g, p, m)) ==> InDestroy(p) && m.Go?
  {
  }

  lemma OutsideBodyAgrees(g: Shared, p: Place)
    requires !InBody(p)
    ensures AgreesOnBody(g, p)
  {
  }

  lemma DestroyKeepsBody(g: Shared, t: Thread, p: Place)
    requires InDestroy(p) && Can(g, p, Go) && AgreesOnBody(g, p) && Bookkeeping(g)
    ensures AgreesOnBody(EffectInDestroy(g, t, p), Onward(g, p, Go))
  {
  }

  lemma MoveKeepsBody(g: Shared, t: Thread, p: Place, m: Move)
    requires Can(g, p, m) && AgreesOnBody(g, p) && Bookkeeping(g)
    ensures AgreesOnBody(Effect(g, t, p, m), Onward(g, p, m))
  {
    hide Can, Onward, AgreesOnBody, Bookkeeping, InBody, InDestroy, EffectInDestroy, EffectElsewhere;
    BodyComesFromDestroy(g, p, m);
    if InBody(Onward(g, p, m)) {
      DestroyKeepsBody(g, t, p);
    } else {
      OutsideBodyAgrees(Effect(g, t, p, m), Onward(g, p, m));
    }
  }

  /** A goroutine elsewhere meanwhile finds the session as it expects. */
  lemma MoveKeepsOthers(g: Shared, t: Thread, p: Place, m: Move, u: Thread, other: Place)
    requires Can(g, p, m) && TokensOf(g, t, p) && Bookkeeping(g)
    requires t != u && TokensOf(g, u, other) && Agrees(g, other)
    ensures Agrees(Effect(g, t, p, m), other)
  {
  }

  lemma DestroyKeepsTidy(g: Shared, t: Thread, p: Place)
    requires InDestroy(p) && Can(g, p, Go) && AgreesOnBody(g, p) && Bookkeeping(g) && (InBody(p) || Tidy(g))
    ensures InBody(Onward(g, p, Go)) || Tidy(EffectInDestroy(g, t, p))
  {
  }

  lemma WorkKeepsTidy(g: Shared, t: Thread, p: Place)
    requires !InDestroy(p) && AgreesOnCommand(g, p) && Bookkeeping(g) && Tidy(g)
    ensures Tidy(EffectElsewhere(g, t, p))
  {
  }

  lemma MoveKeepsTidy(g: Shared, t: Thread, p: Place, m: Move)
    requires Can(g, p, m) && Agrees(g, p) && Bookkeeping(g) && (InBody(p) || Tidy(g))
    ensures InBody(Onward(g, p, m)) || Tidy(Effect(g, t, p, m))
  {
    hide Bookkeeping, AgreesOnBody, AgreesOnCommand, EffectInDestroy, EffectElsewhere, Tidy, Onward;
    if m.Go? && InDestroy(p) {
      DestroyKeepsTidy(g, t, p);
    } else if m.Go? {
      WorkKeepsTidy(g, t, p);
    }
  }

  lemma MoveKeepsHeld(k: Token, s: State, t: Thread, m: Move)
    requires Consistent(s) && t in s.threads && Can(s.g, s.threads[t], m)
    ensures Held(k, Next(s, Local(t, m)))
  {
    MoveKeepsToken(k, s.g, t, s.threads[t], m);
    assert Held(k, s);
    hide Can, Onward, Effect, Has, Holder, Agrees, Bookkeeping, Consistent;
  }

  lemma MoveKeepsConsistent(s: State, t: Thread, m: Move)
    requires Consistent(s) && t in s.threads && Can(s.g, s.threads[t], m)
    ensures Consistent(Next(s, Local(t, m)))
  {
    var p, r := s.threads[t], Next(s, Local(t, m));
    TokensAt(s, t);
    hide Can, Onward, Effect, Has, Holder, Agrees, Bookkeeping, TokensOf, Tidy, Held;
    forall k ensures Held(k, r) {
      MoveKeepsHeld(k, s, t, m);
    }
    MoveKeepsBookkeeping(s.g, t, p, m);
    MoveKeepsAgreement(s.g, t, p, m);
    forall u | u in r.threads ensures Agrees(r.g, r.threads[u]) {
      if u != t {
        TokensAt(s, u);
        MoveKeepsOthers(s.g, t, p, m, u, s.threads[u]);
      }
    }
    MoveLeavesTidy(s, t, m);
  }

  lemma TokensAt(s: State, t: Thread)
    requires Consistent(s) && t in s.threads
    ensures TokensOf(s.g, t, s.threads[t])
  {
    assert Held(Lock, s) && Held(Exit, s) && Held(Release, s);
    assert Has(Lock, s.threads[t]) == Holds(s.threads[t]) && Has(Exit, s.threads[t]) == OwesExit(s.threads[t]);
  }

  lemma BodyHolds(p: Place)
    ensures InBody(p) ==> Holds(p)
  {
  }

  lemma MoveLeavesTidy(s: State, t: Thread, m: Move)
    requires Consistent(s) && t in s.threads && Can(s.g, s.threads[t], m)
    ensures var r := Next(s, Local(t, m)); !BodyRuns(r) ==> Tidy(r.g)
  {
    hide Can, Onward, Effect, Agrees, Bookkeeping, Tidy, Holds, InBody, Held;
    var p := s.threads[t];
    TokensAt(s, t);
    MoveKeepsLock(s.g, t, p, m);
    BodyHolds(p);
    BodyHolds(Onward(s.g, p, m));
    LockHolderIsThere(s);
    if !BodyRuns(s) || InBody(p) {
      MoveKeepsTidy(s.g, t, p, m);
    }
  }

  lemma ForkKeepsHeld(k: Token, s: State, t: Thread, u: Thread)
    requires Held(k, s) && Enabled(s, Fork(t, u))
    ensures Held(k, Next(s, Fork(t, u)))
  {
  }

  lemma ForkKeepsAgreement(g: Shared, p: Place, u: Thread)
    requires Forks(p) && Agrees(g, p)
    ensures Agrees(Handover(g, u, p), Parent(p)) && Agrees(Handover(g, u, p), Child(p))
    ensures !InBody(p) && !InBody(Parent(p)) && !InBody(Child(p))
  {
  }

  lemma ForkKeepsOthers(g: Shared, p: Place, u: Thread, other: Place)
    requires Forks(p)
    ensures Agrees(g, other) ==> Agrees(Handover(g, u, p), other)
  {
    hide Holds, OwesExit;
  }

  lemma ForkKeepsBookkeeping(g: Shared, t: Thread, p: Place, u: Thread)
    requires Forks(p) && Bookkeeping(g) && TokensOf(g, t, p)
    ensures Bookkeeping(Handover(g, u, p)) && Handover(g, u, p).lock == g.lock
    ensures Tidy(g) ==> Tidy(Handover(g, u, p))
  {
  }

  lemma ForkKeepsConsistent(s: State, t: Thread, u: Thread)
    requires Consistent(s) && Enabled(s, Fork(t, u))
    ensures Consistent(Next(s, Fork(t, u)))
  {
    var p, r := s.threads[t], Next(s, Fork(t, u));
    TokensAt(s, t);
    hide Agrees, Bookkeeping, Held, Handover, Parent, Child, Tidy, InBody, TokensOf, Forks;
    ForkKeepsAgreement(s.g, p, u);
    ForkKeepsBookkeeping(s.g, t, p, u);
    forall k ensures Held(k, r) {
      ForkKeepsHeld(k, s, t, u);
    }
    forall v | v in r.threads ensures Agrees(r.g, r.threads[v]) {
      if v != t && v != u {
        ForkKeepsOthers(s.g, p, u, s.threads[v]);
      }
    }
    LockHolderIsThere(s);
    assert BodyRuns(r) == BodyRuns(s);
  }

  lemma LockHolderIsThere(s: State)
    requires Consistent(s)
    ensures s.g.lock.Some? ==> s.g.lock.value in s.threads
  {
    assert Held(Lock, s);
  }

  lemma StepKeepsConsistent(s: State, step: Step)
    requires Consistent(s) && Enabled(s, step)
    ensures Consistent(Next(s, step))
  {
    hide Consistent, Can, Forks;
    match step
    case Fork(t, u) => ForkKeepsConsistent(s, t, u);
    case Local(t, m) => MoveKeepsConsistent(s, t, m);
  }

  lemma {:induction false} RunKeepsConsistent(s: State, run: seq<Step>)
    requires Consistent(s) && Legal(s, run)
    ensures Consistent(End(s, run))
    decreases |run|
  {
    hide Consistent, Enabled, Next;
    if run != [] {
      StepKeepsConsistent(s, run[0]);
      RunKeepsConsistent(Next(s, run[0]), run[1..]);
    }
  }

  lemma OpenedIsConsistent()
    ensures Consistent(OPENED)
  {
  }

  lemma ReachableIsConsistent(s: State)
    requires Reachable(s)
    ensures Consistent(s)
  {
    hide Consistent;
    var run :| Legal(OPENED, run) && End(OPENED, run) == s;
    OpenedIsConsistent();
    RunKeepsConsistent(OPENED, run);
  }

  // What that means

  /** The body of destroy runs at most once, and closes the channel, the pty and the stop channel at most once each. */
  lemma DestroyedOnce(s: State)
    requires Reachable(s)
    ensures s.g.bodies <= 1 && (s.g.bodies == 1 <==> s.g.complete)
    ensures s.g.channelCloses <= s.g.bodies && s.g.ptyCloses <= s.g.bodies && s.g.stopCloses <= s.g.bodies
    ensures s.g.ptyCloses <= s.g.ptyOpens <= 1
    ensures 0 <= s.g.waitGroup <= 1
  {
    ReachableIsConsistent(s);
  }

  lemma ChannelClosesFrom(g: Shared, t: Thread, p: Place, m: Move)
    requires Can(g, p, m)
    ensures Effect(g, t, p, m).channelCloses != g.channelCloses ==> p.ClosingChannel?
  {
    hide EffectInDestroy, EffectElsewhere;
  }

  /** The channel is closed while the wait group is zero: nobody is still copying the pty's output to it. */
  lemma ChannelClosesAtZero(s: State, step: Step)
    requires Reachable(s) && Enabled(s, step) && Next(s, step).g.channelCloses != s.g.channelCloses
    ensures s.g.waitGroup == 0
    ensures forall u :: u in s.threads ==> !OwesRelease(s.threads[u])
  {
    ReachableIsConsistent(s);
    if step.Local? {
      ChannelClosesFrom(s.g, step.thread, s.threads[step.thread], step.move);
      hide Can, Onward, Effect;
      assert Agrees(s.g, s.threads[step.thread]);
      assert Held(Release, s);
      forall u | u in s.threads ensures !OwesRelease(s.threads[u]) {
        assert Has(Release, s.threads[u]) == OwesRelease(s.threads[u]);
      }
    }
  }

  /** One command at most, started once at most; one exit message for it, as soon as nobody is on the way to send it. */
  lemma OneCommandOneExit(s: State)
    requires Reachable(s)
    ensures s.g.started <= s.g.created <= 1 && s.g.exits <= s.g.created
    ensures s.g.exits == s.g.created <==> forall t :: t in s.threads ==> !OwesExit(s.threads[t])
  {
    ReachableIsConsistent(s);
    assert Held(Exit, s);
    hide OwesExit, OwesRelease, Holds, Agrees;
    forall t | t in s.threads ensures OwesExit(s.threads[t]) <==> s.g.reporter == Some(t) {
      assert Has(Exit, s.threads[t]) == OwesExit(s.threads[t]);
    }
  }

  // Who waits for whom

  /** The copier from the pty and the keepalive. */
  predicate Aside(p: Place)
  {
    p.CopyingOutput? || p.Releasing? || p.HalfClosing? || p.Ticking? || p.HangingUp?
  }

  /** They neither hold nor want the lock, never come to, and go on whoever holds it. */
  lemma AsideNeedsNoLock(g: Shared, p: Place, m: Move, holder: Option<Thread>)
    requires Aside(p)
    ensures !Holds(p) && !Wants(p)
    ensures Can(g, p, m) <==> Can(g.(lock := holder), p, m)
    ensures Can(g, p, m) ==> Aside(Onward(g, p, m)) || Onward(g, p, m).Gone?
  {
  }

  // What a session leaves behind

  /** A complete session has a pty open, or a stop channel, exactly when its command got one after that. */
  lemma LeftOpenIfLate(s: State)
    requires Reachable(s) && s.g.complete && s.g.lock.None?
    ensures s.g.pty <==> s.g.late && s.g.ptyOpens == 1
    ensures s.g.stop.Open? <==> s.g.late && StartedOnPty(s.g)
  {
    ReachableIsConsistent(s);
  }

  lemma {:induction false} EndOfLonger(s: State, run: seq<Step>, step: Step)
    requires Legal(s, run) && Enabled(End(s, run), step)
    ensures Legal(s, run + [step]) && End(s, run + [step]) == Next(End(s, run), step)
    decreases |run|
  {
    hide Enabled, Next;
    if run == [] {
      assert run + [step] == [step];
    } else {
      assert (run + [step])[1..] == run[1..] + [step];
      EndOfLonger(Next(s, run[0]), run[1..], step);
    }
  }

  lemma ReachableGoesOn(s: State, step: Step)
    requires Reachable(s) && Enabled(s, step)
    ensures Reachable(Next(s, step))
  {
    hide Enabled, Next;
    var run :| Legal(OPENED, run) && End(OPENED, run) == s;
    EndOfLonger(OPENED, run, step);
  }

  lemma Goes(threads: map<Thread, Place>, t: Thread, p: Place, g: Shared, m: Move, q: Place, h: Shared)
    requires Reachable(State(threads[t := p], g)) && Can(g, p, m)
    requires Onward(g, p, m) == q && Effect(g, t, p, m) == h
    ensures Reachable(State(threads[t := q], h))
  {
    hide Can, Onward, Effect, Reachable;
    ReachableGoesOn(State(threads[t := p], g), Local(t, m));
    assert threads[t := p][t := q] == threads[t := q];
  }

  lemma PtyIsRequested()
    ensures Reachable(State(map[0 := Serving], OPENED.g.(allocPty := true)))
  {
    assert Legal(OPENED, []) && End(OPENED, []) == OPENED;
    assert Reachable(OPENED);
    hide Reachable;
    var g := OPENED.g;
    var g1 := g.(lock := Some(0));
    Goes(map[], 0, Serving, g, Request(Entering(true)), Entering(true), g);
    Goes(map[], 0, Entering(true), g, Go, Inside(true), g1);
    Goes(map[], 0, Inside(true), g1, Go, Serving, g.(allocPty := true));
  }

  lemma SftpIsRequested(g: Shared)
    requires Reachable(State(map[0 := Serving], g))
    ensures Reachable(State(map[0 := Serving, 1 := ServingFiles], g))
  {
    hide Reachable;
    Goes(map[], 0, Serving, g, Request(ForkingSftp), ForkingSftp, g);
    var x := State(map[0 := ForkingSftp], g);
    ReachableGoesOn(x, Fork(0, 1));
    assert Next(x, Fork(0, 1)).threads == map[0 := Serving, 1 := ServingFiles];
  }

  lemma DestroyBegins(threads: map<Thread, Place>, t: Thread, g: Shared)
    requires Reachable(State(threads[t := ServingFiles], g)) && g.lock.None?
    ensures Reachable(State(threads[t := Checking(true)], g.(lock := Some(t))))
  {
    hide Reachable;
    Goes(threads, t, ServingFiles, g, Go, Destroying(true), g);
    Goes(threads, t, Destroying(true), g, Go, Checking(true), g.(lock := Some(t)));
  }

  lemma DestroyWaits(threads: map<Thread, Place>, t: Thread, g: Shared)
    requires Reachable(State(threads[t := Checking(true)], g)) && !g.complete && g.waitGroup == 0
    ensures Reachable(State(threads[t := ClosingChannel(true)], g.(complete := true, bodies := g.bodies + 1)))
  {
    hide Reachable;
    var g1 := g.(complete := true, bodies := g.bodies + 1);
    Goes(threads, t, Checking(true), g, Go, AwaitingOutput(true), g1);
    Goes(threads, t, AwaitingOutput(true), g1, Go, ClosingChannel(true), g1);
  }

  lemma DestroyCloses(threads: map<Thread, Place>, t: Thread, g: Shared)
    requires Reachable(State(threads[t := ClosingChannel(true)], g)) && !g.pty
    ensures Reachable(State(threads[t := ClosingStop(true)], g.(channelCloses := g.channelCloses + 1)))
  {
    hide Reachable;
    var g1 := g.(channelCloses := g.channelCloses + 1);
    Goes(threads, t, ClosingChannel(true), g, Go, ClosingPty(true), g1);
    Goes(threads, t, ClosingPty(true), g1, Go, ClosingStop(true), g1);
  }

  lemma DestroyEnds(threads: map<Thread, Place>, t: Thread, g: Shared)
    requires Reachable(State(threads[t := ClosingStop(true)], g)) && g.stop.Absent?
    ensures Reachable(State(threads[t := Gone], g.(lock := None)))
  {
    hide Reachable;
    Goes(threads, t, ClosingStop(true), g, Go, Unlocking(true), g);
    Goes(threads, t, Unlocking(true), g, Go, Gone, g.(lock := None));
  }

  lemma ShellBegins(threads: map<Thread, Place>, t: Thread, g: Shared)
    requires Reachable(State(threads[t := Serving], g)) && g.lock.None? && !g.command
    ensures Reachable(State(threads[t := Choosing],
              g.(lock := Some(t), command := true, created := g.created + 1, reporter := Some(t), late := g.complete)))
  {
    hide Reachable;
    var g1 := g.(lock := Some(t));
    var g2 := g1.(command := true, created := g.created + 1, reporter := Some(t), late := g.complete);
    Goes(threads, t, Serving, g, Request(EnteringShell), EnteringShell, g);
    Goes(threads, t, EnteringShell, g, Go, Creating, g1);
    Goes(threads, t, Creating, g1, Go, Choosing, g2);
  }

  lemma ShellOpensPty(threads: map<Thread, Place>, t: Thread, g: Shared)
    requires Reachable(State(threads[t := Choosing], g)) && g.allocPty
    ensures Reachable(State(threads[t := CountingCopier], g.(pty := true, ptyOpens := g.ptyOpens + 1)))
  {
    hide Reachable;
    Goes(threads, t, Choosing, g, Go, OpeningPty, g);
    Goes(threads, t, OpeningPty, g, Go, CountingCopier, g.(pty := true, ptyOpens := g.ptyOpens + 1));
  }

  /**
   * Nothing keeps a command from being created, with a pty, once the session has been destroyed:
   * here the sftp server ends between a pty request and a shell request.
   */
  lemma PtyMayOutliveDestroy() returns (s: State)
    ensures Reachable(s) && s.threads == map[0 := CountingCopier, 1 := Gone]
    ensures s.g.complete && s.g.channelCloses == 1 && s.g.pty && s.g.late
  {
    hide Reachable, Can, Onward, Effect;
    var g := OPENED.g.(allocPty := true);
    PtyIsRequested();
    SftpIsRequested(g);
    assert map[0 := Serving, 1 := ServingFiles] == map[0 := Serving][1 := ServingFiles];
    var server := map[0 := Serving];
    DestroyBegins(server, 1, g);
    DestroyWaits(server, 1, g.(lock := Some(1)));
    g := g.(complete := true, bodies := 1);
    DestroyCloses(server, 1, g.(lock := Some(1)));
    g := g.(channelCloses := 1);
    DestroyEnds(server, 1, g.(lock := Some(1)));
    var others := map[1 := Gone];
    assert map[0 := Serving][1 := Gone] == others[0 := Serving];
    ShellBegins(others, 0, g);
    g := g.(lock := Some(0), command := true, created := 1, reporter := Some(0), late := true);
    ShellOpensPty(others, 0, g);
    s := State(others[0 := CountingCopier], g.(pty := true, ptyOpens := 1));
    assert s.threads == map[0 := CountingCopier, 1 := Gone];
  }
}
