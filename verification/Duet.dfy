/** Every interleaving of the sender and the receiver of a sound copy keeps in step, never jams, and ends well. */
module Duet {
  import opened Prelude
  import opened Sender
  import opened Transmission
  import opened Placement
  import opened RoundTrip
  import opened Lines
  import opened Lockstep

  /** The bytes each side has got, how many each has written, and the two queues in between. */
  datatype State = State(sGot: Bytes, sSent: nat, rGot: Bytes, rSent: nat, data: Bytes, acks: Bytes)

  const START := State([], 0, [], 0, [], [])

  predicate SenderWrites(p: Setup, s: State, s': State)
  {
    var text := Emitted(SenderRun(p, s.sGot));
    s.sSent < |text| && s' == s.(sSent := s.sSent + 1, data := s.data + [text[s.sSent]])
  }

  /** A side reads only when it has written all it can and needs more input. */
  predicate SenderNeedsInput(p: Setup, s: State)
  {
    Waits(SenderRun(p, s.sGot)) && s.sSent == |Emitted(SenderRun(p, s.sGot))|
  }

  predicate SenderReads(p: Setup, s: State, s': State)
  {
    SenderNeedsInput(p, s) && s.acks != [] && s' == s.(sGot := s.sGot + [s.acks[0]], acks := s.acks[1..])
  }

  predicate ReceiverWrites(p: Setup, s: State, s': State)
  {
    var text := Emitted(ReceiverRun(p, s.rGot));
    s.rSent < |text| && s' == s.(rSent := s.rSent + 1, acks := s.acks + [text[s.rSent]])
  }

  predicate ReceiverNeedsInput(p: Setup, s: State)
  {
    Waits(ReceiverRun(p, s.rGot)) && s.rSent == |Emitted(ReceiverRun(p, s.rGot))|
  }

  predicate ReceiverReads(p: Setup, s: State, s': State)
  {
    ReceiverNeedsInput(p, s) && s.data != [] && s' == s.(rGot := s.rGot + [s.data[0]], data := s.data[1..])
  }

  predicate Next(p: Setup, s: State, s': State)
  {
    SenderWrites(p, s, s') || SenderReads(p, s, s') || ReceiverWrites(p, s, s') || ReceiverReads(p, s, s')
  }

  ghost predicate CanStep(p: Setup, s: State)
  {
    exists s' :: Next(p, s, s')
  }

  /** A run of the pair, from the start, in any interleaving. */
  ghost predicate IsRun(p: Setup, run: seq<State>)
  {
    && run != [] && run[0] == START
    && forall i :: 0 <= i < |run| - 1 ==> Next(p, run[i], run[i + 1])
  }

  ghost predicate Reachable(p: Setup, s: State)
  {
    exists run :: IsRun(p, run) && run[|run| - 1] == s
  }

  // ---------- the invariant ----------

  function Min(a: nat, b: nat): nat
  {
    if a <= b then a else b
  }

  /** The first `k` lines, in bytes. */
  function Reach(lines: seq<Line>, k: nat): nat
  {
    |Flat(lines[..Min(k, |lines|)])|
  }

  ghost predicate InStep(p: Setup, s: State)
    requires Sound(p)
  {
    var (lines, text) := (Script(p), Flat(Script(p)));
    && |s.sGot| <= |lines| + 1 && s.sGot == Zeros(|s.sGot|, [])
    && |s.rGot| <= s.sSent <= Reach(lines, |s.sGot|) <= |text|
    && s.rGot == text[..|s.rGot|] && s.data == text[|s.rGot|..s.sSent]
    && |s.sGot| <= s.rSent <= 1 + Whole(lines, |s.rGot|)
    && s.acks == Zeros(s.rSent - |s.sGot|, [])
  }

  lemma {:induction false} FlatSplit(lines: seq<Line>, k: nat)
    requires k <= |lines|
    ensures Flat(lines) == Flat(lines[..k]) + Flat(lines[k..])
  {
    if k > 0 {
      FlatSplit(lines[1..], k - 1);
      assert lines[..k][1..] == lines[1..][..k - 1] && lines[1..][k - 1..] == lines[k..];
    } else {
      assert lines[k..] == lines;
    }
  }

  lemma ReachGrows(lines: seq<Line>, k: nat)
    ensures Reach(lines, k) <= Reach(lines, k + 1) <= |Flat(lines)|
    ensures k >= |lines| ==> Reach(lines, k) == |Flat(lines)|
    ensures k <= |lines| ==> Flat(lines[..k]) <= Flat(lines)
  {
    if k < |lines| {
      FlatSplit(lines, k);
      FlatSplit(lines, k + 1);
      FlatSplit(lines[..k + 1], k);
      assert lines[..k + 1][..k] == lines[..k];
    } else {
      assert lines[..|lines|] == lines;
    }
  }

  lemma {:induction false} WholeGrows(lines: seq<Line>, g: nat)
    ensures Whole(lines, g) <= Whole(lines, g + 1) <= |lines|
  {
    if lines != [] && g >= |lines[0].text| {
      WholeGrows(lines[1..], g - |lines[0].text|);
    } else if lines != [] && g + 1 >= |lines[0].text| {
      WholeGrows(lines[1..], g + 1 - |lines[0].text|);
    }
  }

  /** `k` lines are whole in the first `k` lines, and never more before them. */
  lemma {:induction false} WholeAtReach(lines: seq<Line>, k: nat, g: nat)
    requires Solid(lines) && k <= |lines| && g <= Reach(lines, k)
    ensures Whole(lines, g) <= k && (Whole(lines, g) == k <==> g == Reach(lines, k))
  {
    if lines != [] && k > 0 {
      assert lines[..k][1..] == lines[1..][..k - 1];
      if g >= |lines[0].text| {
        WholeAtReach(lines[1..], k - 1, g - |lines[0].text|);
      }
    } else if lines != [] {
      assert lines[0].text != [];
    }
  }

  lemma ZerosTail(n: nat)
    requires n > 0
    ensures |Zeros(n, [])| == n && Zeros(n, [])[0] == 0 && Zeros(n, [])[1..] == Zeros(n - 1, [])
  {
    ZerosLength(n, []);
  }

  lemma ZerosSnoc(n: nat)
    ensures Zeros(n, []) + [0] == Zeros(n + 1, []) && |Zeros(n, [])| == n
  {
    ZerosAppend(n, [0]);
    ZerosAdd(n, 1, []);
    ZerosLength(n, []);
    assert Zeros(1, []) == [0];
  }

  /** What the programs do in a state in step. */
  lemma SenderView(p: Setup, s: State)
    requires Sound(p) && InStep(p, s)
    ensures Waits(SenderRun(p, s.sGot)) <==> |s.sGot| <= |Script(p)|
    ensures |Emitted(SenderRun(p, s.sGot))| == Reach(Script(p), |s.sGot|)
    ensures Emitted(SenderRun(p, s.sGot)) <= Flat(Script(p))
  {
    hide SenderRun, Waits, Emitted;
    ReachGrows(Script(p), |s.sGot|);
    if |s.sGot| <= |Script(p)| {
      SenderWaits(p, |s.sGot|);
    } else {
      SenderFinishes(p);
    }
  }

  lemma ReceiverView(p: Setup, s: State)
    requires Sound(p) && InStep(p, s)
    ensures Waits(ReceiverRun(p, s.rGot))
    ensures Emitted(ReceiverRun(p, s.rGot)) == Zeros(1 + Whole(Script(p), |s.rGot|), [])
  {
    hide ReceiverRun, Waits, Emitted;
    ReceiverWaits(p, |s.rGot|);
  }

  lemma SenderStepKeepsStep(p: Setup, s: State, s': State)
    requires Sound(p) && InStep(p, s) && (SenderWrites(p, s, s') || SenderReads(p, s, s'))
    ensures InStep(p, s')
  {
    hide SenderRun, Waits, Emitted, Room, SendableAll, Whole, AllLines, Flat;
    var text := Flat(Script(p));
    SenderView(p, s);
    ReachGrows(Script(p), |s.sGot|);
    if SenderWrites(p, s, s') {
      assert s'.data == text[|s.rGot|..s'.sSent];
    } else {
      ZerosLength(s.rSent - |s.sGot|, []);
      ZerosTail(s.rSent - |s.sGot|);
      ZerosSnoc(|s.sGot|);
    }
  }

  lemma ReceiverStepKeepsStep(p: Setup, s: State, s': State)
    requires Sound(p) && InStep(p, s) && (ReceiverWrites(p, s, s') || ReceiverReads(p, s, s'))
    ensures InStep(p, s')
  {
    hide ReceiverRun, Waits, Emitted, Room, SendableAll, Whole, AllLines, Flat, Reach;
    var (lines, text) := (Script(p), Flat(Script(p)));
    ReceiverView(p, s);
    if ReceiverWrites(p, s, s') {
      ZerosAreZero(1 + Whole(lines, |s.rGot|), s.rSent);
      ZerosSnoc(s.rSent - |s.sGot|);
    } else {
      WholeGrows(lines, |s.rGot|);
      assert s'.rGot == text[..|s'.rGot|];
      assert s'.data == text[|s'.rGot|..s'.sSent];
    }
  }

  lemma StepKeepsStep(p: Setup, s: State, s': State)
    requires Sound(p) && InStep(p, s) && Next(p, s, s')
    ensures InStep(p, s')
    ensures Work(s') == Work(s) + 1
  {
    hide SenderRun, ReceiverRun, Waits, Emitted, InStep, Sound;
    if SenderWrites(p, s, s') || SenderReads(p, s, s') {
      SenderStepKeepsStep(p, s, s');
    } else {
      ReceiverStepKeepsStep(p, s, s');
    }
  }

  lemma {:induction false} ZerosAreZero(n: nat, i: nat)
    requires i < |Zeros(n, [])|
    ensures Zeros(n, [])[i] == 0 && |Zeros(n, [])| == n
  {
    ZerosLength(n, []);
    if i > 0 {
      ZerosAreZero(n - 1, i - 1);
    }
  }

  /** Each step moves one byte in or out of one side. */
  function Work(s: State): nat
  {
    |s.sGot| + s.sSent + |s.rGot| + s.rSent
  }

  lemma StartIsInStep(p: Setup)
    requires Sound(p)
    ensures InStep(p, START)
  {
    ReachGrows(Script(p), 0);
  }

  lemma {:induction false} RunIsInStep(p: Setup, run: seq<State>)
    requires Sound(p) && IsRun(p, run)
    ensures InStep(p, run[|run| - 1]) && Work(run[|run| - 1]) == |run| - 1
  {
    hide Next, InStep, Sound;
    if |run| == 1 {
      StartIsInStep(p);
    } else {
      var front := run[..|run| - 1];
      RunIsInStep(p, front);
      StepKeepsStep(p, run[|run| - 2], run[|run| - 1]);
    }
  }

  // ---------- what it means ----------

  /**
   Safety: at most one confirmation is unread; every line the sender has begun, but the last, has been
   confirmed and the confirmation read; and the two sides are never both waiting for each other.
   */
  lemma LockstepSafety(p: Setup, s: State)
    requires Sound(p) && Reachable(p, s)
    ensures |s.acks| <= 1
    ensures s.sSent <= Reach(Script(p), |s.sGot|)
    ensures s.sSent > 0 ==> |s.sGot| > 0
    ensures !(SenderNeedsInput(p, s) && s.acks == [] && ReceiverNeedsInput(p, s) && s.data == [])
  {
    hide SenderRun, ReceiverRun, Waits, Emitted, Room, SendableAll, Whole, AllLines;
    var run :| IsRun(p, run) && run[|run| - 1] == s;
    RunIsInStep(p, run);
    UnreadConfirmations(p, s);
    SenderView(p, s);
    ReceiverView(p, s);
    ZerosLength(1 + Whole(Script(p), |s.rGot|), []);
    ZerosLength(s.rSent - |s.sGot|, []);
  }

  lemma UnreadConfirmations(p: Setup, s: State)
    requires Sound(p) && InStep(p, s)
    ensures Solid(Script(p)) && |s.acks| == s.rSent - |s.sGot| <= 1
    ensures |s.sGot| <= |Script(p)| && |s.rGot| == Reach(Script(p), |s.sGot|) ==> Whole(Script(p), |s.rGot|) == |s.sGot|
  {
    AllLinesAreSolid(p.nodes, p.preserve);
    ZerosLength(s.rSent - |s.sGot|, []);
    WholeGrows(Script(p), |s.rGot|);
    if |s.sGot| <= |Script(p)| {
      WholeAtReach(Script(p), |s.sGot|, |s.rGot|);
    }
  }

  /**
   Both sides have ended well: as many confirmations were read as written, 1 and then one per line, both
   queues are empty, the sender's result is success, and so is the receiver's at the end of its input, with
   the trees in place.
   */
  ghost predicate Ended(p: Setup, s: State)
    requires SendableAll(p.nodes, p.preserve)
  {
    && s.data == [] && s.acks == [] && |s.sGot| == s.rSent == 1 + AcksAll(p.nodes, p.preserve)
    && SenderRun(p, s.sGot).Done? && ReceiverRun(p, s.rGot).Done?
    && RestoredAll(ReceiverRun(p, s.rGot).w.disk, p.target, p.nodes, p.preserve)
  }

  /** No run goes on for ever, and the only states without a next step are those where both sides ended well. */
  lemma LockstepEnds(p: Setup, run: seq<State>)
    requires Sound(p) && IsRun(p, run)
    ensures |run| <= 2 * (|Flat(Script(p))| + |Script(p)| + 1) + 1
    ensures Ended(p, run[|run| - 1]) || CanStep(p, run[|run| - 1])
  {
    hide SenderRun, ReceiverRun, Next, Room, SendableAll, RestoredAll, Whole, AllLines, AcksAll, Confined, Flat, Reach;
    var s := run[|run| - 1];
    RunIsInStep(p, run);
    WholeGrows(Script(p), |s.rGot|);
    if Exhausted(p, s) {
      AllLinesAreSolid(p.nodes, p.preserve);
      SenderFinishes(p);
      ReceiverFinishes(p);
      assert s.rGot == Flat(Script(p));
    } else {
      var s' := Progress(p, s);
    }
  }

  predicate Exhausted(p: Setup, s: State)
    requires SendableAll(p.nodes, p.preserve)
  {
    && s.data == [] && s.acks == [] && |s.sGot| == s.rSent == 1 + |Script(p)|
    && |s.rGot| == |Flat(Script(p))|
  }

  lemma Progress(p: Setup, s: State) returns (s': State)
    requires Sound(p) && InStep(p, s) && !Exhausted(p, s)
    ensures Next(p, s, s')
  {
    hide SenderRun, ReceiverRun, Waits, Emitted, Room, SendableAll, Whole, AllLines, Flat, Reach;
    UnreadConfirmations(p, s);
    SenderView(p, s);
    ReceiverView(p, s);
    ReachGrows(Script(p), |s.sGot|);
    WholeGrows(Script(p), |s.rGot|);
    ZerosLength(1 + Whole(Script(p), |s.rGot|), []);
    var (said, heard) := (Emitted(SenderRun(p, s.sGot)), Emitted(ReceiverRun(p, s.rGot)));
    if s.sSent < |said| {
      s' := s.(sSent := s.sSent + 1, data := s.data + [said[s.sSent]]);
    } else if s.rSent < |heard| {
      s' := s.(rSent := s.rSent + 1, acks := s.acks + [heard[s.rSent]]);
    } else if s.data != [] {
      s' := s.(rGot := s.rGot + [s.data[0]], data := s.data[1..]);
    } else {
      s' := s.(sGot := s.sGot + [s.acks[0]], acks := s.acks[1..]);
    }
  }

  // ---------- the number of confirmations ----------

  function Count(node: Source): nat
    decreases node, 1
  {
    1 + if node.Directory? then CountAll(node.entries) else 0
  }

  function CountAll(nodes: seq<Source>): nat
    decreases nodes, 0
  {
    if nodes == [] then 0 else Count(nodes[0]) + CountAll(nodes[1..])
  }

  /** Two confirmations for every file and directory, three when times are preserved. */
  lemma {:induction false} ConfirmationsPerNode(node: Source, preserve: bool)
    requires Sendable(node, preserve)
    ensures Acks(node, preserve) == (if preserve then 3 else 2) * Count(node)
    decreases node, 1
  {
    if node.Directory? {
      ConfirmationsPerNodes(node.entries, preserve);
    }
  }

  lemma {:induction false} ConfirmationsPerNodes(nodes: seq<Source>, preserve: bool)
    requires SendableAll(nodes, preserve)
    ensures AcksAll(nodes, preserve) == (if preserve then 3 else 2) * CountAll(nodes)
    decreases nodes, 0
  {
    if nodes != [] {
      ConfirmationsPerNode(nodes[0], preserve);
      ConfirmationsPerNodes(nodes[1..], preserve);
    }
  }
}
