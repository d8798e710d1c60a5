/**
 Both sides of scp are causal, on every input: bytes that arrive later cannot change what was already
 done, and a side that runs out of input has taken everything it was sent and goes on exactly where it
 stopped. This is what allows the two sides to be run against each other one byte at a time.
 */
module Causality {
  import opened Prelude
  import opened Numerals
  import opened FileSystem
  import opened Stream
  import opened Receiver
  import opened Sender

  /** The bytes taken off stdin. */
  function Taken(log: seq<Event>): Bytes
  {
    if log == [] then []
    else Taken(log[..|log| - 1]) + (if log[|log| - 1].Got? then [log[|log| - 1].b] else [])
  }

  lemma {:induction false} TakenAppend(a: seq<Event>, b: seq<Event>)
    ensures Taken(a + b) == Taken(a) + Taken(b)
  {
    if b == [] {
      assert a + b == a;
    } else {
      assert (a + b)[..|a + b| - 1] == a + b[..|b| - 1];
      TakenAppend(a, b[..|b| - 1]);
    }
  }

  lemma {:induction false} TakenGots(s: Bytes)
    ensures Taken(Gots(s)) == s
  {
    if s != [] {
      assert Gots(s)[..|s| - 1] == Gots(s[..|s| - 1]);
      TakenGots(s[..|s| - 1]);
    }
  }

  lemma {:induction false} TakenNone(log: seq<Event>)
    requires forall i :: 0 <= i < |log| ==> !log[i].Got?
    ensures Taken(log) == []
  {
    if log != [] {
      TakenNone(log[..|log| - 1]);
    }
  }

  /** The first read that found stdin exhausted, at or after `from`; the length of the log if there is none. */
  function FirstEof(log: seq<Event>, from: nat): (k: nat)
    requires from <= |log|
    ensures from <= k <= |log|
    ensures forall i :: from <= i < k ==> log[i] != Eof
    ensures k < |log| ==> log[k] == Eof
    decreases |log| - from
  {
    if from == |log| || log[from] == Eof then from else FirstEof(log, from + 1)
  }

  /** Everything stdin has held so far. */
  function Sent(w: World): Bytes
  {
    Taken(w.log) + w.input
  }

  function Feed(w: World, more: Bytes): World
  {
    w.(input := w.input + more)
  }

  function Fed<T>(r: Step<T>, more: Bytes): Step<T>
  {
    match r
    case Done(w, value) => Done(Feed(w, more), value)
    case Failed(w, error) => Failed(Feed(w, more), error)
  }

  /** From `w` on, the program never had to wait for input. */
  predicate Sated<T>(w: World, r: Step<T>)
    requires w.log <= r.w.log
  {
    FirstEof(r.w.log, |w.log|) == |r.w.log|
  }

  /** `r` is a program's run from `w`, `r'` the same program's run when `more` follows w's input. */
  ghost predicate Causal<T>(w: World, more: Bytes, r: Step<T>, r': Step<T>)
    requires more != []
  {
    && w.log <= r.w.log
    && var k := FirstEof(r.w.log, |w.log|);
       if k == |r.w.log| then
         r' == Fed(r, more) && Sent(r.w) == Sent(w)
       else
         && Taken(r.w.log[..k]) == Sent(w)
         && k < |r'.w.log| && r'.w.log[..k] == r.w.log[..k]
         && (r'.w.log[k] == Got(more[0]) || r'.w.log[k] == Peeked(more[0]))
  }

  lemma Continues<T>(w: World, more: Bytes, r: Step<T>, r': Step<T>)
    requires more != [] && Causal(w, more, r, r') && Sated(w, r)
    ensures r' == Fed(r, more)
  {
  }

  /** Sequencing: `g` is a first part that leads to `r`. */
  lemma Then<S, T>(w: World, more: Bytes, g: Step<S>, g': Step<S>, r: Step<T>, r': Step<T>)
    requires more != [] && Causal(w, more, g, g')
    requires g.w.log <= r.w.log && g'.w.log <= r'.w.log
    requires Sated(w, g) ==> Causal(g.w, more, r, r')
    ensures Causal(w, more, r, r')
  {
    assert w.log <= r.w.log;
    var k := FirstEof(g.w.log, |w.log|);
    if k == |g.w.log| {
      FirstEofSkips(r.w.log, |w.log|, |g.w.log|);
    } else {
      FirstEofSkips(r.w.log, |w.log|, k);
      assert r.w.log[..k] == g.w.log[..k];
      assert r'.w.log[..k] == g'.w.log[..k];
    }
  }

  /** Sequencing where a failure of the first part is the failure of the whole. */
  lemma Seq<S, T>(w: World, more: Bytes, g: Step<S>, g': Step<S>, r: Step<T>, r': Step<T>)
    requires more != [] && Causal(w, more, g, g')
    requires if g.Failed? then r == Failed(g.w, g.error) else g.w.log <= r.w.log
    requires if g'.Failed? then r' == Failed(g'.w, g'.error) else g'.w.log <= r'.w.log
    requires g.Done? && Sated(w, g) ==> Causal(g.w, more, r, r')
    ensures Causal(w, more, r, r')
  {
    if g.Failed? {
      Local(g.w, more, r);
    }
    Then(w, more, g, g', r, r');
  }

  lemma {:induction false} FirstEofSkips(log: seq<Event>, from: nat, limit: nat)
    requires from <= limit <= |log|
    requires forall i :: from <= i < limit ==> log[i] != Eof
    ensures FirstEof(log, from) == FirstEof(log, limit)
    decreases limit - from
  {
    if from < limit {
      FirstEofSkips(log, from + 1, limit);
    }
  }

  // ---------- the stream layer ----------

  lemma ReadByteCausal(w: World, more: Bytes)
    requires more != []
    ensures Causal(w, more, ReadByte(w), ReadByte(Feed(w, more)))
  {
    if w.input == [] {
      assert ReadByte(w).w.log[..|w.log|] == w.log;
    } else {
      assert Feed(w, more).input[1..] == w.input[1..] + more;
      TakenAppend(w.log, [Got(w.input[0])]);
    }
  }

  /** A step that reads nothing: writes, system calls, decisions. */
  lemma Local<T>(w: World, more: Bytes, r: Step<T>)
    requires more != [] && r.w.input == w.input && w.log <= r.w.log
    requires forall i :: |w.log| <= i < |r.w.log| ==> r.w.log[i].Put? || r.w.log[i].Note?
    ensures Causal(w, more, r, Fed(r, more)) && Sated(w, r)
  {
    var written := r.w.log[|w.log|..];
    assert r.w.log == w.log + written;
    TakenNone(written);
    TakenAppend(w.log, written);
  }

  lemma PeekByteCausal(w: World, more: Bytes)
    requires more != []
    ensures Causal(w, more, PeekByte(w), PeekByte(Feed(w, more)))
  {
    if w.input == [] {
      assert PeekByte(w).w.log[..|w.log|] == w.log;
    } else {
      TakenAppend(w.log, [Peeked(w.input[0])]);
    }
  }

  lemma ExpectCausal(w: World, more: Bytes, b: Byte)
    requires more != []
    ensures Causal(w, more, Expect(w, b), Expect(Feed(w, more), b))
  {
    ReadByteCausal(w, more);
    Then(w, more, ReadByte(w), ReadByte(Feed(w, more)), Expect(w, b), Expect(Feed(w, more), b));
  }

  /** A run of bytes taken without waiting, then a wait. */
  lemma Drained<T>(w: World, more: Bytes, r: Step<T>, r': Step<T>)
    requires more != [] && r.w.log == w.log + Gots(w.input) + [Eof]
    requires w.log + Gots(w.input + [more[0]]) <= r'.w.log
    ensures Causal(w, more, r, r')
  {
    var k := |w.log| + |w.input|;
    FirstEofSkips(r.w.log, |w.log|, k);
    assert r.w.log[..k] == w.log + Gots(w.input);
    TakenAppend(w.log, Gots(w.input));
    TakenGots(w.input);
    assert r'.w.log[..k + 1] == w.log + Gots(w.input + [more[0]]);
    assert r'.w.log[..k] == r'.w.log[..k + 1][..k] == r.w.log[..k];
  }

  lemma {:induction false} IndexOfAppend(s: Bytes, more: Bytes, b: Byte)
    ensures IndexOf(s, b) < |s| ==> IndexOf(s + more, b) == IndexOf(s, b)
    ensures IndexOf(s, b) == |s| ==> IndexOf(s + more, b) >= |s|
  {
    if s != [] && s[0] != b {
      assert (s + more)[1..] == s[1..] + more;
      IndexOfAppend(s[1..], more, b);
    }
  }

  /** A run of bytes taken without waiting. */
  lemma Consumed<T>(w: World, more: Bytes, r: Step<T>, n: nat)
    requires more != [] && n <= |w.input|
    requires r.w.log == w.log + Gots(w.input[..n]) && r.w.input == w.input[n..]
    ensures Causal(w, more, r, Fed(r, more))
  {
    TakenAppend(w.log, Gots(w.input[..n]));
    TakenGots(w.input[..n]);
    assert w.input == w.input[..n] + w.input[n..];
    assert Sent(r.w) == Sent(w);
    hide Taken, Fed, Sent;
    NoEofIn(r.w.log, |w.log|);
  }

  lemma NoEofIn(log: seq<Event>, from: nat)
    requires from <= |log| && forall i :: from <= i < |log| ==> log[i] != Eof
    ensures FirstEof(log, from) == |log|
  {
    FirstEofSkips(log, from, |log|);
  }

  lemma GotsPrefix(log: seq<Event>, s: Bytes, t: Bytes)
    requires s <= t
    ensures log + Gots(s) <= log + Gots(t)
  {
    assert forall i :: 0 <= i < |log + Gots(s)| ==> (log + Gots(s))[i] == (log + Gots(t))[i];
  }

  lemma SliceAppend(s: Bytes, more: Bytes, i: nat)
    requires i <= |s|
    ensures (s + more)[..i] == s[..i] && (s + more)[i..] == s[i..] + more
  {
  }

  /** The delimiter is there already. */
  lemma ReadFoundCausal(w: World, more: Bytes, delimiter: Byte)
    requires more != [] && IndexOf(w.input, delimiter) < |w.input|
    ensures Causal(w, more, ReadString(w, delimiter), ReadString(Feed(w, more), delimiter))
  {
    hide Causal, Gots;
    var i := IndexOf(w.input, delimiter);
    IndexOfAppend(w.input, more, delimiter);
    SliceAppend(w.input, more, i);
    SliceAppend(w.input, more, i + 1);
    hide IndexOf;
    Consumed(w, more, ReadString(w, delimiter), i + 1);
  }

  /** With more input at least its first byte is taken too. */
  lemma ReadsOn(w: World, more: Bytes, delimiter: Byte)
    requires more != [] && IndexOf(w.input, delimiter) == |w.input|
    ensures w.log + Gots(w.input + [more[0]]) <= ReadString(Feed(w, more), delimiter).w.log
  {
    hide Gots;
    var w' := Feed(w, more);
    IndexOfAppend(w.input, more, delimiter);
    var j := IndexOf(w'.input, delimiter);
    hide IndexOf;
    var taken := if j < |w'.input| then w'.input[..j + 1] else w'.input;
    OneByteMore(w.input, more, |taken|);
    GotsPrefix(w.log, w.input + [more[0]], taken);
  }

  lemma OneByteMore(s: Bytes, more: Bytes, n: nat)
    requires more != [] && |s| < n <= |s + more|
    ensures s + [more[0]] <= (s + more)[..n]
    ensures (s + more)[..|s + more|] == s + more
  {
  }

  lemma ReadStringCausal(w: World, more: Bytes, delimiter: Byte)
    requires more != []
    ensures Causal(w, more, ReadString(w, delimiter), ReadString(Feed(w, more), delimiter))
  {
    hide Causal, Gots;
    if IndexOf(w.input, delimiter) < |w.input| {
      ReadFoundCausal(w, more, delimiter);
    } else {
      ReadsOn(w, more, delimiter);
      Drained(w, more, ReadString(w, delimiter), ReadString(Feed(w, more), delimiter));
    }
  }

  lemma WarningCausal(w: World, more: Bytes, kind: Byte)
    requires more != []
    ensures Causal(w, more, Judge(w, kind), Judge(Feed(w, more), kind))
  {
    var w' := Feed(w, more);
    var (r, r') := (Judge(w, kind), Judge(w', kind));
    if kind == 1 || kind == 2 {
      var (s, s') := (ReadString(w, NEWLINE), ReadString(w', NEWLINE));
      ReadStringCausal(w, more, NEWLINE);
      if s.Done? {
        Local(s.w, more, r);
      }
      Then(w, more, s, s', r, r');
    } else {
      Local(w, more, r);
    }
  }

  lemma AwaitCausal(w: World, more: Bytes)
    requires more != []
    ensures Causal(w, more, AwaitConfirmation(w), AwaitConfirmation(Feed(w, more)))
  {
    var w' := Feed(w, more);
    var (g, g') := (ReadByte(w), ReadByte(w'));
    ReadByteCausal(w, more);
    if g.Done? {
      WarningCausal(g.w, more, g.value);
    }
    Then(w, more, g, g', AwaitConfirmation(w), AwaitConfirmation(w'));
  }

  // ---------- the receiver ----------

  lemma ReadUintCausal(w: World, more: Bytes, base: nat, limit: int)
    requires more != []
    ensures Causal(w, more, ReadUint(w, base, limit), ReadUint(Feed(w, more), base, limit))
  {
    hide Causal, Sated;
    var (a, a') := (ReadString(w, SPACE), ReadString(Feed(w, more), SPACE));
    ReadStringCausal(w, more, SPACE);
    if a.Done? && Sated(w, a) {
      Continues(w, more, a, a');
      Local(a.w, more, ReadUint(w, base, limit));
    }
    Seq(w, more, a, a', ReadUint(w, base, limit), ReadUint(Feed(w, more), base, limit));
  }

  lemma ReadTimeCausal(w: World, more: Bytes, delimiter: Byte)
    requires more != []
    ensures Causal(w, more, ReadTime(w, delimiter), ReadTime(Feed(w, more), delimiter))
  {
    hide Causal, Sated, ReadUint, ReadString;
    var w' := Feed(w, more);
    var (r, r') := (ReadTime(w, delimiter), ReadTime(w', delimiter));
    var (a, a') := (ReadUint(w, 10, TWO_64), ReadUint(w', 10, TWO_64));
    ReadUintCausal(w, more, 10, TWO_64);
    if a.Done? && Sated(w, a) {
      Continues(w, more, a, a');
      var (b, b') := (ReadString(a.w, delimiter), ReadString(a'.w, delimiter));
      ReadStringCausal(a.w, more, delimiter);
      if b.Done? && Sated(a.w, b) {
        Continues(a.w, more, b, b');
        Local(b.w, more, r);
      }
      Seq(a.w, more, b, b', r, r');
    }
    Seq(w, more, a, a', r, r');
  }

  lemma ReceiveTimesCausal(w: World, more: Bytes)
    requires more != []
    ensures Causal(w, more, ReceiveTimes(w), ReceiveTimes(Feed(w, more)))
  {
    hide Causal, Sated, Expect, ReadTime;
    var w' := Feed(w, more);
    var (r, r') := (ReceiveTimes(w), ReceiveTimes(w'));
    var (a, a') := (Expect(w, T_RECORD), Expect(w', T_RECORD));
    ExpectCausal(w, more, T_RECORD);
    if a.Done? && Sated(w, a) {
      Continues(w, more, a, a');
      var (b, b') := (ReadTime(a.w, SPACE), ReadTime(a'.w, SPACE));
      ReadTimeCausal(a.w, more, SPACE);
      if b.Done? && Sated(a.w, b) {
        Continues(a.w, more, b, b');
        var (c, c') := (ReadTime(b.w, NEWLINE), ReadTime(b'.w, NEWLINE));
        ReadTimeCausal(b.w, more, NEWLINE);
        if c.Done? && Sated(b.w, c) {
          Continues(b.w, more, c, c');
          Local(c.w, more, r);
        }
        Seq(b.w, more, c, c', r, r');
      }
      Seq(a.w, more, b, b', r, r');
    }
    Seq(w, more, a, a', r, r');
  }

  lemma ReadIntCausal(w: World, more: Bytes)
    requires more != []
    ensures Causal(w, more, ReadInt(w), ReadInt(Feed(w, more)))
  {
    hide Causal, Sated;
    var (a, a') := (ReadString(w, SPACE), ReadString(Feed(w, more), SPACE));
    ReadStringCausal(w, more, SPACE);
    if a.Done? && Sated(w, a) {
      Continues(w, more, a, a');
      Local(a.w, more, ReadInt(w));
    }
    Seq(w, more, a, a', ReadInt(w), ReadInt(Feed(w, more)));
  }

  lemma ReadModeCausal(w: World, more: Bytes, kind: Byte)
    requires more != []
    ensures Causal(w, more, ReadMode(w, kind), ReadMode(Feed(w, more), kind))
  {
    hide Causal, Sated, Expect, ReadUint;
    var (a, a') := (Expect(w, kind), Expect(Feed(w, more), kind));
    ExpectCausal(w, more, kind);
    if a.Done? && Sated(w, a) {
      Continues(w, more, a, a');
      ReadUintCausal(a.w, more, 8, TWO_32);
    }
    Seq(w, more, a, a', ReadMode(w, kind), ReadMode(Feed(w, more), kind));
  }

  lemma ReadFileHeaderCausal(w: World, more: Bytes)
    requires more != []
    ensures Causal(w, more, ReadFileHeader(w), ReadFileHeader(Feed(w, more)))
  {
    hide Causal, Sated, ReadMode, ReadInt, ReadString;
    var w' := Feed(w, more);
    var (r, r') := (ReadFileHeader(w), ReadFileHeader(w'));
    var (a, a') := (ReadMode(w, C_RECORD), ReadMode(w', C_RECORD));
    ReadModeCausal(w, more, C_RECORD);
    if a.Done? && Sated(w, a) {
      Continues(w, more, a, a');
      var (b, b') := (ReadInt(a.w), ReadInt(a'.w));
      ReadIntCausal(a.w, more);
      if b.Done? && Sated(a.w, b) {
        Continues(a.w, more, b, b');
        var (c, c') := (ReadString(b.w, NEWLINE), ReadString(b'.w, NEWLINE));
        ReadStringCausal(b.w, more, NEWLINE);
        if c.Done? && Sated(b.w, c) {
          Continues(b.w, more, c, c');
          Local(c.w, more, r);
        }
        Seq(b.w, more, c, c', r, r');
      }
      Seq(a.w, more, b, b', r, r');
    }
    Seq(w, more, a, a', r, r');
  }

  lemma CopyContentsCausal(w: World, more: Bytes, target: Path, mode: nat, length: int)
    requires more != []
    ensures Causal(w, more, CopyContents(w, target, mode, length), CopyContents(Feed(w, more), target, mode, length))
  {
    hide Causal, Sated;
    var w' := Feed(w, more);
    var (r, r') := (CopyContents(w, target, mode, length), CopyContents(w', target, mode, length));
    var created := Call(w, Create(w.disk, target, mode));
    var n := ContentLength(length);
    if created.Failed? {
      Local(w, more, r);
    } else if n <= |w.input| {
      assert r' == Fed(r, more) by {
        assert w'.input[..n] == w.input[..n] && w'.input[n..] == w.input[n..] + more;
      }
      Consumed(w, more, r, n);
    } else {
      var taken := if n <= |w'.input| then w'.input[..n] else w'.input;
      assert w.log + Gots(taken) <= r'.w.log;
      hide IndexOf, Gots;
      assert w.input + [more[0]] <= w'.input;
      assert w.input + [more[0]] <= taken;
      GotsPrefix(w.log, w.input + [more[0]], taken);
      Drained(w, more, r, r');
    }
  }

  lemma ReceiveContentsCausal(w: World, more: Bytes, path: Path, pathIsDir: bool, times: Option<Times>, preserve: bool)
    requires more != []
    ensures Causal(w, more, ReceiveContents(w, path, pathIsDir, times, preserve),
                   ReceiveContents(Feed(w, more), path, pathIsDir, times, preserve))
  {
    hide Causal, Sated, ReadFileHeader, StoreFile, Join;
    var w' := Feed(w, more);
    var (a, a') := (ReadFileHeader(w), ReadFileHeader(w'));
    ReadFileHeaderCausal(w, more);
    if a.Done? && Sated(w, a) {
      Continues(w, more, a, a');
      StoreFileCausal(a.w, more, if pathIsDir then Join(path, a.value.name) else path, a.value, times, preserve);
    }
    Seq(w, more, a, a', ReceiveContents(w, path, pathIsDir, times, preserve),
        ReceiveContents(w', path, pathIsDir, times, preserve));
  }

  lemma ReceiveFileCausal(w: World, more: Bytes, path: Path, pathIsDir: bool, times: Option<Times>, preserve: bool)
    requires more != []
    ensures Causal(w, more, ReceiveFile(w, path, pathIsDir, times, preserve),
                   ReceiveFile(Feed(w, more), path, pathIsDir, times, preserve))
  {
    hide Causal, Sated, ReceiveContents, AwaitConfirmation;
    var w' := Feed(w, more);
    var r, r' := ReceiveFile(w, path, pathIsDir, times, preserve), ReceiveFile(w', path, pathIsDir, times, preserve);
    var a := ReceiveContents(w, path, pathIsDir, times, preserve);
    var a' := ReceiveContents(w', path, pathIsDir, times, preserve);
    ReceiveContentsCausal(w, more, path, pathIsDir, times, preserve);
    if a.Done? && Sated(w, a) {
      Continues(w, more, a, a');
      var (b, b') := (AwaitConfirmation(a.w), AwaitConfirmation(a'.w));
      AwaitCausal(a.w, more);
      if b.Done? && Sated(a.w, b) {
        Continues(a.w, more, b, b');
        Local(b.w, more, r);
      }
      Seq(a.w, more, b, b', r, r');
    }
    Seq(w, more, a, a', r, r');
  }

  lemma StoreFileCausal(w: World, more: Bytes, target: Path, header: FileHeader, times: Option<Times>, preserve: bool)
    requires more != []
    ensures Causal(w, more, StoreFile(w, target, header, times, preserve),
                   StoreFile(Feed(w, more), target, header, times, preserve))
  {
    hide Causal, Sated, CopyContents;
    var w' := Feed(w, more);
    var r, r' := StoreFile(w, target, header, times, preserve), StoreFile(w', target, header, times, preserve);
    var a := CopyContents(w, target, header.mode, header.length);
    var a' := CopyContents(w', target, header.mode, header.length);
    CopyContentsCausal(w, more, target, header.mode, header.length);
    if a.Done? && Sated(w, a) {
      Continues(w, more, a, a');
      Local(a.w, more, r);
    }
    Seq(w, more, a, a', r, r');
  }

  lemma OpenDirectoryCausal(w: World, more: Bytes, dir: Path)
    requires more != []
    ensures Causal(w, more, OpenDirectory(w, dir), OpenDirectory(Feed(w, more), dir))
  {
    hide Causal, Sated, ReadDirHeader;
    var w' := Feed(w, more);
    var (r, r') := (OpenDirectory(w, dir), OpenDirectory(w', dir));
    var (a, a') := (ReadDirHeader(w), ReadDirHeader(w'));
    ReadDirHeaderCausal(w, more);
    if a.Done? && Sated(w, a) {
      Continues(w, more, a, a');
      Local(a.w, more, r);
    }
    Seq(w, more, a, a', r, r');
  }

  lemma ReadDirHeaderCausal(w: World, more: Bytes)
    requires more != []
    ensures Causal(w, more, ReadDirHeader(w), ReadDirHeader(Feed(w, more)))
  {
    hide Causal, Sated, ReadMode, ReadString;
    var w' := Feed(w, more);
    var (r, r') := (ReadDirHeader(w), ReadDirHeader(w'));
    var (a, a') := (ReadMode(w, D_RECORD), ReadMode(w', D_RECORD));
    ReadModeCausal(w, more, D_RECORD);
    if a.Done? && Sated(w, a) {
      Continues(w, more, a, a');
      var (b, b') := (ReadString(a.w, SPACE), ReadString(a'.w, SPACE));
      ReadStringCausal(a.w, more, SPACE);
      if b.Done? && Sated(a.w, b) {
        Continues(a.w, more, b, b');
        var (c, c') := (ReadString(b.w, NEWLINE), ReadString(b'.w, NEWLINE));
        ReadStringCausal(b.w, more, NEWLINE);
        if c.Done? && Sated(b.w, c) {
          Continues(b.w, more, c, c');
          Local(c.w, more, r);
        }
        Seq(b.w, more, c, c', r, r');
      }
      Seq(a.w, more, b, b', r, r');
    }
    Seq(w, more, a, a', r, r');
  }

  lemma CloseDirectoryCausal(w: World, more: Bytes, target: Path, times: Option<Times>, preserve: bool)
    requires more != []
    ensures Causal(w, more, CloseDirectory(w, target, times, preserve),
                   CloseDirectory(Feed(w, more), target, times, preserve))
  {
    hide Causal, Sated, ReadString;
    var w' := Feed(w, more);
    var r, r' := CloseDirectory(w, target, times, preserve), CloseDirectory(w', target, times, preserve);
    var (a, a') := (ReadString(w, NEWLINE), ReadString(w', NEWLINE));
    ReadStringCausal(w, more, NEWLINE);
    if Sated(w, a) {
      Continues(w, more, a, a');
      Local(a.w, more, r);
    }
    Then(w, more, a, a', r, r');
  }

  lemma NextMessageCausal(w: World, more: Bytes, timesAllowed: bool)
    requires more != []
    ensures Causal(w, more, NextMessage(w, timesAllowed), NextMessage(Feed(w, more), timesAllowed))
  {
    hide Causal, Sated, ReceiveTimes;
    var w' := Feed(w, more);
    var (r, r') := (NextMessage(w, timesAllowed), NextMessage(w', timesAllowed));
    var (a, a') := (PeekByte(w), PeekByte(w'));
    PeekByteCausal(w, more);
    if Sated(w, a) {
      Continues(w, more, a, a');
      if a.Done? && a.value == T_RECORD && timesAllowed {
        var (b, b') := (ReceiveTimes(a.w), ReceiveTimes(a'.w));
        ReceiveTimesCausal(a.w, more);
        if b.Done? && Sated(a.w, b) {
          Continues(a.w, more, b, b');
          var (c, c') := (PeekByte(b.w), PeekByte(b'.w));
          PeekByteCausal(b.w, more);
          if Sated(b.w, c) {
            Continues(b.w, more, c, c');
            Local(c.w, more, r);
          }
          Then(b.w, more, c, c', r, r');
        }
        Seq(a.w, more, b, b', r, r');
      } else {
        Local(a.w, more, r);
      }
    }
    Then(w, more, a, a', r, r');
  }

  lemma {:induction false} ReceiveDirectoryCausal(
    w: World, more: Bytes, dir: Path, times: Option<Times>, preserve: bool)
    requires more != []
    ensures Causal(w, more, ReceiveDirectory(w, dir, times, preserve),
                   ReceiveDirectory(Feed(w, more), dir, times, preserve))
    decreases |w.input|, 0
  {
    hide Causal, Sated, OpenDirectory, ProcessMessages, CloseDirectory;
    var w' := Feed(w, more);
    var r, r' := ReceiveDirectory(w, dir, times, preserve), ReceiveDirectory(w', dir, times, preserve);
    var (a, a') := (OpenDirectory(w, dir), OpenDirectory(w', dir));
    OpenDirectoryCausal(w, more, dir);
    if a.Done? && Sated(w, a) {
      Continues(w, more, a, a');
      var (b, b') := (ProcessMessages(a.w, a.value, preserve), ProcessMessages(a'.w, a.value, preserve));
      ProcessMessagesCausal(a.w, more, a.value, preserve);
      if b.Done? && Sated(a.w, b) {
        Continues(a.w, more, b, b');
        CloseDirectoryCausal(b.w, more, a.value, times, preserve);
      }
      Seq(a.w, more, b, b', r, r');
    }
    Seq(w, more, a, a', r, r');
  }

  lemma {:induction false} ReceiveMessageCausal(
    w: World, more: Bytes, message: Message, target: Path, targetIsDir: bool, preserve: bool)
    requires more != [] && message.Message?
    ensures Causal(w, more, ReceiveMessage(w, message, target, targetIsDir, preserve),
                   ReceiveMessage(Feed(w, more), message, target, targetIsDir, preserve))
    decreases |w.input|, 1
  {
    hide Causal, Sated, ReceiveFile, ReceiveDirectory;
    ReceiveFileCausal(w, more, target, targetIsDir, message.times, preserve);
    ReceiveDirectoryCausal(w, more, target, message.times, preserve);
    if message.kind != C_RECORD && message.kind != D_RECORD {
      Local(w, more, ReceiveMessage(w, message, target, targetIsDir, preserve));
    }
  }

  lemma {:induction false} ProcessMessagesCausal(w: World, more: Bytes, dir: Path, preserve: bool)
    requires more != []
    ensures Causal(w, more, ProcessMessages(w, dir, preserve), ProcessMessages(Feed(w, more), dir, preserve))
    decreases |w.input|, 2
  {
    hide Causal, Sated, NextMessage, ReceiveMessage;
    var w' := Feed(w, more);
    var r, r' := ProcessMessages(w, dir, preserve), ProcessMessages(w', dir, preserve);
    var (a, a') := (NextMessage(w, preserve), NextMessage(w', preserve));
    NextMessageCausal(w, more, preserve);
    if a.Done? && Sated(w, a) {
      Continues(w, more, a, a');
      if a.value.Message? && a.value != Message(E_RECORD, None) {
        var b := ReceiveMessage(a.w, a.value, dir, true, preserve);
        var b' := ReceiveMessage(a'.w, a.value, dir, true, preserve);
        ReceiveMessageCausal(a.w, more, a.value, dir, true, preserve);
        if b.Done? && Sated(a.w, b) {
          Continues(a.w, more, b, b');
          ProcessMessagesCausal(b.w, more, dir, preserve);
        }
        Seq(a.w, more, b, b', r, r');
      } else {
        Local(a.w, more, r);
      }
    }
    Seq(w, more, a, a', r, r');
  }

  lemma TargetMessageCausal(
    w: World, more: Bytes, target: Path, targetIsDir: bool, preserve: bool, render: Error -> Bytes)
    requires more != []
    ensures Causal(w, more, TargetMessage(w, target, targetIsDir, preserve, render),
                   TargetMessage(Feed(w, more), target, targetIsDir, preserve, render))
  {
    hide Causal, Sated, NextMessage, ReceiveMessage;
    var w' := Feed(w, more);
    var r := TargetMessage(w, target, targetIsDir, preserve, render);
    var r' := TargetMessage(w', target, targetIsDir, preserve, render);
    var (a, a') := (NextMessage(w, true), NextMessage(w', true));
    NextMessageCausal(w, more, true);
    if Sated(w, a) {
      Continues(w, more, a, a');
      if a.Done? && a.value.Message? {
        var b := ReceiveMessage(a.w, a.value, target, targetIsDir, preserve);
        var b' := ReceiveMessage(a'.w, a.value, target, targetIsDir, preserve);
        ReceiveMessageCausal(a.w, more, a.value, target, targetIsDir, preserve);
        if Sated(a.w, b) {
          Continues(a.w, more, b, b');
          Local(b.w, more, r);
        }
        Then(a.w, more, b, b', r, r');
      } else {
        Local(a.w, more, r);
      }
    }
    Then(w, more, a, a', r, r');
  }

  lemma {:induction false} TargetMessagesCausal(
    w: World, more: Bytes, target: Path, targetIsDir: bool, preserve: bool, render: Error -> Bytes)
    requires more != []
    ensures Causal(w, more, TargetMessages(w, target, targetIsDir, preserve, render),
                   TargetMessages(Feed(w, more), target, targetIsDir, preserve, render))
    decreases |w.input|
  {
    hide Causal, Sated, TargetMessage;
    var w' := Feed(w, more);
    var a := TargetMessage(w, target, targetIsDir, preserve, render);
    var a' := TargetMessage(w', target, targetIsDir, preserve, render);
    TargetMessageCausal(w, more, target, targetIsDir, preserve, render);
    if a.Done? && Sated(w, a) {
      Continues(w, more, a, a');
      if a.value {
        TargetMessagesCausal(a.w, more, target, targetIsDir, preserve, render);
      } else {
        Local(a.w, more, TargetMessages(w, target, targetIsDir, preserve, render));
      }
    }
    Seq(w, more, a, a', TargetMessages(w, target, targetIsDir, preserve, render),
        TargetMessages(w', target, targetIsDir, preserve, render));
  }

  /** Target mode of Copy, whatever it is fed. */
  lemma TargetCopyCausal(
    w: World, more: Bytes, target: Path, mustBeDirectory: bool, preserve: bool, render: Error -> Bytes)
    requires more != []
    ensures Causal(w, more, TargetCopy(w, target, mustBeDirectory, preserve, render),
                   TargetCopy(Feed(w, more), target, mustBeDirectory, preserve, render))
  {
    hide Causal, Sated, TargetMessages;
    var w' := Feed(w, more);
    var r := TargetCopy(w, target, mustBeDirectory, preserve, render);
    var r' := TargetCopy(w', target, mustBeDirectory, preserve, render);
    var stat := Stat(w.disk, target);
    var targetIsDir := stat.Ok? && stat.value.DirNode?;
    if mustBeDirectory && !targetIsDir {
      Local(w, more, r);
    } else {
      var a := Done(Confirm(w), ());
      Local(w, more, a);
      TargetMessagesCausal(a.w, more, target, targetIsDir, preserve, render);
      Then(w, more, a, Fed(a, more), r, r');
    }
  }

  // ---------- the sender ----------

  lemma SendLineCausal(w: World, more: Bytes, line: Bytes)
    requires more != []
    ensures Causal(w, more, SendLine(w, line), SendLine(Feed(w, more), line))
  {
    hide Causal, Sated, AwaitConfirmation;
    var a := Done(Write(w, line), ());
    Local(w, more, a);
    AwaitCausal(a.w, more);
    Then(w, more, a, Fed(a, more), SendLine(w, line), SendLine(Feed(w, more), line));
  }

  lemma SendDirHeaderCausal(w: World, more: Bytes, info: Info, preserve: bool)
    requires more != []
    ensures Causal(w, more, SendTimes(w, info, preserve), SendTimes(Feed(w, more), info, preserve))
    ensures Causal(w, more, SendDirHeader(w, info, preserve), SendDirHeader(Feed(w, more), info, preserve))
  {
    hide Causal, Sated, SendLine;
    var w' := Feed(w, more);
    var (a, a') := (SendTimes(w, info, preserve), SendTimes(w', info, preserve));
    if preserve {
      SendLineCausal(w, more, TimesLine(info));
    } else {
      Local(w, more, a);
    }
    if a.Done? && Sated(w, a) {
      Continues(w, more, a, a');
      SendLineCausal(a.w, more, DirLine(info));
    }
    Seq(w, more, a, a', SendDirHeader(w, info, preserve), SendDirHeader(w', info, preserve));
  }

  lemma SendFileCausal(w: World, more: Bytes, info: Info, content: Bytes, preserve: bool)
    requires more != []
    ensures Causal(w, more, SendFile(w, info, content, preserve), SendFile(Feed(w, more), info, content, preserve))
  {
    hide Causal, Sated, SendLine, SendTimes, AwaitConfirmation;
    var w' := Feed(w, more);
    var (r, r') := (SendFile(w, info, content, preserve), SendFile(w', info, content, preserve));
    var (a, a') := (SendTimes(w, info, preserve), SendTimes(w', info, preserve));
    SendDirHeaderCausal(w, more, info, preserve);
    if a.Done? && Sated(w, a) {
      Continues(w, more, a, a');
      var (b, b') := (SendLine(a.w, FileLine(info)), SendLine(a'.w, FileLine(info)));
      SendLineCausal(a.w, more, FileLine(info));
      if b.Done? && Sated(a.w, b) {
        Continues(a.w, more, b, b');
        SendContentsCausal(b.w, more, info, content);
      }
      Seq(a.w, more, b, b', r, r');
    }
    Seq(w, more, a, a', r, r');
  }

  lemma SendContentsCausal(w: World, more: Bytes, info: Info, content: Bytes)
    requires more != []
    ensures Causal(w, more, SendContents(w, info, content), SendContents(Feed(w, more), info, content))
  {
    hide Causal, Sated, AwaitConfirmation;
    var r, r' := SendContents(w, info, content), SendContents(Feed(w, more), info, content);
    if |content| < info.size {
      Local(w, more, r);
    } else {
      var a := Done(Confirm(Write(w, Available(info, content))), ());
      Local(w, more, a);
      AwaitCausal(a.w, more);
      Then(w, more, a, Fed(a, more), r, r');
    }
  }

  lemma {:induction false} SendEntriesCausal(
    w: World, more: Bytes, entries: seq<Source>, preserve: bool, render: Error -> Bytes)
    requires more != []
    ensures Causal(w, more, Done(SendEntries(w, entries, preserve, render), ()),
                   Done(SendEntries(Feed(w, more), entries, preserve, render), ()))
    decreases entries, 0
  {
    hide Causal, Sated, Send;
    var w' := Feed(w, more);
    var r := Done(SendEntries(w, entries, preserve, render), ());
    var r' := Done(SendEntries(w', entries, preserve, render), ());
    if entries == [] {
      Local(w, more, r);
    } else {
      var (a, a') := (Send(w, entries[0], preserve, render), Send(w', entries[0], preserve, render));
      SendCausal(w, more, entries[0], preserve, render);
      if Sated(w, a) {
        Continues(w, more, a, a');
        SendEntriesCausal(a.w, more, entries[1..], preserve, render);
      }
      Then(w, more, a, a', r, r');
    }
  }

  lemma {:induction false} SendDirectoryCausal(
    w: World, more: Bytes, info: Info, entries: seq<Source>, preserve: bool, render: Error -> Bytes)
    requires more != []
    ensures Causal(w, more, SendDirectory(w, info, entries, preserve, render),
                   SendDirectory(Feed(w, more), info, entries, preserve, render))
    decreases entries, 1
  {
    hide Causal, Sated, SendDirHeader, SendEntries, SendLine;
    var w' := Feed(w, more);
    var r := SendDirectory(w, info, entries, preserve, render);
    var r' := SendDirectory(w', info, entries, preserve, render);
    var (a, a') := (SendDirHeader(w, info, preserve), SendDirHeader(w', info, preserve));
    SendDirHeaderCausal(w, more, info, preserve);
    if a.Done? && Sated(w, a) {
      Continues(w, more, a, a');
      var b := Done(SendEntries(a.w, entries, preserve, render), ());
      var b' := Done(SendEntries(a'.w, entries, preserve, render), ());
      SendEntriesCausal(a.w, more, entries, preserve, render);
      if Sated(a.w, b) {
        Continues(a.w, more, b, b');
        SendLineCausal(b.w, more, END_LINE);
      }
      Then(a.w, more, b, b', r, r');
    }
    Seq(w, more, a, a', r, r');
  }

  lemma ReportedCausal(w: World, more: Bytes, r: Step<()>, r': Step<()>, render: Error -> Bytes)
    requires more != [] && w.log <= r.w.log && Causal(w, more, r, r')
    ensures Causal(w, more, Reported(r, render), Reported(r', render))
  {
    hide Causal, Sated;
    if Sated(w, r) {
      Continues(w, more, r, r');
      Local(r.w, more, Reported(r, render));
    }
    Then(w, more, r, r', Reported(r, render), Reported(r', render));
  }

  lemma {:induction false} SendCausal(w: World, more: Bytes, node: Source, preserve: bool, render: Error -> Bytes)
    requires more != []
    ensures Causal(w, more, Send(w, node, preserve, render), Send(Feed(w, more), node, preserve, render))
    decreases node, 2
  {
    hide Causal, Sated, SendFile, SendDirHeader, SendDirectory, Reported;
    var w' := Feed(w, more);
    var (r, r') := (SendNode(w, node, preserve, render), SendNode(w', node, preserve, render));
    match node {
      case Unopened(_) =>
        Local(w, more, r);
      case Unstatted(_) =>
        Local(w, more, r);
      case RegularFile(info, content) =>
        SendFileCausal(w, more, info, content, preserve);
      case Unlisted(info, _) =>
        var (a, a') := (SendDirHeader(w, info, preserve), SendDirHeader(w', info, preserve));
        SendDirHeaderCausal(w, more, info, preserve);
        if a.Done? && Sated(w, a) {
          Continues(w, more, a, a');
          Local(a.w, more, r);
        }
        Seq(w, more, a, a', r, r');
      case Directory(info, entries) =>
        SendDirectoryCausal(w, more, info, entries, preserve, render);
    }
    ReportedCausal(w, more, r, r', render);
  }

  lemma SendOperandCausal(
    w: World, more: Bytes, operand: Operand, recursive: bool, preserve: bool, render: Error -> Bytes)
    requires more != []
    ensures Causal(w, more, SendOperand(w, operand, recursive, preserve, render),
                   SendOperand(Feed(w, more), operand, recursive, preserve, render))
  {
    hide Causal, Sated, Send;
    var r := SendOperand(w, operand, recursive, preserve, render);
    if operand.Missing? || (operand.isDir && !recursive) {
      Local(w, more, r);
    } else {
      SendCausal(w, more, operand.node, preserve, render);
    }
  }

  lemma {:induction false} SendOperandsCausal(
    w: World, more: Bytes, operands: seq<Operand>, recursive: bool, preserve: bool, render: Error -> Bytes,
    last: Option<Error>)
    requires more != []
    ensures Causal(w, more, SendOperands(w, operands, recursive, preserve, render, last),
                   SendOperands(Feed(w, more), operands, recursive, preserve, render, last))
    decreases |operands|
  {
    hide Causal, Sated, SendOperand;
    var w' := Feed(w, more);
    var r := SendOperands(w, operands, recursive, preserve, render, last);
    var r' := SendOperands(w', operands, recursive, preserve, render, last);
    if operands == [] {
      Local(w, more, r);
    } else {
      var a := SendOperand(w, operands[0], recursive, preserve, render);
      var a' := SendOperand(w', operands[0], recursive, preserve, render);
      SendOperandCausal(w, more, operands[0], recursive, preserve, render);
      if Sated(w, a) {
        Continues(w, more, a, a');
        SendOperandsCausal(a.w, more, operands[1..], recursive, preserve, render,
                           if a.Failed? then Some(a.error) else last);
      }
      Then(w, more, a, a', r, r');
    }
  }

  /** Source mode of Copy, whatever acknowledgements it is fed. */
  lemma SourceCopyCausal(
    w: World, more: Bytes, operands: seq<Operand>, recursive: bool, preserve: bool, render: Error -> Bytes)
    requires more != []
    ensures Causal(w, more, SourceCopy(w, operands, recursive, preserve, render),
                   SourceCopy(Feed(w, more), operands, recursive, preserve, render))
  {
    hide Causal, Sated, AwaitConfirmation, SendOperands;
    var w' := Feed(w, more);
    var (a, a') := (AwaitConfirmation(w), AwaitConfirmation(w'));
    AwaitCausal(w, more);
    if a.Done? && Sated(w, a) {
      Continues(w, more, a, a');
      SendOperandsCausal(a.w, more, operands, recursive, preserve, render, None);
    }
    Seq(w, more, a, a', SourceCopy(w, operands, recursive, preserve, render),
        SourceCopy(w', operands, recursive, preserve, render));
  }
}
