/**
 The byte streams of an scp session. A `World` is what one side can see: the bytes still to come on
 stdin, the log of everything done so far, and the disk. The log is the side's observable history, in order.
 */
module Stream {
  import opened Prelude
  import opened FileSystem

  /**
   `Got` takes a byte off stdin, `Peeked` looks at one and puts it back, `Put` writes a byte to stdout,
   `Note` writes a text to stderr, `Eof` is a read that found stdin exhausted.
   */
  datatype Event = Got(b: Byte) | Peeked(b: Byte) | Put(b: Byte) | Note(text: Bytes) | Eof

  datatype World = World(input: Bytes, log: seq<Event>, disk: Disk)

  datatype Error =
    | EndOfFile
    | UnexpectedType(b: Byte)
    | BadNumber(text: Bytes)
    | BadAck(b: Byte)
    | Remote(message: Bytes)
    | TargetNotDirectory(name: Name)
    | NotRegular(name: Name)
    | Os(os: OsError)

  /** How a piece of the program ends; failure-compatible, so that specifications read like the code. */
  datatype Step<+T> = Done(w: World, value: T) | Failed(w: World, error: Error) {
    predicate IsFailure() { Failed? }
    function PropagateFailure<U>(): Step<U> requires Failed? { Failed(w, error) }
    function Extract(): (World, T) requires Done? { (w, value) }
  }

  function Gots(s: Bytes): (e: seq<Event>)
    ensures |e| == |s| && forall i :: 0 <= i < |s| ==> e[i] == Got(s[i])
  {
    seq(|s|, i requires 0 <= i < |s| => Got(s[i]))
  }

  function Puts(s: Bytes): (e: seq<Event>)
    ensures |e| == |s| && forall i :: 0 <= i < |s| ==> e[i] == Put(s[i])
  {
    seq(|s|, i requires 0 <= i < |s| => Put(s[i]))
  }

  /** The system calls that answer with a new disk. */
  function Call(w: World, answer: Result<Disk, OsError>): (r: Step<()>)
    ensures r.w.log == w.log
  {
    match answer
    case Ok(disk) => Done(w.(disk := disk), ())
    case Err(e) => Failed(w, Os(e))
  }

  function ReadByte(w: World): (r: Step<Byte>)
    ensures w.log <= r.w.log && |r.w.input| <= |w.input|
    ensures r.Done? ==> |r.w.input| < |w.input|
  {
    if w.input == [] then Failed(w.(log := w.log + [Eof]), EndOfFile)
    else Done(w.(input := w.input[1..], log := w.log + [Got(w.input[0])]), w.input[0])
  }

  function PeekByte(w: World): (r: Step<Byte>)
    ensures w.log <= r.w.log && |r.w.input| <= |w.input|
  {
    if w.input == [] then Failed(w.(log := w.log + [Eof]), EndOfFile)
    else Done(w.(log := w.log + [Peeked(w.input[0])]), w.input[0])
  }

  /** A byte the caller insists on. */
  function Expect(w: World, b: Byte): (r: Step<()>)
    ensures w.log <= r.w.log && |r.w.input| <= |w.input|
    ensures r.Done? ==> |r.w.input| < |w.input|
  {
    var (w, got) :- ReadByte(w);
    if got != b then Failed(w, UnexpectedType(got)) else Done(w, ())
  }

  /** bufio's ReadString without the delimiter: at the end of input everything is gone and it fails. */
  function ReadString(w: World, delimiter: Byte): (r: Step<Bytes>)
    ensures w.log <= r.w.log && |r.w.input| <= |w.input|
    ensures r.Done? ==> |r.w.input| < |w.input|
  {
    var i := IndexOf(w.input, delimiter);
    if i < |w.input| then
      Done(w.(input := w.input[i + 1..], log := w.log + Gots(w.input[..i + 1])), w.input[..i])
    else
      Failed(w.(input := [], log := w.log + Gots(w.input) + [Eof]), EndOfFile)
  }

  /** The first `n` bytes, or all there are when stdin ends before. */
  function Take(w: World, n: nat): (r: (World, Bytes))
    ensures w.log <= r.0.log && |r.0.input| <= |w.input|
  {
    if n <= |w.input| then (w.(input := w.input[n..], log := w.log + Gots(w.input[..n])), w.input[..n])
    else (w.(input := [], log := w.log + Gots(w.input) + [Eof]), w.input)
  }

  function Write(w: World, text: Bytes): World
  {
    w.(log := w.log + Puts(text))
  }

  function Confirm(w: World): World
  {
    Write(w, [0])
  }

  /** "scp: " */
  const PREFIX: Bytes := [115, 99, 112, 58, 32]

  function ErrorRecord(message: Bytes): Bytes
  {
    [1] + (PREFIX + message + [NEWLINE])
  }

  function SendError(w: World, message: Bytes): World
  {
    Write(w, ErrorRecord(message))
  }

  /** The four kinds of acknowledgement: fine, a warning to show, a fatal report, nonsense. */
  function Judge(w: World, kind: Byte): (r: Step<()>)
    ensures w.log <= r.w.log && |r.w.input| <= |w.input|
  {
    if kind == 0 then Done(w, ())
    else if kind == 1 then
      var (w, message) :- ReadString(w, NEWLINE);
      Done(w.(log := w.log + [Note(message)]), ())
    else if kind == 2 then
      var (w, message) :- ReadString(w, NEWLINE);
      Failed(w, Remote(message))
    else Failed(w, BadAck(kind))
  }

  function AwaitConfirmation(w: World): (r: Step<()>)
    ensures w.log <= r.w.log && |r.w.input| <= |w.input|
    ensures r.Done? ==> |r.w.input| < |w.input|
  {
    var (w, kind) :- ReadByte(w);
    Judge(w, kind)
  }
}
