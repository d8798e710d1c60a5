/** Types shared by every module: bytes, optional values, results. */
module Prelude {

  type Byte = b: int | 0 <= b < 256

  type Bytes = seq<Byte>

  const NEWLINE: Byte := 10
  const SPACE: Byte := 32

  datatype Option<+T> = None | Some(value: T) {
    predicate IsFailure() { None? }
    function PropagateFailure<U>(): Option<U> requires None? { None }
    function Extract(): T requires Some? { value }
  }

  datatype Result<+T, +E> = Ok(value: T) | Err(error: E) {
    predicate IsFailure() { Err? }
    function PropagateFailure<U>(): Result<U, E> requires Err? { Err(error) }
    function Extract(): T requires Ok? { value }
  }

  /** Where `b` first occurs in `s`, or the length of `s`. */
  function IndexOf(s: Bytes, b: Byte): (i: nat)
    ensures i <= |s| && b !in s[..i]
    ensures i < |s| ==> s[i] == b
  {
    if s == [] || s[0] == b then 0 else 1 + IndexOf(s[1..], b)
  }

  /** `n` copies of the confirmation byte in front of `rest`. */
  function Zeros(n: nat, rest: Bytes): Bytes
  {
    if n == 0 then rest else [0] + Zeros(n - 1, rest)
  }

  lemma {:induction false} ZerosAdd(a: nat, b: nat, rest: Bytes)
    ensures Zeros(a + b, rest) == Zeros(a, Zeros(b, rest))
  {
    if a > 0 {
      ZerosAdd(a - 1, b, rest);
    }
  }
}
