/** The decimal and octal texts of the scp headers and the strconv parsers that read them back. */
module Numerals {
  import opened Prelude

  const TWO_32: int := 0x1_0000_0000
  const TWO_63: int := 0x8000_0000_0000_0000
  const TWO_64: int := 0x1_0000_0000_0000_0000

  const ZERO: Byte := 48
  const PLUS: Byte := 43
  const MINUS: Byte := 45

  /** Fmt's %d / %o of a non-negative number: no leading zeros. */
  function Render(n: nat, base: nat): Bytes
    requires 2 <= base <= 10
    decreases n
  {
    if n < base then [ZERO + n] else Render(n / base, base) + [ZERO + n % base]
  }

  /** Zero padding on the left up to a width. */
  function Pad(s: Bytes, width: nat): Bytes
    decreases width - |s|
  {
    if |s| >= width then s else Pad([ZERO] + s, width)
  }

  /** Fmt's %.4o. */
  function Octal4(n: nat): Bytes
  {
    Pad(Render(n, 8), 4)
  }

  /** Fmt's %d. */
  function Decimal(n: int): Bytes
  {
    if n < 0 then [MINUS] + Render(-n, 10) else Render(n, 10)
  }

  predicate IsNumeral(s: Bytes, base: nat)
  {
    s != [] && forall i :: 0 <= i < |s| ==> ZERO <= s[i] < ZERO + base
  }

  /** The number a digit string stands for (meaningful when it is a numeral). */
  function Value(s: Bytes, base: nat): int
  {
    if s == [] then 0 else Value(s[..|s| - 1], base) * base + (s[|s| - 1] - ZERO)
  }

  /** strconv.ParseUint with an explicit base; `limit` is 2 to the bit size. */
  function ParseUint(s: Bytes, base: nat, limit: int): Option<nat>
  {
    if IsNumeral(s, base) && 0 <= Value(s, base) < limit then Some(Value(s, base)) else None
  }

  /** strconv.ParseInt(s, 10, 64): an optional sign, then digits, in the int64 range. */
  function ParseInt(s: Bytes): Option<int>
  {
    if s == [] then None
    else
      var negative := s[0] == MINUS;
      var digits := if negative || s[0] == PLUS then s[1..] else s;
      if !IsNumeral(digits, 10) then None
      else
        var v := if negative then -Value(digits, 10) else Value(digits, 10);
        if -TWO_63 <= v < TWO_63 then Some(v) else None
  }

  /** Go's int64(u) for a uint64. */
  function ToInt64(u: nat): int
  {
    if u % TWO_64 < TWO_63 then u % TWO_64 else u % TWO_64 - TWO_64
  }

  lemma {:induction false} RenderValue(n: nat, base: nat)
    requires base == 8 || base == 10
    ensures IsNumeral(Render(n, base), base)
    ensures Value(Render(n, base), base) == n
    decreases n
  {
    if n < base {
      assert Render(n, base)[..0] == [];
    } else {
      RenderValue(n / base, base);
      var s := Render(n, base);
      assert s[..|s| - 1] == Render(n / base, base) && s[|s| - 1] == ZERO + n % base;
      if base == 8 {
        assert n == n / 8 * 8 + n % 8;
      } else {
        assert n == n / 10 * 10 + n % 10;
      }
    }
  }

  lemma {:induction false} LeadingZero(s: Bytes, base: nat)
    ensures Value([ZERO] + s, base) == Value(s, base)
  {
    var t := [ZERO] + s;
    if s == [] {
      assert t[..0] == [];
    } else {
      assert t[..|t| - 1] == [ZERO] + s[..|s| - 1];
      LeadingZero(s[..|s| - 1], base);
    }
  }

  lemma {:induction false} PadValue(s: Bytes, width: nat, base: nat)
    requires IsNumeral(s, base)
    ensures IsNumeral(Pad(s, width), base)
    ensures Value(Pad(s, width), base) == Value(s, base)
    ensures |Pad(s, width)| == if |s| >= width then |s| else width
    decreases width - |s|
  {
    if |s| < width {
      LeadingZero(s, base);
      PadValue([ZERO] + s, width, base);
    }
  }

  /** The mode field: four octal digits for every mode up to 07777, and ParseUint(_, 8, 32) inverts it. */
  lemma ModeTextRoundTrip(mode: nat)
    requires mode < TWO_32
    ensures ParseUint(Octal4(mode), 8, TWO_32) == Some(mode)
    ensures mode < 4096 ==> |Octal4(mode)| == 4
  {
    RenderValue(mode, 8);
    PadValue(Render(mode, 8), 4, 8);
    if mode < 4096 {
      var (high, middle) := (mode / 8 / 8 / 8, mode / 8 / 8);
      assert |Render(high, 8)| == 1;
      assert |Render(middle, 8)| <= 2;
      assert |Render(mode / 8, 8)| <= 3;
    }
  }

  /** The size field: ParseInt inverts %d on every int64. */
  lemma SizeTextRoundTrip(size: int)
    requires -TWO_63 <= size < TWO_63
    ensures ParseInt(Decimal(size)) == Some(size)
  {
    RenderValue(if size < 0 then -size else size, 10);
    if size < 0 {
      assert Decimal(size)[1..] == Render(-size, 10);
    }
  }

  /** The time fields: ParseUint inverts %d exactly on the non-negative seconds, and rejects the others. */
  lemma TimeTextRoundTrip(seconds: int)
    requires -TWO_63 <= seconds < TWO_63
    ensures ParseUint(Decimal(seconds), 10, TWO_64) == if seconds >= 0 then Some(seconds) else None
    ensures seconds >= 0 ==> ToInt64(seconds) == seconds
  {
    RenderValue(if seconds < 0 then -seconds else seconds, 10);
    if seconds < 0 {
      assert Decimal(seconds)[0] == MINUS;
    } else {
      assert Decimal(seconds) == Render(seconds, 10);
    }
  }

  /** Header fields never contain their own delimiter. */
  lemma NumeralsAreSolid(s: Bytes, base: nat)
    requires IsNumeral(s, base) || ParseInt(s).Some?
    requires base <= 10
    ensures SPACE !in s && NEWLINE !in s
  {
    if !IsNumeral(s, base) {
      var digits := if s[0] == MINUS || s[0] == PLUS then s[1..] else s;
      forall i | 0 <= i < |s| ensures s[i] != SPACE && s[i] != NEWLINE {
        if s != digits {
          assert i > 0 ==> s[i] == digits[i - 1];
        } else {
          assert s[i] == digits[i];
        }
      }
    }
  }
}
