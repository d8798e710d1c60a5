/** The fingerprints of a host key and the check a proxy makes of the key its target presents. */
module HostKey {
  import opened Prelude

  const COLON: Byte := 58
  const MD5_FINGERPRINT_LENGTH := 47
  const SHA1_FINGERPRINT_LENGTH := 59

  function HexDigit(n: nat): (b: Byte)
    requires n < 16
    ensures b < 128 && b != COLON
  {
    if n < 10 then 48 + n else 87 + n
  }

  /** fmt's "% x": two lower-case digits a byte, spaces between. */
  function Spaced(digest: Bytes): Bytes
  {
    if digest == [] then []
    else
      var pair := [HexDigit(digest[0] / 16), HexDigit(digest[0] % 16)];
      if |digest| == 1 then pair else pair + [SPACE] + Spaced(digest[1..])
  }

  function Colonize(s: Bytes): Bytes
  {
    seq(|s|, i requires 0 <= i < |s| => if s[i] == SPACE then COLON else s[i])
  }

  function Fingerprint(digest: Bytes): Bytes
  {
    Colonize(Spaced(digest))
  }

  // ---------- utf8.RuneCountInString ----------

  predicate Continues(s: Bytes, i: nat, low: nat, high: nat)
  {
    i < |s| && low <= s[i] <= high
  }

  /** How many bytes the first rune of a non-empty string takes; an invalid byte is a rune of its own. */
  function RuneLength(s: Bytes): (n: nat)
    requires s != []
    ensures 1 <= n <= |s|
  {
    var b := s[0];
    if 0xC2 <= b <= 0xDF && Continues(s, 1, 0x80, 0xBF) then 2
    else if 0xE0 <= b <= 0xEF
            && Continues(s, 1, if b == 0xE0 then 0xA0 else 0x80, if b == 0xED then 0x9F else 0xBF)
            && Continues(s, 2, 0x80, 0xBF) then 3
    else if 0xF0 <= b <= 0xF4
            && Continues(s, 1, if b == 0xF0 then 0x90 else 0x80, if b == 0xF4 then 0x8F else 0xBF)
            && Continues(s, 2, 0x80, 0xBF) && Continues(s, 3, 0x80, 0xBF) then 4
    else 1
  }

  function RuneCount(s: Bytes): nat
  {
    if s == [] then 0 else 1 + RuneCount(s[RuneLength(s)..])
  }

  lemma {:induction false} AsciiRuneCount(s: Bytes)
    requires forall i :: 0 <= i < |s| ==> s[i] < 128
    ensures RuneCount(s) == |s|
  {
    if s != [] {
      assert RuneLength(s) == 1;
      AsciiRuneCount(s[1..]);
    }
  }

  // ---------- renderings ----------

  lemma {:induction false} SpacedShape(digest: Bytes)
    ensures |Spaced(digest)| == if digest == [] then 0 else 3 * |digest| - 1
    ensures forall i :: 0 <= i < |Spaced(digest)| ==> Spaced(digest)[i] < 128 && Spaced(digest)[i] != COLON
    ensures forall i :: 0 <= i < |digest| ==>
              && Spaced(digest)[3 * i] == HexDigit(digest[i] / 16)
              && Spaced(digest)[3 * i + 1] == HexDigit(digest[i] % 16)
  {
    hide HexDigit;
    if |digest| > 1 {
      var rest := Spaced(digest[1..]);
      SpacedShape(digest[1..]);
      forall j | 3 <= j < |Spaced(digest)| ensures Spaced(digest)[j] == rest[j - 3] {
      }
      forall i | 1 <= i < |digest|
        ensures Spaced(digest)[3 * i] == HexDigit(digest[i] / 16)
        ensures Spaced(digest)[3 * i + 1] == HexDigit(digest[i] % 16)
      {
        assert digest[i] == digest[1..][i - 1];
        assert rest[3 * (i - 1)] == HexDigit(digest[i] / 16) && rest[3 * (i - 1) + 1] == HexDigit(digest[i] % 16);
      }
    }
  }

  /** Renderings have three characters a byte but one, all ASCII. */
  lemma FingerprintLength(digest: Bytes)
    requires digest != []
    ensures |Fingerprint(digest)| == 3 * |digest| - 1 && RuneCount(Fingerprint(digest)) == |Fingerprint(digest)|
  {
    SpacedShape(digest);
    AsciiRuneCount(Fingerprint(digest));
  }

  /** Different digests have different renderings. */
  lemma FingerprintInjective(a: Bytes, b: Bytes)
    requires Fingerprint(a) == Fingerprint(b)
    ensures a == b
  {
    SpacedShape(a);
    SpacedShape(b);
    assert |a| == |b| by {
      assert |Spaced(a)| == |Fingerprint(a)| == |Fingerprint(b)| == |Spaced(b)|;
    }
    forall i | 0 <= i < |a| ensures a[i] == b[i] {
      assert Fingerprint(a)[3 * i] == HexDigit(a[i] / 16) && Fingerprint(b)[3 * i] == HexDigit(b[i] / 16);
      assert Fingerprint(a)[3 * i + 1] == HexDigit(a[i] % 16) && Fingerprint(b)[3 * i + 1] == HexDigit(b[i] % 16);
    }
  }

  // ---------- the callback ----------

  /** The rendering the callback compares with is picked by the length of what it expects. */
  function Actual(expected: Bytes, md5: Bytes, sha1: Bytes): Bytes
  {
    if RuneCount(expected) == MD5_FINGERPRINT_LENGTH then Fingerprint(md5)
    else if RuneCount(expected) == SHA1_FINGERPRINT_LENGTH then Fingerprint(sha1)
    else []
  }

  predicate HostKeyAccepted(expected: Bytes, md5: Bytes, sha1: Bytes)
  {
    expected == Actual(expected, md5, sha1)
  }

  /** For a non-empty expectation, picking by length loses nothing: either rendering is accepted, nothing else is. */
  lemma AcceptsExactlyTheFingerprints(expected: Bytes, md5: Bytes, sha1: Bytes)
    requires expected != [] && |md5| == 16 && |sha1| == 20
    ensures HostKeyAccepted(expected, md5, sha1) <==> expected == Fingerprint(md5) || expected == Fingerprint(sha1)
  {
    FingerprintLength(md5);
    FingerprintLength(sha1);
  }
}
