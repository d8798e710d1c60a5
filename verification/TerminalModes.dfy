/** The encoded terminal modes of a pty request (section 8 of RFC 4254) and their effect on the terminal. */
module TerminalModes {
  import opened Prelude

  // ---------- the mode list ----------

  datatype Mode = Mode(opcode: Byte, value: nat)

  predicate GoodMode(m: Mode)
  {
    1 <= m.opcode < 160 && m.value < 0x1_0000_0000
  }

  function BigEndian(s: Bytes): nat
    requires |s| == 4
  {
    var (a: int, b: int, c: int, d: int) := (s[0], s[1], s[2], s[3]);
    ((a * 256 + b) * 256 + c) * 256 + d
  }

  function EncodeValue(v: nat): (s: Bytes)
    requires v < 0x1_0000_0000
    ensures |s| == 4
  {
    [v / 0x100_0000, v / 0x1_0000 % 256, v / 0x100 % 256, v % 256]
  }

  function Encode(modes: seq<Mode>): Bytes
    requires forall i :: 0 <= i < |modes| ==> GoodMode(modes[i])
  {
    if modes == [] then []
    else
      assert GoodMode(modes[0]);
      [modes[0].opcode] + EncodeValue(modes[0].value) + Encode(modes[1..])
  }

  /** The bytes start with a complete entry. */
  predicate StartsEntry(s: Bytes)
  {
    |s| >= 5 && 1 <= s[0] < 160
  }

  /** The entries the loop acts on. */
  function Decode(s: Bytes): (modes: seq<Mode>)
    ensures 5 * |modes| <= |s|
    ensures forall i :: 0 <= i < |modes| ==> GoodMode(modes[i])
  {
    if StartsEntry(s) then [Mode(s[0], BigEndian(s[1..5]))] + Decode(s[5..]) else []
  }

  lemma ValueRoundTrip(v: nat)
    requires v < 0x1_0000_0000
    ensures BigEndian(EncodeValue(v)) == v
  {
    var (a, b) := (v / 0x100, v / 0x1_0000);
    assert v == a * 256 + v % 256;
    assert a == b * 256 + a % 256 && b == v / 0x100 / 0x100;
    assert b == b / 256 * 256 + b % 256 && b / 256 == v / 0x100_0000;
  }

  lemma ValueIsEncoded(s: Bytes)
    requires |s| == 4
    ensures EncodeValue(BigEndian(s)) == s
  {
    var high: int := s[0];
    var b := high * 256 + s[1];
    var a := b * 256 + s[2];
    assert BigEndian(s) / 0x100 == a;
    assert a / 0x100 == b && BigEndian(s) / 0x1_0000 == b;
    assert b / 0x100 == s[0] && BigEndian(s) / 0x100_0000 == s[0];
  }

  /** Decoding is the inverse of encoding, whatever follows the end code. */
  lemma {:induction false} ModeListRoundTrip(modes: seq<Mode>, trailing: Bytes)
    requires forall i :: 0 <= i < |modes| ==> GoodMode(modes[i])
    ensures Decode(Encode(modes) + [0] + trailing) == modes
  {
    if modes != [] {
      hide BigEndian, EncodeValue;
      var m := modes[0];
      assert GoodMode(m);
      var (value, rest) := (EncodeValue(m.value), Encode(modes[1..]) + [0] + trailing);
      assert |value| == 4;
      var s := [m.opcode] + value + rest;
      assert Encode(modes) + [0] + trailing == s;
      assert s[1..5] == value && s[5..] == rest;
      ValueRoundTrip(m.value);
      ModeListRoundTrip(modes[1..], trailing);
    }
  }

  /** The entries are the leading run of complete ones, five bytes each, and it stops only where no entry starts. */
  lemma {:induction false} DecodeTakesTheRun(s: Bytes)
    ensures |Encode(Decode(s))| == 5 * |Decode(s)| && Encode(Decode(s)) <= s
    ensures !StartsEntry(s[5 * |Decode(s)|..])
  {
    if StartsEntry(s) {
      DecodeTakesTheRun(s[5..]);
      ValueIsEncoded(s[1..5]);
      var n := |Decode(s[5..])|;
      assert s == [s[0]] + s[1..5] + s[5..];
      assert Decode(s)[1..] == Decode(s[5..]);
      assert s[5..][5 * n..] == s[5 * (n + 1)..];
    } else {
      assert s[0..] == s;
    }
  }

  /** No longer run of entries could have been taken. */
  lemma {:induction false} DecodeTakesTheLongest(s: Bytes, modes: seq<Mode>)
    requires forall i :: 0 <= i < |modes| ==> GoodMode(modes[i])
    requires Encode(modes) <= s
    ensures modes <= Decode(s)
  {
    if modes != [] {
      var m := modes[0];
      var rest := Encode(modes[1..]);
      assert Encode(modes) == [m.opcode] + EncodeValue(m.value) + rest;
      assert s[..5] == Encode(modes)[..5] == [m.opcode] + EncodeValue(m.value);
      assert s[0] == s[..5][0] && s[1..5] == s[..5][1..] == EncodeValue(m.value);
      assert s[5..][..|rest|] == s[5..5 + |rest|] == Encode(modes)[5..] == rest;
      ValueRoundTrip(m.value);
      DecodeTakesTheLongest(s[5..], modes[1..]);
      assert modes == [m] + modes[1..];
    }
  }

  // ---------- the terminal ----------

  /** A 32-bit flag word. */
  datatype Word = Word(bits: bv32)

  datatype Register = Input | Local | Output | Control

  datatype Termios = Termios(iflag: Word, lflag: Word, oflag: Word, cflag: Word, cc: seq<Byte>)

  datatype Setter = NopSetter | CcSetter(character: nat) | FlagSetter(register: Register, flag: Word)

  /** The platform: which opcode sets what, and the character-size field with its two settings. */
  datatype Platform = Platform(setters: map<Byte, Setter>, csize: Word, cs7: Word, cs8: Word, ccs: nat)

  ghost predicate GoodPlatform(p: Platform)
  {
    forall op | op in p.setters :: p.setters[op].CcSetter? ==> p.setters[op].character < p.ccs
  }

  function Get(t: Termios, r: Register): Word
  {
    match r
    case Input => t.iflag
    case Local => t.lflag
    case Output => t.oflag
    case Control => t.cflag
  }

  function With(t: Termios, r: Register, v: Word): Termios
  {
    match r
    case Input => t.(iflag := v)
    case Local => t.(lflag := v)
    case Output => t.(oflag := v)
    case Control => t.(cflag := v)
  }

  /** One of the two settings of the character-size field. */
  predicate IsSize(p: Platform, s: Setter)
  {
    s.FlagSetter? && s.register.Control? && (s.flag == p.cs7 || s.flag == p.cs8)
  }

  /** x |= flag, or x &^= flag. */
  function Switch(x: Word, flag: Word, on: bool): Word
  {
    Word(if on then x.bits | flag.bits else x.bits & !flag.bits)
  }

  function Replace(x: Word, field: Word, flag: Word): Word
  {
    Switch(Switch(x, field, false), flag, true)
  }

  predicate Holds(x: Word, b: Word)
  {
    x.bits & b.bits != 0
  }

  /** The in-place update of the record that Set makes before it is written back. */
  function Apply(p: Platform, t: Termios, s: Setter, value: nat): (t': Termios)
    requires s.CcSetter? ==> s.character < |t.cc|
    ensures |t'.cc| == |t.cc|
  {
    match s
    case NopSetter => t
    case CcSetter(c) => t.(cc := t.cc[c := value % 256])
    case FlagSetter(r, flag) =>
      if IsSize(p, s) then With(t, r, Replace(Get(t, r), p.csize, flag))
      else With(t, r, Switch(Get(t, r), flag, value != 0))
  }

  /** The modes that reach the terminal, applied in order. */
  function ApplyAll(p: Platform, t: Termios, modes: seq<Mode>): (t': Termios)
    requires GoodPlatform(p) && |t.cc| == p.ccs
    ensures |t'.cc| == p.ccs
  {
    if modes == [] then t
    else
      var (before, m) := (ApplyAll(p, t, modes[..|modes| - 1]), modes[|modes| - 1]);
      if m.opcode in p.setters then Apply(p, before, p.setters[m.opcode], m.value) else before
  }

  // ---------- last value wins ----------

  predicate OneBit(b: Word)
  {
    b.bits != 0 && b.bits & (b.bits - 1) == 0
  }

  /** The setter decides bit `b` of register `r`. */
  predicate Decides(p: Platform, s: Setter, r: Register, b: Word)
  {
    && s.FlagSetter? && s.register == r
    && (Holds(s.flag, b) || (IsSize(p, s) && Holds(p.csize, b)))
  }

  /** What the last mode that decides the bit says of it; otherwise it stays as it was. */
  function LastBit(p: Platform, initial: bool, modes: seq<Mode>, r: Register, b: Word): bool
  {
    if modes == [] then initial
    else
      var m := modes[|modes| - 1];
      if m.opcode in p.setters && Decides(p, p.setters[m.opcode], r, b) then
        if IsSize(p, p.setters[m.opcode]) then Holds(p.setters[m.opcode].flag, b) else m.value != 0
      else LastBit(p, initial, modes[..|modes| - 1], r, b)
  }

  function LastCharacter(p: Platform, initial: Byte, modes: seq<Mode>, c: nat): Byte
  {
    if modes == [] then initial
    else
      var m := modes[|modes| - 1];
      if m.opcode in p.setters && p.setters[m.opcode] == CcSetter(c) then m.value % 256
      else LastCharacter(p, initial, modes[..|modes| - 1], c)
  }

  lemma SwitchedBit(x: Word, flag: Word, on: bool, b: Word)
    requires OneBit(b)
    ensures Holds(Switch(x, flag, on), b) <==> if Holds(flag, b) then on else Holds(x, b)
  {
  }

  lemma ReplacedBit(x: Word, field: Word, flag: Word, b: Word)
    requires OneBit(b)
    ensures Holds(Replace(x, field, flag), b) <==> Holds(flag, b) || (Holds(x, b) && !Holds(field, b))
  {
    hide Switch, Holds, OneBit;
    SwitchedBit(x, field, false, b);
    SwitchedBit(Switch(x, field, false), flag, true, b);
  }

  lemma GetWith(t: Termios, r: Register, v: Word, r': Register)
    ensures Get(With(t, r, v), r') == if r == r' then v else Get(t, r')
    ensures With(t, r, v).cc == t.cc
  {
  }

  lemma AppliedBit(p: Platform, t: Termios, s: Setter, value: nat, r: Register, b: Word)
    requires OneBit(b) && (s.CcSetter? ==> s.character < |t.cc|)
    ensures Holds(Get(Apply(p, t, s, value), r), b)
       <==> if !Decides(p, s, r, b) then Holds(Get(t, r), b)
            else if IsSize(p, s) then Holds(s.flag, b)
            else value != 0
  {
    hide Holds, Switch, Replace, OneBit, With, IsSize;
    if s.FlagSetter? {
      hide Get;
      var (switched, replaced) :=
        (Switch(Get(t, s.register), s.flag, value != 0), Replace(Get(t, s.register), p.csize, s.flag));
      SwitchedBit(Get(t, s.register), s.flag, value != 0, b);
      ReplacedBit(Get(t, s.register), p.csize, s.flag, b);
      GetWith(t, s.register, switched, r);
      GetWith(t, s.register, replaced, r);
    }
  }

  /** Every flag bit of every register ends as the last mode that decides it left it, or as it was. */
  lemma {:induction false} FlagsLastValueWins(p: Platform, t: Termios, modes: seq<Mode>, r: Register, b: Word)
    requires GoodPlatform(p) && |t.cc| == p.ccs && OneBit(b)
    ensures Holds(Get(ApplyAll(p, t, modes), r), b) <==> LastBit(p, Holds(Get(t, r), b), modes, r, b)
  {
    hide Holds, Apply, Decides, IsSize, OneBit, Get;
    if modes != [] {
      var (front, m) := (modes[..|modes| - 1], modes[|modes| - 1]);
      FlagsLastValueWins(p, t, front, r, b);
      if m.opcode in p.setters {
        AppliedBit(p, ApplyAll(p, t, front), p.setters[m.opcode], m.value, r, b);
      }
    }
  }

  /** Every control character ends as the low byte of its last value, or as it was. */
  lemma {:induction false} CharactersLastValueWins(p: Platform, t: Termios, modes: seq<Mode>, c: nat)
    requires GoodPlatform(p) && |t.cc| == p.ccs && c < p.ccs
    ensures ApplyAll(p, t, modes).cc[c] == LastCharacter(p, t.cc[c], modes, c)
  {
    hide Switch, Replace, With, Get, IsSize;
    if modes != [] {
      var (front, m) := (modes[..|modes| - 1], modes[|modes| - 1]);
      CharactersLastValueWins(p, t, front, c);
      if m.opcode in p.setters && p.setters[m.opcode].FlagSetter? {
        FlagsSpareCharacters(p, ApplyAll(p, t, front), p.setters[m.opcode], m.value);
      }
    }
  }

  lemma FlagsSpareCharacters(p: Platform, t: Termios, s: Setter, value: nat)
    requires s.FlagSetter?
    ensures Apply(p, t, s, value).cc == t.cc
  {
    hide Switch, Replace, Get, IsSize;
  }

  /** Two registers that agree on every single bit are the same, so the bits say everything. */
  lemma BitsDetermine(x: Word, y: Word)
    requires forall b | OneBit(b) :: Holds(x, b) <==> Holds(y, b)
    ensures x == y
  {
    if x != y {
      DifferingBit(x, y);
    }
  }

  lemma DifferingBit(x: Word, y: Word)
    requires x != y
    ensures var d := x.bits ^ y.bits; var b := Word(d & (0 - d)); OneBit(b) && Holds(x, b) != Holds(y, b)
  {
  }

  /** Is every bit and every character of `u` what its last value in the list makes it, or what it was in `t`? */
  ghost predicate HoldsLastValues(p: Platform, t: Termios, modes: seq<Mode>, u: Termios)
    requires |t.cc| == p.ccs
  {
    && (forall r, b | OneBit(b) :: Holds(Get(u, r), b) <==> LastBit(p, Holds(Get(t, r), b), modes, r, b))
    && |u.cc| == p.ccs
    && (forall c | 0 <= c < p.ccs :: u.cc[c] == LastCharacter(p, t.cc[c], modes, c))
  }

  /** The refinement: applying the list one setter at a time yields the one state that holds all last values. */
  lemma LastValuesAreTheState(p: Platform, t: Termios, modes: seq<Mode>, u: Termios)
    requires GoodPlatform(p) && |t.cc| == p.ccs
    ensures u == ApplyAll(p, t, modes) <==> HoldsLastValues(p, t, modes, u)
  {
    hide ApplyAll, LastBit, LastCharacter, OneBit, Holds;
    var v := ApplyAll(p, t, modes);
    forall r, b | OneBit(b) ensures Holds(Get(v, r), b) <==> LastBit(p, Holds(Get(t, r), b), modes, r, b) {
      FlagsLastValueWins(p, t, modes, r, b);
    }
    forall c | 0 <= c < p.ccs ensures v.cc[c] == LastCharacter(p, t.cc[c], modes, c) {
      CharactersLastValueWins(p, t, modes, c);
    }
    if HoldsLastValues(p, t, modes, u) {
      forall r ensures Get(u, r) == Get(v, r) {
        BitsDetermine(Get(u, r), Get(v, r));
      }
      SameRegisters(u, v);
      assert u.cc == v.cc;
    }
  }

  lemma SameRegisters(u: Termios, v: Termios)
    requires forall r :: Get(u, r) == Get(v, r)
    ensures u.iflag == v.iflag && u.lflag == v.lflag && u.oflag == v.oflag && u.cflag == v.cflag
  {
    assert Get(u, Input) == Get(v, Input) && Get(u, Local) == Get(v, Local);
    assert Get(u, Output) == Get(v, Output) && Get(u, Control) == Get(v, Control);
  }

  // ---------- by opcode ----------

  /** What the last mode with this opcode said, if there was one. */
  function LastValue(modes: seq<Mode>, opcode: Byte): Option<nat>
  {
    if modes == [] then None
    else if modes[|modes| - 1].opcode == opcode then Some(modes[|modes| - 1].value)
    else LastValue(modes[..|modes| - 1], opcode)
  }

  /** The opcode is the only one that decides its one-bit flag. */
  ghost predicate OwnsFlag(p: Platform, opcode: Byte)
  {
    && opcode in p.setters && p.setters[opcode].FlagSetter? && OneBit(p.setters[opcode].flag)
    && !IsSize(p, p.setters[opcode])
    && forall op | op in p.setters && op != opcode ::
         !Decides(p, p.setters[op], p.setters[opcode].register, p.setters[opcode].flag)
  }

  /** A flag with an opcode of its own is set exactly when the last value for that opcode was not zero. */
  lemma FlagFollowsOpcode(p: Platform, t: Termios, modes: seq<Mode>, opcode: Byte)
    requires GoodPlatform(p) && |t.cc| == p.ccs && OwnsFlag(p, opcode)
    ensures var s := p.setters[opcode];
            (Holds(Get(ApplyAll(p, t, modes), s.register), s.flag)
             <==> match LastValue(modes, opcode)
                  case Some(v) => v != 0
                  case None => Holds(Get(t, s.register), s.flag))
  {
    hide Holds, OneBit, Get, ApplyAll;
    var s := p.setters[opcode];
    FlagsLastValueWins(p, t, modes, s.register, s.flag);
    SelfDecides(s.flag);
    LastBitIsLastValue(p, Holds(Get(t, s.register), s.flag), modes, opcode);
  }

  lemma SelfDecides(b: Word)
    requires OneBit(b)
    ensures Holds(b, b)
  {
  }

  lemma {:induction false} LastBitIsLastValue(p: Platform, initial: bool, modes: seq<Mode>, opcode: Byte)
    requires OwnsFlag(p, opcode) && Holds(p.setters[opcode].flag, p.setters[opcode].flag)
    ensures LastBit(p, initial, modes, p.setters[opcode].register, p.setters[opcode].flag)
         == match LastValue(modes, opcode)
            case Some(v) => v != 0
            case None => initial
  {
    hide Holds, OneBit;
    if modes != [] {
      LastBitIsLastValue(p, initial, modes[..|modes| - 1], opcode);
    }
  }

  predicate Within(flag: Word, field: Word)
  {
    flag.bits & !field.bits == 0
  }

  predicate Apart(flag: Word, field: Word)
  {
    flag.bits & field.bits == 0
  }

  function Part(x: Word, field: Word): Word
  {
    Word(x.bits & field.bits)
  }

  /** The two sizes lie in their field, and no other control flag does. */
  ghost predicate FieldApart(p: Platform)
  {
    && Within(p.cs7, p.csize) && Within(p.cs8, p.csize)
    && forall op | op in p.setters && p.setters[op].FlagSetter? && p.setters[op].register.Control? ::
         IsSize(p, p.setters[op]) || Apart(p.setters[op].flag, p.csize)
  }

  /** The setting of the last CS7 or CS8 in the list. */
  function LastSize(p: Platform, modes: seq<Mode>): Option<Word>
  {
    if modes == [] then None
    else
      var m := modes[|modes| - 1];
      if m.opcode in p.setters && IsSize(p, p.setters[m.opcode]) then Some(p.setters[m.opcode].flag)
      else LastSize(p, modes[..|modes| - 1])
  }

  lemma SizeField(x: Word, field: Word, flag: Word, on: bool)
    ensures Within(flag, field) ==> Part(Replace(x, field, flag), field) == flag
    ensures Apart(flag, field) ==> Part(Switch(x, flag, on), field) == Part(x, field)
  {
  }

  /** The character-size field is the last of CS7 and CS8, whatever their values, or as it was. */
  lemma {:induction false} SizeLastWins(p: Platform, t: Termios, modes: seq<Mode>)
    requires GoodPlatform(p) && FieldApart(p) && |t.cc| == p.ccs
    ensures Part(ApplyAll(p, t, modes).cflag, p.csize)
         == match LastSize(p, modes)
            case Some(size) => size
            case None => Part(t.cflag, p.csize)
  {
    hide Switch, Replace, Apply, IsSize, Within, Apart, Part;
    if modes != [] {
      var (front, m) := (modes[..|modes| - 1], modes[|modes| - 1]);
      SizeLastWins(p, t, front);
      if m.opcode in p.setters {
        AppliedSize(p, ApplyAll(p, t, front), p.setters[m.opcode], m.value);
      }
    }
  }

  lemma AppliedSize(p: Platform, t: Termios, s: Setter, value: nat)
    requires s.CcSetter? ==> s.character < |t.cc|
    requires Within(p.cs7, p.csize) && Within(p.cs8, p.csize)
    requires s.FlagSetter? && s.register.Control? ==> IsSize(p, s) || Apart(s.flag, p.csize)
    ensures Part(Apply(p, t, s, value).cflag, p.csize) == if IsSize(p, s) then s.flag else Part(t.cflag, p.csize)
  {
    hide Switch, Replace, Within, Apart, Part;
    if s.FlagSetter? {
      SizeField(t.cflag, p.csize, s.flag, value != 0);
    }
  }

  // ---------- the loop ----------

  /**
   Which modes reach the terminal when the system call number `k` succeeds exactly if `works(k)`, starting
   with call `first`; with the number of the next call. Each mode reads the attributes and, unless its
   opcode is unknown or ignored, writes them back.
   */
  function Reaching(p: Platform, modes: seq<Mode>, works: nat -> bool, first: nat): (seq<Mode>, nat)
  {
    if modes == [] then ([], first)
    else
      var ((before, k), m) := (Reaching(p, modes[..|modes| - 1], works, first), modes[|modes| - 1]);
      if !works(k) || m.opcode !in p.setters || p.setters[m.opcode].NopSetter? then (before, k + 1)
      else if !works(k + 1) then (before, k + 2)
      else (before + [m], k + 2)
  }

  /** When every call succeeds the whole list takes effect. */
  lemma {:induction false} AllReach(p: Platform, t: Termios, modes: seq<Mode>, works: nat -> bool, first: nat)
    requires GoodPlatform(p) && |t.cc| == p.ccs && forall k :: works(k)
    ensures ApplyAll(p, t, Reaching(p, modes, works, first).0) == ApplyAll(p, t, modes)
  {
    hide Apply;
    if modes != [] {
      var (front, m) := (modes[..|modes| - 1], modes[|modes| - 1]);
      AllReach(p, t, front, works, first);
      var before := Reaching(p, front, works, first).0;
      assert (before + [m])[..|before + [m]| - 1] == before;
      if m.opcode in p.setters && p.setters[m.opcode].NopSetter? {
        NopDoesNothing(p, ApplyAll(p, t, front), m.value);
      }
    }
  }

  lemma NopDoesNothing(p: Platform, t: Termios, value: nat)
    ensures Apply(p, t, NopSetter, value) == t
  {
  }

  lemma ReachingOneMore(p: Platform, done: seq<Mode>, m: Mode, works: nat -> bool, first: nat)
    ensures var ((before, k), (after, k')) := (Reaching(p, done, works, first), Reaching(p, done + [m], works, first));
            var known := m.opcode in p.setters && !p.setters[m.opcode].NopSetter?;
            && k' == (if works(k) && known then k + 2 else k + 1)
            && after == (if works(k) && known && works(k + 1) then before + [m] else before)
  {
    assert (done + [m])[..|done + [m]| - 1] == done;
  }

  lemma ApplyOneMore(p: Platform, t: Termios, modes: seq<Mode>, m: Mode)
    requires GoodPlatform(p) && |t.cc| == p.ccs && m.opcode in p.setters
    ensures ApplyAll(p, t, modes + [m]) == Apply(p, ApplyAll(p, t, modes), p.setters[m.opcode], m.value)
  {
    hide Apply;
    assert (modes + [m])[..|modes + [m]| - 1] == modes;
  }

  /** One more mode. */
  lemma OneMore(p: Platform, t: Termios, done: seq<Mode>, m: Mode, works: nat -> bool, first: nat)
    requires GoodPlatform(p) && |t.cc| == p.ccs
    ensures var ((before, k), (after, k')) := (Reaching(p, done, works, first), Reaching(p, done + [m], works, first));
            var known := m.opcode in p.setters && !p.setters[m.opcode].NopSetter?;
            && k' == (if works(k) && known then k + 2 else k + 1)
            && ApplyAll(p, t, after)
               == if works(k) && known && works(k + 1)
                  then Apply(p, ApplyAll(p, t, before), p.setters[m.opcode], m.value)
                  else ApplyAll(p, t, before)
  {
    hide Apply, ApplyAll, Reaching;
    ReachingOneMore(p, done, m, works, first);
    if m.opcode in p.setters {
      ApplyOneMore(p, t, Reaching(p, done, works, first).0, m);
    }
  }

  lemma NextEntry(s: Bytes, position: nat)
    requires position <= |s|
    ensures !StartsEntry(s[position..]) ==> Decode(s[position..]) == []
    ensures StartsEntry(s[position..]) ==>
              (Decode(s[position..])
               == [Mode(s[position], BigEndian(s[position + 1..position + 5]))] + Decode(s[position + 5..]))
  {
    hide BigEndian;
    var rest := s[position..];
    if StartsEntry(rest) {
      assert rest[1..5] == s[position + 1..position + 5] && rest[5..] == s[position + 5..];
    }
  }

  class Terminal {
    var attributes: Termios
    var calls: nat
    const works: nat -> bool
    const platform: Platform

    constructor (platform: Platform, attributes: Termios, works: nat -> bool)
      ensures this.platform == platform && this.attributes == attributes && this.works == works && calls == 0
    {
      this.platform, this.attributes, this.works, this.calls := platform, attributes, works, 0;
    }

    method GetAttr() returns (t: Option<Termios>)
      modifies this`calls
      ensures calls == old(calls) + 1
      ensures t == if works(old(calls)) then Some(attributes) else None
    {
      t := if works(calls) then Some(attributes) else None;
      calls := calls + 1;
    }

    method SetAttr(t: Termios) returns (ok: bool)
      modifies this
      ensures calls == old(calls) + 1 && ok == works(old(calls))
      ensures attributes == if ok then t else old(attributes)
    {
      ok := works(calls);
      calls := calls + 1;
      if ok {
        attributes := t;
      }
    }

    /** One complete entry: read the attributes, change the copy, write it back. */
    method SetAttribute(m: Mode)
      requires GoodPlatform(platform) && |attributes.cc| == platform.ccs
      modifies this
      ensures |attributes.cc| == platform.ccs
      ensures var known := m.opcode in platform.setters && !platform.setters[m.opcode].NopSetter?;
              if !works(old(calls)) || !known then calls == old(calls) + 1 && attributes == old(attributes)
              else
                && calls == old(calls) + 2
                && attributes == if works(old(calls) + 1)
                                 then Apply(platform, old(attributes), platform.setters[m.opcode], m.value)
                                 else old(attributes)
    {
      var termios := GetAttr();
      if termios.None? || m.opcode !in platform.setters {
        return;
      }
      var setter := platform.setters[m.opcode];
      if setter.NopSetter? {
        return;
      }
      var _ := SetAttr(Apply(platform, termios.value, setter, m.value));
    }

    method SetTerminalAttributes(modelist: Bytes)
      requires GoodPlatform(platform) && |attributes.cc| == platform.ccs
      modifies this
      ensures attributes
           == ApplyAll(platform, old(attributes), Reaching(platform, Decode(modelist), works, old(calls)).0)
    {
      hide Apply, ApplyAll, Reaching, Decode, BigEndian;
      var position := 0;
      ghost var done: seq<Mode> := [];
      StartOfList(platform, attributes, modelist, works, calls);
      while true
        invariant position <= |modelist| && Decode(modelist) == done + Decode(modelist[position..])
        invariant |attributes.cc| == platform.ccs
        invariant Reaching(platform, done, works, old(calls)).1 == calls
        invariant attributes == ApplyAll(platform, old(attributes), Reaching(platform, done, works, old(calls)).0)
        decreases |modelist| - position
      {
        NextEntry(modelist, position);
        if position == |modelist| {
          break;
        }
        var opcode := modelist[position];
        if opcode == 0 || opcode >= 160 {
          break;
        }
        if |modelist| - position < 5 {
          break;
        }
        var m := Mode(opcode, BigEndian(modelist[position + 1..position + 5]));
        OneMore(platform, old(attributes), done, m, works, old(calls));
        SetAttribute(m);
        position := position + 5;
        done := done + [m];
      }
      assert Decode(modelist) == done;
    }
  }

  lemma StartOfList(p: Platform, t: Termios, s: Bytes, works: nat -> bool, first: nat)
    requires GoodPlatform(p) && |t.cc| == p.ccs
    ensures s[0..] == s && Reaching(p, [], works, first) == ([], first) && ApplyAll(p, t, []) == t
  {
  }
}
