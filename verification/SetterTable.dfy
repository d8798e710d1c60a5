/** The table of setters, with the platform's constants as parameters. */
module SetterTable {
  import opened Prelude
  import opened TerminalModes

  /** The platform's index for each control character, its mask for each flag, and its character-size field. */
  datatype Constants = Constants(character: Byte -> nat, mask: Byte -> Word, csize: Word, ccs: nat)

  // Opcodes are those of section 8 of RFC 4254

  /** VINTR to VSUSP, VREPRINT, VWERASE, VLNEXT and VDISCARD. */
  predicate IsCharacter(op: Byte)
  {
    1 <= op <= 10 || 12 <= op <= 14 || op == 18
  }

  /** IGNPAR to ICRNL, IXON to IMAXBEL; ISIG to PENDIN but XCASE; OPOST to ONLRET but OLCUC; CS7 to PARODD. */
  predicate IsFlag(op: Byte)
  {
    30 <= op <= 36 || 38 <= op <= 41 || 50 <= op <= 51 || 53 <= op <= 62 || op == 70 || 72 <= op <= 75 || 90 <= op <= 93
  }

  /** VDSUSP, VFLUSH, VSWTCH, VSTATUS, IUCLC, XCASE, OLCUC and the speeds. */
  predicate IsIgnored(op: Byte)
  {
    op == 11 || 15 <= op <= 17 || op == 37 || op == 52 || op == 71 || op == 128 || op == 129
  }

  const CS7: Byte := 90
  const CS8: Byte := 91

  function RegisterOf(op: Byte): Register
  {
    if op < 50 then Input else if op < 70 then Local else if op < 90 then Output else Control
  }

  function Table(k: Constants): map<Byte, Setter>
  {
    map op: Byte | 0 <= op < 256 && (IsCharacter(op) || IsFlag(op) || IsIgnored(op)) ::
      if IsCharacter(op) then CcSetter(k.character(op))
      else if IsFlag(op) then FlagSetter(RegisterOf(op), k.mask(op))
      else NopSetter
  }

  function PlatformOf(k: Constants): Platform
  {
    Platform(Table(k), k.csize, k.mask(CS7), k.mask(CS8), k.ccs)
  }

  predicate IsSizeCode(op: Byte)
  {
    op == CS7 || op == CS8
  }

  /** Characters have room, flags are distinct single bits of a register, and the two sizes lie in their own field. */
  ghost predicate Regular(k: Constants)
  {
    && (forall op :: IsCharacter(op) ==> k.character(op) < k.ccs)
    && (forall op :: IsFlag(op) && !IsSizeCode(op) ==> OneBit(k.mask(op)))
    && (forall a, b ::
          IsFlag(a) && IsFlag(b) && !IsSizeCode(a) && !IsSizeCode(b) && a != b && RegisterOf(a) == RegisterOf(b)
          ==> k.mask(a) != k.mask(b))
    && (forall op :: IsFlag(op) && !IsSizeCode(op) && RegisterOf(op).Control? ==> Apart(k.mask(op), k.csize))
    && Within(k.mask(CS7), k.csize) && Within(k.mask(CS8), k.csize)
  }

  lemma DistinctBitsAreApart(a: Word, b: Word)
    requires OneBit(a) && OneBit(b) && a != b
    ensures !Holds(a, b)
  {
  }

  lemma PartsDoNotMeet(a: Word, field: Word, size: Word)
    requires Apart(a, field) && Within(size, field)
    ensures !Holds(size, a)
  {
    assert size.bits == size.bits & field.bits;
  }

  lemma ApartIsMutual(a: Word, field: Word)
    requires Apart(a, field)
    ensures !Holds(field, a)
  {
  }

  lemma OutsideIsNotInside(a: Word, field: Word, size: Word)
    requires OneBit(a) && Apart(a, field) && Within(size, field)
    ensures a != size && !Holds(size, a) && !Holds(field, a)
  {
    hide OneBit, Apart, Within, Holds;
    PartsDoNotMeet(a, field, size);
    ApartIsMutual(a, field);
    SelfDecides(a);
  }

  lemma TableIsGood(k: Constants)
    requires Regular(k)
    ensures GoodPlatform(PlatformOf(k)) && FieldApart(PlatformOf(k))
  {
    hide Within, Apart, OneBit;
  }

  /** In the daemon's own table every flag but the two sizes has an opcode of its own. */
  lemma TableOwnsFlags(k: Constants, op: Byte)
    requires Regular(k) && IsFlag(op) && !IsSizeCode(op)
    ensures OwnsFlag(PlatformOf(k), op)
  {
    hide OneBit, Holds, Apart, Within;
    var p := PlatformOf(k);
    var r, b := RegisterOf(op), k.mask(op);
    if r.Control? {
      OutsideIsNotInside(b, k.csize, k.mask(CS7));
      OutsideIsNotInside(b, k.csize, k.mask(CS8));
    }
    forall other | other in p.setters && other != op ensures !Decides(p, p.setters[other], r, b) {
      if IsFlag(other) && RegisterOf(other) == r && !IsSizeCode(other) {
        DistinctBitsAreApart(k.mask(other), b);
        SizeMasksDiffer(k, other);
      }
    }
    SizeMasksDiffer(k, op);
  }

  lemma SizeMasksDiffer(k: Constants, op: Byte)
    requires Regular(k) && IsFlag(op) && !IsSizeCode(op)
    ensures !IsSize(PlatformOf(k), FlagSetter(RegisterOf(op), k.mask(op)))
  {
    hide OneBit, Holds, Apart, Within;
    if RegisterOf(op).Control? {
      OutsideIsNotInside(k.mask(op), k.csize, k.mask(CS7));
      OutsideIsNotInside(k.mask(op), k.csize, k.mask(CS8));
    }
  }

  /** So with that table, whatever list is applied, each flag follows its own opcode. */
  lemma TableLastValueWins(k: Constants, t: Termios, modes: seq<Mode>, op: Byte)
    requires Regular(k) && |t.cc| == k.ccs && IsFlag(op) && !IsSizeCode(op)
    ensures GoodPlatform(PlatformOf(k))
    ensures Holds(Get(ApplyAll(PlatformOf(k), t, modes), RegisterOf(op)), k.mask(op))
            <==> match LastValue(modes, op)
                 case Some(v) => v != 0
                 case None => Holds(Get(t, RegisterOf(op)), k.mask(op))
  {
    hide OneBit, Holds, Apart, Within, ApplyAll;
    TableIsGood(k);
    TableOwnsFlags(k, op);
    FlagFollowsOpcode(PlatformOf(k), t, modes, op);
  }

  /** The mask that goes with the last size code of the list. */
  function LastSizeCode(modes: seq<Mode>): Option<Byte>
  {
    if modes == [] then None
    else
      var op := modes[|modes| - 1].opcode;
      if IsSizeCode(op) then Some(op) else LastSizeCode(modes[..|modes| - 1])
  }

  lemma {:induction false} LastSizeIsLastCode(k: Constants, modes: seq<Mode>)
    requires Regular(k)
    ensures LastSize(PlatformOf(k), modes)
            == match LastSizeCode(modes) case Some(op) => Some(k.mask(op)) case None => None
  {
    hide Regular;
    if modes != [] {
      LastSizeIsLastCode(k, modes[..|modes| - 1]);
      var op := modes[|modes| - 1].opcode;
      if IsFlag(op) && !IsSizeCode(op) {
        SizeMasksDiffer(k, op);
      }
    }
  }

  /** And the size field follows the last of CS7 and CS8. */
  lemma TableLastSizeWins(k: Constants, t: Termios, modes: seq<Mode>)
    requires Regular(k) && |t.cc| == k.ccs
    ensures GoodPlatform(PlatformOf(k))
    ensures Part(ApplyAll(PlatformOf(k), t, modes).cflag, k.csize)
            == match LastSizeCode(modes)
               case Some(op) => k.mask(op)
               case None => Part(t.cflag, k.csize)
  {
    hide ApplyAll, Part, Regular;
    TableIsGood(k);
    LastSizeIsLastCode(k, modes);
    SizeLastWins(PlatformOf(k), t, modes);
  }

  // A platform

  function LinuxCharacter(op: Byte): nat
  {
    match op
    case 1 => 0 case 2 => 1 case 3 => 2 case 4 => 3 case 5 => 4 case 6 => 11 case 7 => 16
    case 8 => 8 case 9 => 9 case 10 => 10 case 12 => 12 case 13 => 14 case 14 => 15 case 18 => 13
    case _ => 0
  }

  function LinuxBits(op: Byte): bv32
  {
    match op
    case 30 => 0x4 case 31 => 0x8 case 32 => 0x10 case 33 => 0x20 case 34 => 0x40 case 35 => 0x80 case 36 => 0x100
    case 38 => 0x400 case 39 => 0x800 case 40 => 0x1000 case 41 => 0x2000
    case 50 => 0x1 case 51 => 0x2 case 53 => 0x8 case 54 => 0x10 case 55 => 0x20 case 56 => 0x40 case 57 => 0x80
    case 58 => 0x100 case 59 => 0x8000 case 60 => 0x200 case 61 => 0x800 case 62 => 0x4000
    case 70 => 0x1 case 72 => 0x4 case 73 => 0x8 case 74 => 0x10 case 75 => 0x20
    case 90 => 0x20 case 91 => 0x30 case 92 => 0x100 case 93 => 0x200
    case _ => 0
  }

  const LINUX := Constants(LinuxCharacter, (op: Byte) => Word(LinuxBits(op)), Word(0x30), 32)

  /** The opcode that goes with a mask, so that no two flags of a register share one. */
  function LinuxCode(r: Register, bits: bv32): Byte
  {
    match r
    case Input =>
      (match bits
       case 0x4 => 30 case 0x8 => 31 case 0x10 => 32 case 0x20 => 33 case 0x40 => 34 case 0x80 => 35 case 0x100 => 36
       case 0x400 => 38 case 0x800 => 39 case 0x1000 => 40 case _ => 41)
    case Local =>
      (match bits
       case 0x1 => 50 case 0x2 => 51 case 0x8 => 53 case 0x10 => 54 case 0x20 => 55 case 0x40 => 56 case 0x80 => 57
       case 0x100 => 58 case 0x8000 => 59 case 0x200 => 60 case 0x800 => 61 case _ => 62)
    case Output =>
      (match bits case 0x1 => 70 case 0x4 => 72 case 0x8 => 73 case 0x10 => 74 case _ => 75)
    case Control =>
      (match bits case 0x100 => 92 case _ => 93)
  }

  lemma LinuxInputIsOneBit(op: Byte)
    requires IsFlag(op) && op < 50
    ensures OneBit(Word(LinuxBits(op)))
  {
  }

  lemma LinuxLocalIsOneBit(op: Byte)
    requires IsFlag(op) && 50 <= op < 70
    ensures OneBit(Word(LinuxBits(op)))
  {
  }

  lemma LinuxOutputIsOneBit(op: Byte)
    requires IsFlag(op) && 70 <= op < 90
    ensures OneBit(Word(LinuxBits(op)))
  {
  }

  lemma LinuxControlIsOneBit(op: Byte)
    requires IsFlag(op) && 92 <= op
    ensures OneBit(Word(LinuxBits(op))) && Apart(Word(LinuxBits(op)), Word(0x30))
  {
  }

  lemma LinuxFlagIsOneBit(op: Byte)
    requires IsFlag(op) && !IsSizeCode(op)
    ensures OneBit(Word(LinuxBits(op)))
    ensures RegisterOf(op).Control? ==> Apart(Word(LinuxBits(op)), Word(0x30))
  {
    hide OneBit, Apart, LinuxBits;
    if op < 50 {
      LinuxInputIsOneBit(op);
    } else if op < 70 {
      LinuxLocalIsOneBit(op);
    } else if op < 90 {
      LinuxOutputIsOneBit(op);
    } else {
      LinuxControlIsOneBit(op);
    }
  }

  lemma LinuxFlagHasItsCode(op: Byte)
    requires IsFlag(op) && !IsSizeCode(op)
    ensures LinuxCode(RegisterOf(op), LinuxBits(op)) == op
  {
  }

  lemma LinuxIsRegular()
    ensures Regular(LINUX)
  {
    hide OneBit, Apart, LinuxCode;
    forall op | IsFlag(op) && !IsSizeCode(op)
      ensures OneBit(LINUX.mask(op)) && LinuxCode(RegisterOf(op), LINUX.mask(op).bits) == op
      ensures RegisterOf(op).Control? ==> Apart(LINUX.mask(op), LINUX.csize)
    {
      LinuxFlagIsOneBit(op);
      LinuxFlagHasItsCode(op);
    }
    hide LinuxBits;
    LinuxSizesAreWithin();
  }

  lemma LinuxSizesAreWithin()
    ensures Within(LINUX.mask(CS7), LINUX.csize) && Within(LINUX.mask(CS8), LINUX.csize)
  {
  }
}
