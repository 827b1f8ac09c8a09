/**
 * Types, status-flag masks, addressing-field values and the two flag
 * lookup tables of the CPU record (include/cpu.h).
 */
module CpuDefs {

  /** The signed byte that holds a branch displacement (`i8`). */
  newtype i8 = x: int | -0x80 <= x < 0x80

  /** Reinterprets a fetched byte as a two's-complement displacement, as the `(i8)` cast does. */
  function ToI8(b: bv8): (d: i8)
    ensures (d as int) % 0x100 == b as int
    ensures d < 0 <==> b >= 0x80
  {
    if b < 0x80 then b as int as i8 else (b as int - 0x100) as i8
  }

  /**
   * The 16-bit pattern of a displacement byte widened with its sign, what
   * C's conversion of an `i8` to the width of PC produces.
   */
  function SignExtend(b: bv8): (w: bv16)
  {
    if b < 0x80 then b as bv16 else (b as bv16) | 0xFF00
  }

  /** The widened pattern is the displacement's value modulo 2^16, as C's conversion gives it. */
  lemma SignExtendIsDisplacement(b: bv8)
    ensures SignExtend(b) as int == (ToI8(b) as int) % 0x10000
  {
    if b < 0x80 {
      PositiveWidens(b);
    } else {
      NegativeWidens(b);
    }
  }

  /** A byte below 0x80 widens to its own value. */
  lemma PositiveWidens(b: bv8)
    requires b < 0x80
    ensures SignExtend(b) as int == b as int
  {
  }

  /** A byte from 0x80 up widens with 0xFF in its high byte. */
  lemma NegativeWidens(b: bv8)
    requires b >= 0x80
    ensures SignExtend(b) as int == b as int + 0xFF00
  {
  }

  // Status-register masks, NV-BDIZC from bit 7 down to bit 0.
  const FlagNeg: bv8 := 0x80
  const FlagOvr: bv8 := 0x40
  const FlagIgn: bv8 := 0x20
  const FlagBrk: bv8 := 0x10
  const FlagDec: bv8 := 0x08
  const FlagIre: bv8 := 0x04
  const FlagZer: bv8 := 0x02
  const FlagCar: bv8 := 0x01

  /** The eight masks in the order of their bits, from bit 7 down to bit 0. */
  const FlagOrder: seq<bv8> := [FlagNeg, FlagOvr, FlagIgn, FlagBrk, FlagDec, FlagIre, FlagZer, FlagCar]

  /** The mask at position `i` of `FlagOrder` is bit `7 - i`, so the masks are distinct single bits. */
  lemma FlagMasksAreDistinctBits()
    ensures |FlagOrder| == 8
    ensures forall i | 0 <= i < 8 :: FlagOrder[i] == (1 as bv8) << (7 - i)
    ensures forall i, j | 0 <= i < j < 8 :: FlagOrder[i] & FlagOrder[j] == 0
  {
  }

  /** The values of the `bbb` addressing field of an opcode (`ADDR`). */
  datatype Addr = XInd | Zpg | Imm | Abs | IndY | ZpgX | AbsY | AbsX

  /** The enumerator value of each addressing mode. */
  function AddrCode(a: Addr): (c: bv8)
    ensures c < 8
  {
    match a
    case XInd => 0
    case Zpg => 1
    case Imm => 2
    case Abs => 3
    case IndY => 4
    case ZpgX => 5
    case AbsY => 6
    case AbsX => 7
  }

  /** The addressing mode an enumerator value stands for; the inverse of `AddrCode`. */
  function AddrOf(c: bv8): (a: Addr)
    requires c < 8
    ensures AddrCode(a) == c
  {
    if c == 0 then XInd
    else if c == 1 then Zpg
    else if c == 2 then Imm
    else if c == 3 then Abs
    else if c == 4 then IndY
    else if c == 5 then ZpgX
    else if c == 6 then AbsY
    else AbsX
  }

  /** Every mode has its own value: decoding the value of a mode gives the mode back. */
  lemma AddrCodeRoundTrip(a: Addr)
    ensures AddrOf(AddrCode(a)) == a
  {
  }

  /** The `bbb` field, bits 4..2 of an opcode. */
  function AddressingField(ir: bv8): (bbb: bv8)
    ensures bbb < 8
  {
    (ir & 0x1C) >> 2
  }

  /** LDA # (0xA9) decodes to the immediate mode and LDA abs (0xAD) to the absolute mode. */
  lemma LdaOpcodesDecode()
    ensures AddrOf(AddressingField(0xA9)) == Imm
    ensures AddrOf(AddressingField(0xAD)) == Abs
  {
  }

  /** The index into both flag tables: the two top bits of an opcode, as a table position. */
  function FlagTableIndex(ir: bv8): (i: nat)
    ensures i < 4
  {
    if ir < 0x40 then 0 else if ir < 0x80 then 1 else if ir < 0xC0 then 2 else 3
  }

  /** The position is the one the source computes, `(ir & 0xC0) >> 6`, so both lookups stay in bounds. */
  lemma FlagTableIndexIsTopBits(ir: bv8)
    ensures FlagTableIndex(ir) as bv8 == (ir & 0xC0) >> 6
  {
  }

  const BranchFlagByIndex: seq<bv8> := [FlagNeg, FlagOvr, FlagCar, FlagZer]
  const InstructionFlagByIndex: seq<bv8> := [FlagCar, FlagIre, FlagOvr, FlagDec]

  /** The flag a branch opcode tests: the entry of `branch_flag_by_index` for its two top bits. */
  function BranchFlag(ir: bv8): bv8 {
    BranchFlagByIndex[FlagTableIndex(ir)]
  }

  /** The flag a set/clear opcode changes: the entry of `instruction_flag_by_index` for its two top bits. */
  function InstructionFlag(ir: bv8): bv8 {
    InstructionFlagByIndex[FlagTableIndex(ir)]
  }

  /** The branch table maps top bits 00, 01, 10, 11 to NEG, OVR, CAR, ZER. */
  lemma BranchFlagTable(ir: bv8)
    ensures ir < 0x40 ==> BranchFlag(ir) == FlagNeg
    ensures 0x40 <= ir < 0x80 ==> BranchFlag(ir) == FlagOvr
    ensures 0x80 <= ir < 0xC0 ==> BranchFlag(ir) == FlagCar
    ensures 0xC0 <= ir ==> BranchFlag(ir) == FlagZer
  {
  }

  /** The set/clear table maps top bits 00, 01, 10, 11 to CAR, IRE, OVR, DEC. */
  lemma InstructionFlagTable(ir: bv8)
    ensures ir < 0x40 ==> InstructionFlag(ir) == FlagCar
    ensures 0x40 <= ir < 0x80 ==> InstructionFlag(ir) == FlagIre
    ensures 0x80 <= ir < 0xC0 ==> InstructionFlag(ir) == FlagOvr
    ensures 0xC0 <= ir ==> InstructionFlag(ir) == FlagDec
  {
  }
}
