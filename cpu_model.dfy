/**
 * The cycle-stepped engine of src/cpu.c as functions on values. A machine
 * is the CPU record together with the memory its bus reaches, and one call
 * of `CPU_emulate` is one application of `Emulate`.
 */
module CpuModel {
  import opened CpuDefs
  import opened MemoryMap

  /** The fields of the CPU record that the engine reads or writes. */
  datatype CpuState = CpuState(
    A: bv8, X: bv8, Y: bv8, IR: bv8, P: bv8, PC: bv16, SP: bv8,
    cycle: bv8, isRunning: bool, instructionCount: bv32,
    offset: bv8, resetDelay: bv8, compareOperand: bv8,
    accessAddress: bv16, oldPc: bv16, bbb: bv8)

  datatype Machine = Machine(cpu: CpuState, mem: Mem)

  /**
   * The two callbacks `CPU_reset` stores in the record, `read_fn` and
   * `write_fn`: what a read at an address returns and what a write makes of
   * the memory.
   */
  datatype Bus = Bus(read: (Mem, bv16) -> bv8, write: (Mem, bv16, bv8) -> Mem)

  // ---------------------------------------------------------------------
  // Flag computations

  /** P after `CPU_set_NZ`. */
  function SetNZ(p: bv8, result: bv8): bv8 {
    ((p & !(FlagNeg | FlagZer)) | (FlagNeg & result)) | (if result == 0 then FlagZer else 0)
  }

  /** Z tells whether the result is zero, N is the result's sign bit, and the other six flags are kept. */
  lemma SetNZFlags(p: bv8, result: bv8)
    ensures SetNZ(p, result) & FlagZer != 0 <==> result == 0
    ensures SetNZ(p, result) & FlagNeg != 0 <==> result >= 0x80
    ensures SetNZ(p, result) & !(FlagNeg | FlagZer) == p & !(FlagNeg | FlagZer)
  {
  }

  /** P after `_CPU_CMP_logic`. */
  function CompareLogic(p: bv8, register: bv8, operand: bv8): bv8 {
    (p & !(FlagZer | FlagNeg | FlagCar))
      | ((if register - operand == 0 then FlagZer else 0) | (if register >= operand then FlagCar else 0) | ((register - operand) & FlagNeg))
  }

  /**
   * C for an unsigned `register >= operand`, Z for equality, N the sign bit
   * of the difference wrapped to 8 bits; the other five flags are kept.
   */
  lemma CompareLogicFlags(p: bv8, register: bv8, operand: bv8)
    ensures CompareLogic(p, register, operand) & FlagCar != 0 <==> register >= operand
    ensures CompareLogic(p, register, operand) & FlagZer != 0 <==> register == operand
    ensures CompareLogic(p, register, operand) & FlagNeg != 0 <==> ToI8(register - operand) < 0
    ensures CompareLogic(p, register, operand) & !(FlagNeg | FlagZer | FlagCar) == p & !(FlagNeg | FlagZer | FlagCar)
  {
  }

  // ---------------------------------------------------------------------
  // Instruction handlers; each maps the state of one call to the next

  /** `PC + offset` of C: the signed displacement is widened to 16 bits and added with wrap-around. */
  function AddOffset(pc: bv16, offset: bv8): bv16 {
    pc + SignExtend(offset)
  }

  /** The branch test of `_CPU_branch_logic` as written: the table flag, exclusive-or bit 6 of the opcode. */
  predicate BranchTaken(p: bv8, ir: bv8) {
    (p & BranchFlag(ir) != 0) != (ir & 0x40 != 0)
  }

  /** The page of an address, its high byte: `a & 0xFF00`. */
  function Page(a: bv16): bv16 {
    a & 0xFF00
  }

  /** `(low & 0xFF) + (page & 0xFF00)`: the low byte of one address added to the page of another. */
  function PageJoin(low: bv16, page: bv16): bv16 {
    (low & 0xFF) + Page(page)
  }

  function BranchLogic(bus: Bus, s: CpuState, m: Mem): CpuState {
    if s.cycle == 1 then
      s.(offset := bus.read(m, s.PC), PC := s.PC + 1, oldPc := s.PC + 1, cycle := s.cycle + 1)
    else if s.cycle == 2 then
      if BranchTaken(s.P, s.IR) then
        var pc := PageJoin(AddOffset(s.PC, s.offset), s.oldPc);
        s.(PC := pc, cycle := if Page(pc) != Page(s.oldPc) then s.cycle + 1 else 0)
      else
        s.(cycle := 0)
    else if s.cycle == 3 then
      s.(PC := PageJoin(s.PC, AddOffset(s.PC, s.offset)), cycle := 0)
    else
      s
  }

  /** Bit 5 of a flag opcode: set for SEC, SEI, SED and 0xB8, clear for CLC, CLI and CLD. */
  predicate SetsFlag(ir: bv8) {
    ir & 0x20 != 0
  }

  /** P after `_CPU_flags_logic`: the table flag is cleared, then set again when bit 5 of the opcode is 1. */
  function FlagsResult(p: bv8, ir: bv8): bv8 {
    var f := InstructionFlag(ir);
    (p & !f) | (if SetsFlag(ir) then f else 0)
  }

  function FlagsLogic(s: CpuState): CpuState {
    s.(P := FlagsResult(s.P, s.IR), cycle := 0)
  }

  /** The low and the high address byte that `_CPU_addressing_ABS` and its inlined copies fetch. */
  function AddressingAbs(bus: Bus, s: CpuState, m: Mem): CpuState {
    if s.cycle == 1 then
      s.(accessAddress := bus.read(m, s.PC) as bv16, PC := s.PC + 1, cycle := s.cycle + 1)
    else if s.cycle == 2 then
      s.(accessAddress := OrHighByte(s.accessAddress, bus.read(m, s.PC)), PC := s.PC + 1, cycle := s.cycle + 1)
    else
      s
  }

  function Tax(s: CpuState): CpuState {
    s.(X := s.A, P := SetNZ(s.P, s.A), cycle := 0)
  }

  function Txa(s: CpuState): CpuState {
    s.(A := s.X, P := SetNZ(s.P, s.X), cycle := 0)
  }

  function Tay(s: CpuState): CpuState {
    s.(Y := s.A, P := SetNZ(s.P, s.A), cycle := 0)
  }

  function Tya(s: CpuState): CpuState {
    s.(A := s.Y, P := SetNZ(s.P, s.Y), cycle := 0)
  }

  function Lda(bus: Bus, s: CpuState, m: Mem): CpuState {
    if s.bbb == AddrCode(Imm) then
      var a := bus.read(m, s.PC);
      s.(A := a, PC := s.PC + 1, P := SetNZ(s.P, a), cycle := 0)
    else if s.bbb == AddrCode(Abs) then
      if s.cycle == 1 || s.cycle == 2 then AddressingAbs(bus, s, m)
      else if s.cycle == 3 then s.(A := bus.read(m, s.accessAddress), cycle := 0)
      else s
    else
      s
  }

  function StaAbs(bus: Bus, s: CpuState, m: Mem): Machine {
    if s.cycle == 1 || s.cycle == 2 then Machine(AddressingAbs(bus, s, m), m)
    else if s.cycle == 3 then Machine(s.(cycle := 0), bus.write(m, s.accessAddress, s.A))
    else Machine(s, m)
  }

  function CmpImm(bus: Bus, s: CpuState, m: Mem): CpuState {
    if s.cycle == 1 then
      var operand := bus.read(m, s.PC);
      s.(compareOperand := operand, PC := s.PC + 1, P := CompareLogic(s.P, s.A, operand), cycle := 0)
    else
      s
  }

  function JmpAbs(bus: Bus, s: CpuState, m: Mem): CpuState {
    if s.cycle == 1 || s.cycle == 2 then AddressingAbs(bus, s, m)
    else if s.cycle == 3 then s.(PC := s.accessAddress, cycle := 0)
    else s
  }

  // ---------------------------------------------------------------------
  // Reset, fetch, dispatch

  /** The record after `CPU_reset`: all zero except PC, P, the reset countdown and the running flag. */
  function ResetState(): (s: CpuState)
    ensures s.P == FlagIgn && s.SP == 0 && s.PC == 0xFFFC && s.resetDelay == 7 && s.isRunning
  {
    CpuState(0, 0, 0, 0, FlagIgn, 0xFFFC, 0, 0, true, 0, 0, 7, 0, 0, 0, 0)
  }

  predicate IsBranchOpcode(ir: bv8) {
    ir == 0x10 || ir == 0x30 || ir == 0x50 || ir == 0x70 || ir == 0x90 || ir == 0xB0 || ir == 0xD0 || ir == 0xF0
  }

  predicate IsFlagOpcode(ir: bv8) {
    ir == 0x18 || ir == 0x38 || ir == 0x58 || ir == 0x78 || ir == 0xB8 || ir == 0xD8 || ir == 0xF8
  }

  /** The opcodes the dispatch switch has a case for. */
  predicate IsDispatched(ir: bv8) {
    ir == 0xA9 || ir == 0xAD || ir == 0x8D || ir == 0xAA || ir == 0xC9 || ir == 0x4C
      || IsBranchOpcode(ir) || IsFlagOpcode(ir) || ir == 0x02 || ir == 0x00
  }

  /** The dispatch switch, for a state whose `bbb` has just been decoded. */
  function Dispatch(bus: Bus, s: CpuState, m: Mem): Machine {
    if s.IR == 0xA9 || s.IR == 0xAD then Machine(Lda(bus, s, m), m)
    else if s.IR == 0x8D then StaAbs(bus, s, m)
    else if s.IR == 0xAA then Machine(Tax(s), m)
    else if s.IR == 0xC9 then Machine(CmpImm(bus, s, m), m)
    else if s.IR == 0x4C then Machine(JmpAbs(bus, s, m), m)
    else if IsBranchOpcode(s.IR) then Machine(BranchLogic(bus, s, m), m)
    else if IsFlagOpcode(s.IR) then Machine(FlagsLogic(s), m)
    else if s.IR == 0x02 then Machine(s.(cycle := 0), m)
    else Machine(s.(isRunning := false), m)
  }

  /** Between instructions: the reset countdown is over and the next call fetches an opcode. */
  predicate Ready(s: CpuState) {
    s.resetDelay == 0xFF && s.cycle == 0
  }

  /** `w | hi << 8`: a byte ored into the high half of a 16-bit value. */
  function OrHighByte(w: bv16, hi: bv8): bv16 {
    w | ((hi as bv16) << 8)
  }

  /** The address formed from a low and a high byte, `lo | hi << 8`. */
  function Word(lo: bv8, hi: bv8): bv16 {
    OrHighByte(lo as bv16, hi)
  }

  /** The reset vector the countdown loads, from 0xFFFC (low) and 0xFFFD (high). */
  function ResetVector(bus: Bus, m: Mem): bv16 {
    Word(bus.read(m, 0xFFFC), bus.read(m, 0xFFFD))
  }

  /** The opcode fetch of a call with `cycle == 0`. */
  function Fetch(bus: Bus, s: CpuState, m: Mem): CpuState {
    s.(IR := bus.read(m, s.PC), PC := s.PC + 1, cycle := s.cycle + 1, instructionCount := s.instructionCount + 1)
  }

  /** One call of `CPU_emulate`. */
  function Emulate(bus: Bus, mc: Machine): Machine {
    var s := mc.cpu;
    var m := mc.mem;
    if s.resetDelay == 1 then
      Machine(s.(PC := bus.read(m, 0xFFFC) as bv16, resetDelay := s.resetDelay - 1), m)
    else if s.resetDelay == 0 then
      Machine(s.(PC := OrHighByte(s.PC, bus.read(m, 0xFFFD)), resetDelay := 0xFF, cycle := 0), m)
    else if s.resetDelay != 0xFF then
      Machine(s.(resetDelay := s.resetDelay - 1), m)
    else if s.cycle == 0 then
      Machine(Fetch(bus, s, m), m)
    else
      Dispatch(bus, s.(bbb := AddressingField(s.IR)), m)
  }

  /** `n` consecutive calls. */
  function Run(bus: Bus, mc: Machine, n: nat): Machine
    decreases n
  {
    if n == 0 then mc else Run(bus, Emulate(bus, mc), n - 1)
  }
}
