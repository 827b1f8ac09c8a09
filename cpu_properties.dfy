/**
 * What calls of `CPU_emulate` do, for any bus: the reset countdown, the
 * opcode fetch and the call-by-call effect of every dispatched instruction.
 * A `...Call` lemma describes one call; an `...Instruction` lemma composes
 * the calls of a whole instruction, from its fetch until `cycle` is 0 again.
 */
module CpuProperties {
  import opened CpuDefs
  import opened MemoryMap
  import opened CpuModel

  // ---------------------------------------------------------------------
  // Sequences of calls

  /** Running `a` calls and then `b` more is running `a + b` calls. */
  lemma {:induction false} RunAdd(bus: Bus, mc: Machine, a: nat, b: nat)
    ensures Run(bus, mc, a + b) == Run(bus, Run(bus, mc, a), b)
    decreases a
  {
    if a > 0 {
      RunAdd(bus, Emulate(bus, mc), a - 1, b);
    }
  }

  /** A call that turns `mc` into `next` is the first of the calls run from `mc`. */
  lemma RunStep(bus: Bus, mc: Machine, next: Machine, n: nat)
    requires Emulate(bus, mc) == next
    ensures Run(bus, mc, n + 1) == Run(bus, next, n)
  {
  }

  // ---------------------------------------------------------------------
  // Reset

  /** A call while the countdown is between 2 and 0xFE only decrements it. */
  lemma CountdownCall(bus: Bus, s: CpuState, m: Mem)
    requires 2 <= s.resetDelay < 0xFF
    ensures Emulate(bus, Machine(s, m)) == Machine(s.(resetDelay := s.resetDelay - 1), m)
  {
  }

  /** At countdown 1 the call replaces PC by the byte at 0xFFFC. */
  lemma VectorLowCall(bus: Bus, s: CpuState, m: Mem)
    requires s.resetDelay == 1
    ensures Emulate(bus, Machine(s, m)) ==
      Machine(s.(PC := bus.read(m, 0xFFFC) as bv16, resetDelay := 0), m)
  {
  }

  /** At countdown 0 the call ors in the byte at 0xFFFD as the high byte and ends the countdown. */
  lemma VectorHighCall(bus: Bus, s: CpuState, m: Mem)
    requires s.resetDelay == 0
    ensures Emulate(bus, Machine(s, m)) ==
      Machine(s.(PC := OrHighByte(s.PC, bus.read(m, 0xFFFD)), resetDelay := 0xFF, cycle := 0), m)
  {
  }

  /** From a countdown of 7, six calls bring it down to 1 and change nothing else. */
  lemma CountdownToOne(bus: Bus, s: CpuState, m: Mem)
    requires s.resetDelay == 7
    ensures Run(bus, Machine(s, m), 6) == Machine(s.(resetDelay := 1), m)
  {
    CountdownCall(bus, s, m);
    RunStep(bus, Machine(s, m), Machine(s.(resetDelay := 6), m), 5);
    CountdownCall(bus, s.(resetDelay := 6), m);
    RunStep(bus, Machine(s.(resetDelay := 6), m), Machine(s.(resetDelay := 5), m), 4);
    CountdownCall(bus, s.(resetDelay := 5), m);
    RunStep(bus, Machine(s.(resetDelay := 5), m), Machine(s.(resetDelay := 4), m), 3);
    CountdownThreeToOne(bus, s.(resetDelay := 4), m);
  }

  /** The last three decrements, from 4 down to 1. */
  lemma CountdownThreeToOne(bus: Bus, s: CpuState, m: Mem)
    requires s.resetDelay == 4
    ensures Run(bus, Machine(s, m), 3) == Machine(s.(resetDelay := 1), m)
  {
    CountdownCall(bus, s, m);
    RunStep(bus, Machine(s, m), Machine(s.(resetDelay := 3), m), 2);
    CountdownCall(bus, s.(resetDelay := 3), m);
    RunStep(bus, Machine(s.(resetDelay := 3), m), Machine(s.(resetDelay := 2), m), 1);
    CountdownCall(bus, s.(resetDelay := 2), m);
    RunStep(bus, Machine(s.(resetDelay := 2), m), Machine(s.(resetDelay := 1), m), 0);
  }

  /** The two calls at countdown 1 and 0 assemble the reset vector in PC and make the engine ready. */
  lemma VectorLoad(bus: Bus, s: CpuState, m: Mem)
    requires s.resetDelay == 1
    ensures Run(bus, Machine(s, m), 2) == Machine(s.(PC := ResetVector(bus, m), resetDelay := 0xFF, cycle := 0), m)
  {
    var s1 := s.(PC := bus.read(m, 0xFFFC) as bv16, resetDelay := 0);
    VectorLowCall(bus, s, m);
    VectorHighCall(bus, s1, m);
    RunStep(bus, Machine(s, m), Machine(s1, m), 1);
    RunStep(bus, Machine(s1, m), Machine(s1.(PC := OrHighByte(s1.PC, bus.read(m, 0xFFFD)), resetDelay := 0xFF, cycle := 0), m), 0);
  }

  /**
   * From a countdown of 7, eight calls load the reset vector into PC and
   * leave the engine ready to fetch, with every other field unchanged.
   */
  lemma ResetSequence(bus: Bus, s: CpuState, m: Mem)
    requires s.resetDelay == 7
    ensures Run(bus, Machine(s, m), 8) == Machine(s.(PC := ResetVector(bus, m), resetDelay := 0xFF, cycle := 0), m)
  {
    CountdownToOne(bus, s, m);
    VectorLoad(bus, s.(resetDelay := 1), m);
    RunAdd(bus, Machine(s, m), 6, 2);
  }

  /** A call during the countdown neither fetches nor counts, and moves the countdown on. */
  lemma CountdownKeepsOpcode(bus: Bus, mc: Machine)
    requires mc.cpu.resetDelay != 0xFF
    ensures Emulate(bus, mc).cpu.IR == mc.cpu.IR
    ensures Emulate(bus, mc).cpu.instructionCount == mc.cpu.instructionCount
    ensures Emulate(bus, mc).cpu.resetDelay == if mc.cpu.resetDelay == 0 then 0xFF else mc.cpu.resetDelay - 1
  {
  }

  /**
   * While a countdown of `d` runs out, that is for the first `d + 1` calls,
   * no opcode is fetched and no instruction is counted.
   */
  lemma {:induction false} CountdownFetchesNothing(bus: Bus, mc: Machine, k: nat)
    requires mc.cpu.resetDelay != 0xFF && k <= mc.cpu.resetDelay as int + 1
    ensures Run(bus, mc, k).cpu.IR == mc.cpu.IR
    ensures Run(bus, mc, k).cpu.instructionCount == mc.cpu.instructionCount
    decreases k
  {
    if k > 0 {
      CountdownKeepsOpcode(bus, mc);
      if mc.cpu.resetDelay != 0 {
        assert Emulate(bus, mc).cpu.resetDelay as int == mc.cpu.resetDelay as int - 1;
        CountdownFetchesNothing(bus, Emulate(bus, mc), k - 1);
      }
    }
  }

  /** None of the first eight calls after `CPU_reset` fetches an opcode or counts an instruction. */
  lemma ResetFetchesNothing(bus: Bus, m: Mem, k: nat)
    requires k <= 8
    ensures Run(bus, Machine(ResetState(), m), k).cpu.IR == 0
    ensures Run(bus, Machine(ResetState(), m), k).cpu.instructionCount == 0
  {
    CountdownFetchesNothing(bus, Machine(ResetState(), m), k);
  }

  // ---------------------------------------------------------------------
  // Fetch

  /** The state just after the fetch of `opcode`. */
  function Fetched(s: CpuState, opcode: bv8): CpuState {
    s.(IR := opcode, PC := s.PC + 1, cycle := 1, instructionCount := s.instructionCount + 1)
  }

  /**
   * A call between instructions latches the opcode at PC, advances PC,
   * sets `cycle` to 1 and counts the instruction, and changes nothing else.
   */
  lemma FetchCall(bus: Bus, s: CpuState, m: Mem)
    requires Ready(s)
    ensures Emulate(bus, Machine(s, m)) == Machine(Fetched(s, bus.read(m, s.PC)), m)
  {
  }

  /** The ninth call after `CPU_reset` fetches the opcode at the reset vector and counts it. */
  lemma FirstFetchAfterReset(bus: Bus, m: Mem)
    ensures var v := ResetVector(bus, m);
      Run(bus, Machine(ResetState(), m), 9) == Machine(Fetched(ResetState().(PC := v, resetDelay := 0xFF), bus.read(m, v)), m)
  {
    var s8 := ResetState().(PC := ResetVector(bus, m), resetDelay := 0xFF, cycle := 0);
    ResetSequence(bus, ResetState(), m);
    FetchCall(bus, s8, m);
    RunAdd(bus, Machine(ResetState(), m), 8, 1);
    assert s8 == ResetState().(PC := ResetVector(bus, m), resetDelay := 0xFF);
  }

  /** `s` is inside instruction `opcode`, about to make the call for which `cycle == c`. */
  predicate Executing(s: CpuState, opcode: bv8, c: bv8) {
    s.resetDelay == 0xFF && s.IR == opcode && s.cycle == c
  }

  /** The state an instruction that began in `s` leaves behind in the fields every instruction changes. */
  function Retired(s: CpuState, opcode: bv8): CpuState {
    s.(IR := opcode, instructionCount := s.instructionCount + 1, bbb := AddressingField(opcode))
  }

  // ---------------------------------------------------------------------
  // Instructions that end on the call after the fetch

  /** The call after the fetch of LDA # loads the byte at PC into A, sets N/Z from it and moves past it. */
  lemma LdaImmediateCall(bus: Bus, t: CpuState, m: Mem)
    requires Executing(t, 0xA9, 1)
    ensures var v := bus.read(m, t.PC);
      Emulate(bus, Machine(t, m)) == Machine(t.(bbb := AddrCode(Imm), A := v, P := SetNZ(t.P, v), PC := t.PC + 1, cycle := 0), m)
  {
    LdaOpcodesDecode();
  }

  /** The state LDA # leaves, restated from the fetched state in terms of the state before the fetch. */
  lemma LdaImmediateRetires(bus: Bus, s: CpuState, m: Mem)
    requires s.cycle == 0
    ensures var t := Fetched(s, 0xA9);
      var v := bus.read(m, t.PC);
      t.(bbb := AddrCode(Imm), A := v, P := SetNZ(t.P, v), PC := t.PC + 1, cycle := 0) ==
        Retired(s, 0xA9).(A := bus.read(m, s.PC + 1), P := SetNZ(s.P, bus.read(m, s.PC + 1)), PC := s.PC + 2)
  {
    var t := Fetched(s, 0xA9);
    LdaOpcodesDecode();
    assert t.PC == s.PC + 1;
    assert t.PC + 1 == s.PC + 2;
  }

  /** LDA # ends after the fetch and one call, with A the operand byte, N/Z set from it and PC past both bytes. */
  lemma LdaImmediateInstruction(bus: Bus, s: CpuState, m: Mem)
    requires Ready(s) && bus.read(m, s.PC) == 0xA9
    ensures var v := bus.read(m, s.PC + 1);
      Run(bus, Machine(s, m), 2) == Machine(Retired(s, 0xA9).(A := v, P := SetNZ(s.P, v), PC := s.PC + 2), m)
  {
    var t := Fetched(s, 0xA9);
    var v := bus.read(m, t.PC);
    var u := t.(bbb := AddrCode(Imm), A := v, P := SetNZ(t.P, v), PC := t.PC + 1, cycle := 0);
    FetchCall(bus, s, m);
    LdaImmediateCall(bus, t, m);
    RunStep(bus, Machine(s, m), Machine(t, m), 1);
    RunStep(bus, Machine(t, m), Machine(u, m), 0);
    LdaImmediateRetires(bus, s, m);
  }

  /** The call after the fetch of TAX copies A into X and sets N/Z from it; PC stays. */
  lemma TaxCall(bus: Bus, t: CpuState, m: Mem)
    requires Executing(t, 0xAA, 1)
    ensures Emulate(bus, Machine(t, m)) ==
      Machine(t.(bbb := AddressingField(0xAA), X := t.A, P := SetNZ(t.P, t.A), cycle := 0), m)
  {
  }

  /** TAX ends after the fetch and one call, with X a copy of A, N/Z set from it and PC past the opcode. */
  lemma TaxInstruction(bus: Bus, s: CpuState, m: Mem)
    requires Ready(s) && bus.read(m, s.PC) == 0xAA
    ensures Run(bus, Machine(s, m), 2) == Machine(Retired(s, 0xAA).(X := s.A, P := SetNZ(s.P, s.A), PC := s.PC + 1), m)
  {
    var t := Fetched(s, 0xAA);
    var u := t.(bbb := AddressingField(0xAA), X := t.A, P := SetNZ(t.P, t.A), cycle := 0);
    FetchCall(bus, s, m);
    TaxCall(bus, t, m);
    RunStep(bus, Machine(s, m), Machine(t, m), 1);
    RunStep(bus, Machine(t, m), Machine(u, m), 0);
  }

  /** The call after the fetch of CMP # latches the byte at PC, compares A with it and moves past it. */
  lemma CmpImmediateCall(bus: Bus, t: CpuState, m: Mem)
    requires Executing(t, 0xC9, 1)
    ensures var v := bus.read(m, t.PC);
      Emulate(bus, Machine(t, m)) ==
        Machine(t.(bbb := AddressingField(0xC9), compareOperand := v, P := CompareLogic(t.P, t.A, v), PC := t.PC + 1, cycle := 0), m)
  {
  }

  /** The state CMP # leaves, restated from the fetched state in terms of the state before the fetch. */
  lemma CmpImmediateRetires(bus: Bus, s: CpuState, m: Mem)
    requires s.cycle == 0
    ensures var t := Fetched(s, 0xC9);
      var v := bus.read(m, t.PC);
      t.(bbb := AddressingField(0xC9), compareOperand := v, P := CompareLogic(t.P, t.A, v), PC := t.PC + 1, cycle := 0) ==
        Retired(s, 0xC9).(compareOperand := bus.read(m, s.PC + 1), P := CompareLogic(s.P, s.A, bus.read(m, s.PC + 1)), PC := s.PC + 2)
  {
    var t := Fetched(s, 0xC9);
    assert t.PC == s.PC + 1;
    assert t.PC + 1 == s.PC + 2;
  }

  /** CMP # ends after the fetch and one call; only P and the latched operand change, and A is kept. */
  lemma CmpImmediateInstruction(bus: Bus, s: CpuState, m: Mem)
    requires Ready(s) && bus.read(m, s.PC) == 0xC9
    ensures var v := bus.read(m, s.PC + 1);
      Run(bus, Machine(s, m), 2) ==
        Machine(Retired(s, 0xC9).(compareOperand := v, P := CompareLogic(s.P, s.A, v), PC := s.PC + 2), m)
  {
    var t := Fetched(s, 0xC9);
    var v := bus.read(m, t.PC);
    var u := t.(bbb := AddressingField(0xC9), compareOperand := v, P := CompareLogic(t.P, t.A, v), PC := t.PC + 1, cycle := 0);
    FetchCall(bus, s, m);
    CmpImmediateCall(bus, t, m);
    RunStep(bus, Machine(s, m), Machine(t, m), 1);
    RunStep(bus, Machine(t, m), Machine(u, m), 0);
    CmpImmediateRetires(bus, s, m);
  }

  /** Every set/clear opcode reaches `_CPU_flags_logic`. */
  lemma DispatchFlag(bus: Bus, s: CpuState, m: Mem)
    requires IsFlagOpcode(s.IR)
    ensures Dispatch(bus, s, m) == Machine(FlagsLogic(s), m)
  {
  }

  /** The call after the fetch of a flag opcode rewrites P from the opcode and ends the instruction. */
  lemma FlagCall(bus: Bus, t: CpuState, m: Mem)
    requires t.resetDelay == 0xFF && t.cycle == 1 && IsFlagOpcode(t.IR)
    ensures Emulate(bus, Machine(t, m)) ==
      Machine(t.(bbb := AddressingField(t.IR), P := FlagsResult(t.P, t.IR), cycle := 0), m)
  {
    DispatchFlag(bus, t.(bbb := AddressingField(t.IR)), m);
  }

  /**
   * A flag opcode ends after the fetch and one call with PC just past the
   * opcode and P rewritten by the flag rule, which `FlagsResultChangesOneFlag`
   * describes.
   */
  lemma FlagInstruction(bus: Bus, s: CpuState, m: Mem)
    requires Ready(s) && IsFlagOpcode(bus.read(m, s.PC))
    ensures var opcode := bus.read(m, s.PC);
      Run(bus, Machine(s, m), 2) ==
        Machine(Retired(s, opcode).(P := FlagsResult(s.P, opcode), PC := s.PC + 1), m)
  {
    var t := Fetched(s, bus.read(m, s.PC));
    var u := t.(bbb := AddressingField(t.IR), P := FlagsResult(t.P, t.IR), cycle := 0);
    FetchCall(bus, s, m);
    FlagCall(bus, t, m);
    RunStep(bus, Machine(s, m), Machine(t, m), 1);
    RunStep(bus, Machine(t, m), Machine(u, m), 0);
  }

  /** A flag opcode changes its table flag and no other bit of P. */
  lemma FlagsResultChangesOneFlag(p: bv8, ir: bv8)
    ensures FlagsResult(p, ir) & !InstructionFlag(ir) == p & !InstructionFlag(ir)
    ensures FlagsResult(p, ir) & InstructionFlag(ir) != 0 <==> SetsFlag(ir)
  {
  }

  /**
   * The flag each of the seven opcodes changes and whether it sets it:
   * CLC, CLI and CLD clear C, I and D; SEC, SEI and SED set them; and
   * 0xB8, labelled CLV, sets V.
   */
  lemma FlagOpcodeTable()
    ensures InstructionFlag(0x18) == FlagCar && !SetsFlag(0x18)
    ensures InstructionFlag(0x38) == FlagCar && SetsFlag(0x38)
    ensures InstructionFlag(0x58) == FlagIre && !SetsFlag(0x58)
    ensures InstructionFlag(0x78) == FlagIre && SetsFlag(0x78)
    ensures InstructionFlag(0xB8) == FlagOvr && SetsFlag(0xB8)
    ensures InstructionFlag(0xD8) == FlagDec && !SetsFlag(0xD8)
    ensures InstructionFlag(0xF8) == FlagDec && SetsFlag(0xF8)
  {
  }

  /** The call after the fetch of the debug-print opcode only ends the instruction. */
  lemma DebugPrintCall(bus: Bus, t: CpuState, m: Mem)
    requires Executing(t, 0x02, 1)
    ensures Emulate(bus, Machine(t, m)) == Machine(t.(bbb := AddressingField(0x02), cycle := 0), m)
  {
  }

  /** The debug-print opcode ends after the fetch and one call and changes no register. */
  lemma DebugPrintInstruction(bus: Bus, s: CpuState, m: Mem)
    requires Ready(s) && bus.read(m, s.PC) == 0x02
    ensures Run(bus, Machine(s, m), 2) == Machine(Retired(s, 0x02).(PC := s.PC + 1), m)
  {
    var t := Fetched(s, 0x02);
    FetchCall(bus, s, m);
    DebugPrintCall(bus, t, m);
    RunStep(bus, Machine(s, m), Machine(t, m), 1);
    RunStep(bus, Machine(t, m), Machine(t.(bbb := AddressingField(0x02), cycle := 0), m), 0);
  }

  // ---------------------------------------------------------------------
  // Halting

  /** BRK and every opcode without a case clear the running flag and leave all registers, P and `cycle` as they are. */
  lemma HaltCall(bus: Bus, s: CpuState, m: Mem)
    requires s.resetDelay == 0xFF && s.cycle != 0 && (s.IR == 0x00 || !IsDispatched(s.IR))
    ensures Emulate(bus, Machine(s, m)) == Machine(s.(isRunning := false, bbb := AddressingField(s.IR)), m)
  {
  }

  /** Once halted, every further call leaves the machine as the first halting call left it. */
  lemma {:induction false} HaltIsFinal(bus: Bus, s: CpuState, m: Mem, n: nat)
    requires s.resetDelay == 0xFF && s.cycle != 0 && (s.IR == 0x00 || !IsDispatched(s.IR))
    ensures Run(bus, Machine(s, m), n + 1) == Machine(s.(isRunning := false, bbb := AddressingField(s.IR)), m)
    decreases n
  {
    var s1 := s.(isRunning := false, bbb := AddressingField(s.IR));
    HaltCall(bus, s, m);
    RunStep(bus, Machine(s, m), Machine(s1, m), n);
    if n > 0 {
      HaltIsFinal(bus, s1, m, n - 1);
      assert s1.(isRunning := false, bbb := AddressingField(s1.IR)) == s1;
    }
  }

  /** BRK: the call after its fetch stops the engine; PC, the registers and `cycle == 1` stay as the fetch left them. */
  lemma BrkInstruction(bus: Bus, s: CpuState, m: Mem)
    requires Ready(s) && bus.read(m, s.PC) == 0x00
    ensures Run(bus, Machine(s, m), 2) == Machine(Fetched(s, 0x00).(isRunning := false, bbb := AddressingField(0x00)), m)
  {
    var t := Fetched(s, 0x00);
    FetchCall(bus, s, m);
    HaltCall(bus, t, m);
    RunStep(bus, Machine(s, m), Machine(t, m), 1);
    RunStep(bus, Machine(t, m), Machine(t.(isRunning := false, bbb := AddressingField(0x00)), m), 0);
  }

  /** TXA, TAY and TYA have no case in the dispatch switch, so a call on their opcodes halts and copies nothing. */
  lemma UndispatchedTransfersHalt(bus: Bus, s: CpuState, m: Mem)
    requires s.resetDelay == 0xFF && s.cycle != 0 && (s.IR == 0x8A || s.IR == 0xA8 || s.IR == 0x98)
    ensures Emulate(bus, Machine(s, m)) == Machine(s.(isRunning := false, bbb := AddressingField(s.IR)), m)
  {
    HaltCall(bus, s, m);
  }

  // ---------------------------------------------------------------------
  // The transfer handlers

  /** TAX: X becomes A; Z is set iff the copied value is 0 and N iff its bit 7 is set; the other flags and every other field are kept, and `cycle` is 0. */
  lemma TaxEffect(s: CpuState)
    ensures Tax(s).X == s.A && Tax(s).cycle == 0
    ensures Tax(s).P & FlagZer != 0 <==> s.A == 0
    ensures Tax(s).P & FlagNeg != 0 <==> s.A >= 0x80
    ensures Tax(s).P & !(FlagNeg | FlagZer) == s.P & !(FlagNeg | FlagZer)
    ensures Tax(s).(X := s.X, P := s.P, cycle := s.cycle) == s
  {
    SetNZFlags(s.P, s.A);
  }

  /** TXA: A becomes X; Z is set iff the copied value is 0 and N iff its bit 7 is set; the other flags and every other field are kept, and `cycle` is 0. */
  lemma TxaEffect(s: CpuState)
    ensures Txa(s).A == s.X && Txa(s).cycle == 0
    ensures Txa(s).P & FlagZer != 0 <==> s.X == 0
    ensures Txa(s).P & FlagNeg != 0 <==> s.X >= 0x80
    ensures Txa(s).P & !(FlagNeg | FlagZer) == s.P & !(FlagNeg | FlagZer)
    ensures Txa(s).(A := s.A, P := s.P, cycle := s.cycle) == s
  {
    SetNZFlags(s.P, s.X);
  }

  /** TAY: Y becomes A; Z is set iff the copied value is 0 and N iff its bit 7 is set; the other flags and every other field are kept, and `cycle` is 0. */
  lemma TayEffect(s: CpuState)
    ensures Tay(s).Y == s.A && Tay(s).cycle == 0
    ensures Tay(s).P & FlagZer != 0 <==> s.A == 0
    ensures Tay(s).P & FlagNeg != 0 <==> s.A >= 0x80
    ensures Tay(s).P & !(FlagNeg | FlagZer) == s.P & !(FlagNeg | FlagZer)
    ensures Tay(s).(Y := s.Y, P := s.P, cycle := s.cycle) == s
  {
    SetNZFlags(s.P, s.A);
  }

  /** TYA: A becomes Y; Z is set iff the copied value is 0 and N iff its bit 7 is set; the other flags and every other field are kept, and `cycle` is 0. */
  lemma TyaEffect(s: CpuState)
    ensures Tya(s).A == s.Y && Tya(s).cycle == 0
    ensures Tya(s).P & FlagZer != 0 <==> s.Y == 0
    ensures Tya(s).P & FlagNeg != 0 <==> s.Y >= 0x80
    ensures Tya(s).P & !(FlagNeg | FlagZer) == s.P & !(FlagNeg | FlagZer)
    ensures Tya(s).(A := s.A, P := s.P, cycle := s.cycle) == s
  {
    SetNZFlags(s.P, s.Y);
  }

  // ---------------------------------------------------------------------
  // Absolute addressing

  predicate IsAbsoluteOpcode(opcode: bv8) {
    opcode == 0xAD || opcode == 0x8D || opcode == 0x4C
  }

  /** The first call after the fetch latches the byte at PC as the low address byte. */
  lemma AbsoluteLowCall(bus: Bus, t: CpuState, m: Mem)
    requires t.resetDelay == 0xFF && t.cycle == 1 && IsAbsoluteOpcode(t.IR)
    ensures Emulate(bus, Machine(t, m)) ==
      Machine(t.(bbb := AddressingField(t.IR), accessAddress := bus.read(m, t.PC) as bv16, PC := t.PC + 1, cycle := 2), m)
  {
    LdaOpcodesDecode();
  }

  /** The second call after the fetch ors in the byte at PC as the high address byte. */
  lemma AbsoluteHighCall(bus: Bus, t: CpuState, m: Mem)
    requires t.resetDelay == 0xFF && t.cycle == 2 && IsAbsoluteOpcode(t.IR)
    ensures Emulate(bus, Machine(t, m)) ==
      Machine(t.(bbb := AddressingField(t.IR), accessAddress := OrHighByte(t.accessAddress, bus.read(m, t.PC)),
        PC := t.PC + 1, cycle := 3), m)
  {
    LdaOpcodesDecode();
  }

  /** The low byte of `Word(lo, hi)` is `lo` and its high byte is `hi`. */
  lemma WordBytes(lo: bv8, hi: bv8)
    ensures Word(lo, hi) & 0xFF == lo as bv16
    ensures Word(lo, hi) >> 8 == hi as bv16
  {
  }

  /** The state after the fetch of an absolute instruction and the call that latches the low address byte `lo`. */
  function LowLatched(s: CpuState, opcode: bv8, lo: bv8): CpuState {
    var t := Fetched(s, opcode);
    t.(bbb := AddressingField(t.IR), accessAddress := lo as bv16, PC := t.PC + 1, cycle := 2)
  }

  /** The state of an absolute instruction begun in `s` once both bytes of `address` are latched. */
  function AddressLatched(s: CpuState, opcode: bv8, address: bv16): CpuState {
    Retired(s, opcode).(accessAddress := address, PC := s.PC + 3, cycle := 3)
  }

  /** The state after the two address calls, restated in terms of the state before the fetch. */
  lemma AbsoluteLatchedRetires(s: CpuState, opcode: bv8, lo: bv8, hi: bv8)
    ensures var t1 := LowLatched(s, opcode, lo);
      t1.(bbb := AddressingField(t1.IR), accessAddress := OrHighByte(t1.accessAddress, hi), PC := t1.PC + 1, cycle := 3) ==
        AddressLatched(s, opcode, Word(lo, hi))
  {
    var t1 := LowLatched(s, opcode, lo);
    assert t1.PC + 1 == s.PC + 3;
  }

  /** The fetch of LDA, STA or JMP absolute and the call that latches the low address byte. */
  lemma AbsoluteLowRun(bus: Bus, s: CpuState, m: Mem)
    requires Ready(s) && IsAbsoluteOpcode(bus.read(m, s.PC))
    ensures var opcode := bus.read(m, s.PC);
      Run(bus, Machine(s, m), 2) == Machine(LowLatched(s, opcode, bus.read(m, Fetched(s, opcode).PC)), m)
  {
    var t := Fetched(s, bus.read(m, s.PC));
    var t1 := t.(bbb := AddressingField(t.IR), accessAddress := bus.read(m, t.PC) as bv16, PC := t.PC + 1, cycle := 2);
    FetchCall(bus, s, m);
    AbsoluteLowCall(bus, t, m);
    RunStep(bus, Machine(s, m), Machine(t, m), 1);
    RunStep(bus, Machine(t, m), Machine(t1, m), 0);
  }

  /**
   * After the fetch of LDA, STA or JMP absolute, two calls read the low and
   * then the high address byte at the two addresses after the opcode, leave
   * PC past both and the address in `accessAddress`.
   */
  lemma AbsoluteOperand(bus: Bus, s: CpuState, m: Mem)
    requires Ready(s) && IsAbsoluteOpcode(bus.read(m, s.PC))
    ensures Run(bus, Machine(s, m), 3) ==
      Machine(AddressLatched(s, bus.read(m, s.PC), Word(bus.read(m, s.PC + 1), bus.read(m, s.PC + 2))), m)
  {
    var opcode := bus.read(m, s.PC);
    var lo := bus.read(m, Fetched(s, opcode).PC);
    var t1 := LowLatched(s, opcode, lo);
    var hi := bus.read(m, t1.PC);
    AbsoluteLowRun(bus, s, m);
    AbsoluteHighRun(bus, t1, m);
    RunAdd(bus, Machine(s, m), 2, 1);
    AbsoluteLatchedRetires(s, opcode, lo, hi);
    OperandBytes(bus, s, m, opcode, lo);
  }

  /** The second address call as a run of one call. */
  lemma AbsoluteHighRun(bus: Bus, t: CpuState, m: Mem)
    requires t.resetDelay == 0xFF && t.cycle == 2 && IsAbsoluteOpcode(t.IR)
    ensures Run(bus, Machine(t, m), 1) ==
      Machine(t.(bbb := AddressingField(t.IR), accessAddress := OrHighByte(t.accessAddress, bus.read(m, t.PC)),
        PC := t.PC + 1, cycle := 3), m)
  {
    AbsoluteHighCall(bus, t, m);
  }

  /** The two address calls read the two bytes after the opcode. */
  lemma OperandBytes(bus: Bus, s: CpuState, m: Mem, opcode: bv8, lo: bv8)
    ensures bus.read(m, Fetched(s, opcode).PC) == bus.read(m, s.PC + 1)
    ensures bus.read(m, LowLatched(s, opcode, lo).PC) == bus.read(m, s.PC + 2)
  {
    assert Fetched(s, opcode).PC == s.PC + 1;
    assert LowLatched(s, opcode, lo).PC == s.PC + 2;
  }

  /** The fourth call of STA abs writes A to the latched address and ends the instruction. */
  lemma StaStoreCall(bus: Bus, t: CpuState, m: Mem)
    requires Executing(t, 0x8D, 3)
    ensures Emulate(bus, Machine(t, m)) ==
      Machine(t.(bbb := AddressingField(0x8D), cycle := 0), bus.write(m, t.accessAddress, t.A))
  {
  }

  /** STA abs: four calls; the last writes A to the operand address, and no register or flag changes. */
  lemma StaAbsoluteInstruction(bus: Bus, s: CpuState, m: Mem)
    requires Ready(s) && bus.read(m, s.PC) == 0x8D
    ensures var address := Word(bus.read(m, s.PC + 1), bus.read(m, s.PC + 2));
      Run(bus, Machine(s, m), 4) ==
        Machine(Retired(s, 0x8D).(accessAddress := address, PC := s.PC + 3), bus.write(m, address, s.A))
  {
    var t := AddressLatched(s, 0x8D, Word(bus.read(m, s.PC + 1), bus.read(m, s.PC + 2)));
    AbsoluteOperand(bus, s, m);
    StaStoreCall(bus, t, m);
    RunAdd(bus, Machine(s, m), 3, 1);
    RunStep(bus, Machine(t, m), Machine(t.(bbb := AddressingField(0x8D), cycle := 0), bus.write(m, t.accessAddress, t.A)), 0);
  }

  /** The fourth call of JMP abs moves PC to the latched address and ends the instruction. */
  lemma JmpLoadCall(bus: Bus, t: CpuState, m: Mem)
    requires Executing(t, 0x4C, 3)
    ensures Emulate(bus, Machine(t, m)) == Machine(t.(bbb := AddressingField(0x4C), PC := t.accessAddress, cycle := 0), m)
  {
  }

  /** JMP abs: four calls; the last sets PC to the operand address. */
  lemma JmpAbsoluteInstruction(bus: Bus, s: CpuState, m: Mem)
    requires Ready(s) && bus.read(m, s.PC) == 0x4C
    ensures var address := Word(bus.read(m, s.PC + 1), bus.read(m, s.PC + 2));
      Run(bus, Machine(s, m), 4) == Machine(Retired(s, 0x4C).(accessAddress := address, PC := address), m)
  {
    var t := AddressLatched(s, 0x4C, Word(bus.read(m, s.PC + 1), bus.read(m, s.PC + 2)));
    AbsoluteOperand(bus, s, m);
    JmpLoadCall(bus, t, m);
    RunAdd(bus, Machine(s, m), 3, 1);
    RunStep(bus, Machine(t, m), Machine(t.(bbb := AddressingField(0x4C), PC := t.accessAddress, cycle := 0), m), 0);
  }

  /** The fourth call of LDA abs loads A from the latched address; P is not touched. */
  lemma LdaLoadCall(bus: Bus, t: CpuState, m: Mem)
    requires Executing(t, 0xAD, 3)
    ensures Emulate(bus, Machine(t, m)) ==
      Machine(t.(bbb := AddrCode(Abs), A := bus.read(m, t.accessAddress), cycle := 0), m)
  {
    LdaOpcodesDecode();
  }

  /** LDA abs: four calls; the last loads A from the operand address and, as written, leaves N and Z alone. */
  lemma LdaAbsoluteInstruction(bus: Bus, s: CpuState, m: Mem)
    requires Ready(s) && bus.read(m, s.PC) == 0xAD
    ensures var address := Word(bus.read(m, s.PC + 1), bus.read(m, s.PC + 2));
      Run(bus, Machine(s, m), 4) == Machine(Retired(s, 0xAD).(accessAddress := address, A := bus.read(m, address), PC := s.PC + 3), m)
  {
    var t := AddressLatched(s, 0xAD, Word(bus.read(m, s.PC + 1), bus.read(m, s.PC + 2)));
    AbsoluteOperand(bus, s, m);
    LdaLoadCall(bus, t, m);
    RunAdd(bus, Machine(s, m), 3, 1);
    RunStep(bus, Machine(t, m), Machine(t.(bbb := AddrCode(Abs), A := bus.read(m, t.accessAddress), cycle := 0), m), 0);
    LdaOpcodesDecode();
  }

  // ---------------------------------------------------------------------
  // Relative branches

  /** As written, BPL branches when N is set, like BMI. */
  lemma NegativeBranchesAsWritten(p: bv8)
    ensures BranchTaken(p, 0x10) <==> p & FlagNeg != 0
    ensures BranchTaken(p, 0x30) <==> p & FlagNeg != 0
  {
  }

  /** As written, BVC and BVS both branch when V is clear. */
  lemma OverflowBranchesAsWritten(p: bv8)
    ensures BranchTaken(p, 0x50) <==> p & FlagOvr == 0
    ensures BranchTaken(p, 0x70) <==> p & FlagOvr == 0
  {
  }

  /** As written, BCC branches when C is set, like BCS. */
  lemma CarryBranchesAsWritten(p: bv8)
    ensures BranchTaken(p, 0x90) <==> p & FlagCar != 0
    ensures BranchTaken(p, 0xB0) <==> p & FlagCar != 0
  {
  }

  /** As written, BNE and BEQ both branch when Z is clear. */
  lemma ZeroBranchesAsWritten(p: bv8)
    ensures BranchTaken(p, 0xD0) <==> p & FlagZer == 0
    ensures BranchTaken(p, 0xF0) <==> p & FlagZer == 0
  {
  }

  /**
   * Adding a low byte to a page carries nothing into the page: the sum is
   * `(page & 0xFF00) | (low & 0xFF)` and lies in that page.
   */
  lemma PageJoinStaysInPage(low: bv16, page: bv16)
    ensures PageJoin(low, page) == (page & 0xFF00) | (low & 0xFF)
    ensures Page(PageJoin(low, page)) == Page(page)
  {
  }

  /**
   * The second call after a branch's fetch always ends it: a taken branch
   * keeps the page of `oldPc`, so the page test never asks for the fix-up
   * call of `cycle == 3`.
   */
  lemma BranchPageTestNeverFires(bus: Bus, s: CpuState, m: Mem)
    requires s.cycle == 2
    ensures BranchLogic(bus, s, m).cycle == 0
    ensures BranchLogic(bus, s, m).PC ==
      if BranchTaken(s.P, s.IR) then PageJoin(AddOffset(s.PC, s.offset), s.oldPc) else s.PC
  {
    if BranchTaken(s.P, s.IR) {
      PageJoinStaysInPage(AddOffset(s.PC, s.offset), s.oldPc);
    }
  }

  /** Every branch opcode reaches `_CPU_branch_logic`. */
  lemma DispatchBranch(bus: Bus, s: CpuState, m: Mem)
    requires IsBranchOpcode(s.IR)
    ensures Dispatch(bus, s, m) == Machine(BranchLogic(bus, s, m), m)
  {
  }

  /** The first call after a branch's fetch latches the offset byte and points PC and `oldPc` past it. */
  lemma BranchOffsetCall(bus: Bus, t: CpuState, m: Mem)
    requires t.resetDelay == 0xFF && t.cycle == 1 && IsBranchOpcode(t.IR)
    ensures Emulate(bus, Machine(t, m)) ==
      Machine(t.(bbb := AddressingField(t.IR), offset := bus.read(m, t.PC), PC := t.PC + 1, oldPc := t.PC + 1, cycle := 2), m)
  {
    DispatchBranch(bus, t.(bbb := AddressingField(t.IR)), m);
  }

  /** The second call after the fetch of a taken branch moves PC into the page of `oldPc` and ends the branch. */
  lemma BranchTakenCall(bus: Bus, t: CpuState, m: Mem)
    requires t.resetDelay == 0xFF && t.cycle == 2 && IsBranchOpcode(t.IR) && BranchTaken(t.P, t.IR)
    ensures Emulate(bus, Machine(t, m)) ==
      Machine(t.(bbb := AddressingField(t.IR), cycle := 0, PC := PageJoin(AddOffset(t.PC, t.offset), t.oldPc)), m)
  {
    DispatchBranch(bus, t.(bbb := AddressingField(t.IR)), m);
    BranchPageTestNeverFires(bus, t.(bbb := AddressingField(t.IR)), m);
  }

  /** The second call after the fetch of a branch not taken only ends it. */
  lemma BranchNotTakenCall(bus: Bus, t: CpuState, m: Mem)
    requires t.resetDelay == 0xFF && t.cycle == 2 && IsBranchOpcode(t.IR) && !BranchTaken(t.P, t.IR)
    ensures Emulate(bus, Machine(t, m)) == Machine(t.(bbb := AddressingField(t.IR), cycle := 0), m)
  {
    DispatchBranch(bus, t.(bbb := AddressingField(t.IR)), m);
  }

  /** `BranchTakenCall` as a run of one call. */
  lemma BranchTakenRun(bus: Bus, t: CpuState, m: Mem)
    requires t.resetDelay == 0xFF && t.cycle == 2 && IsBranchOpcode(t.IR) && BranchTaken(t.P, t.IR)
    ensures Run(bus, Machine(t, m), 1) ==
      Machine(t.(bbb := AddressingField(t.IR), cycle := 0, PC := PageJoin(AddOffset(t.PC, t.offset), t.oldPc)), m)
  {
    BranchTakenCall(bus, t, m);
  }

  /** `BranchNotTakenCall` as a run of one call. */
  lemma BranchNotTakenRun(bus: Bus, t: CpuState, m: Mem)
    requires t.resetDelay == 0xFF && t.cycle == 2 && IsBranchOpcode(t.IR) && !BranchTaken(t.P, t.IR)
    ensures Run(bus, Machine(t, m), 1) == Machine(t.(bbb := AddressingField(t.IR), cycle := 0), m)
  {
    BranchNotTakenCall(bus, t, m);
  }

  /** The second call after a branch's fetch moves PC to the target when the branch is taken, and ends it either way. */
  lemma BranchResolveCall(bus: Bus, t: CpuState, m: Mem)
    requires t.resetDelay == 0xFF && t.cycle == 2 && IsBranchOpcode(t.IR)
    ensures Emulate(bus, Machine(t, m)) ==
      Machine(t.(bbb := AddressingField(t.IR), cycle := 0,
        PC := if BranchTaken(t.P, t.IR) then PageJoin(AddOffset(t.PC, t.offset), t.oldPc) else t.PC), m)
  {
    if BranchTaken(t.P, t.IR) {
      BranchTakenCall(bus, t, m);
    } else {
      BranchNotTakenCall(bus, t, m);
    }
  }

  /**
   * Where a branch leaves PC, from P, its opcode, the address `next` after
   * its offset byte and that byte: `next`, or within the page of `next` when
   * the branch is taken.
   */
  function BranchTarget(p: bv8, opcode: bv8, next: bv16, offset: bv8): bv16 {
    if BranchTaken(p, opcode) then PageJoin(AddOffset(next, offset), next) else next
  }

  /** The state after the fetch of a branch and the call that latches `offset`. */
  function OffsetLatched(s: CpuState, opcode: bv8, offset: bv8): CpuState {
    var t := Fetched(s, opcode);
    t.(bbb := AddressingField(t.IR), offset := offset, PC := t.PC + 1, oldPc := t.PC + 1, cycle := 2)
  }

  /** The fetch of a branch and the call that latches its offset byte. */
  lemma BranchOffsetRun(bus: Bus, s: CpuState, m: Mem)
    requires Ready(s) && IsBranchOpcode(bus.read(m, s.PC))
    ensures var opcode := bus.read(m, s.PC);
      Run(bus, Machine(s, m), 2) == Machine(OffsetLatched(s, opcode, bus.read(m, Fetched(s, opcode).PC)), m)
  {
    var t := Fetched(s, bus.read(m, s.PC));
    var t1 := t.(bbb := AddressingField(t.IR), offset := bus.read(m, t.PC), PC := t.PC + 1, oldPc := t.PC + 1, cycle := 2);
    FetchCall(bus, s, m);
    BranchOffsetCall(bus, t, m);
    RunStep(bus, Machine(s, m), Machine(t, m), 1);
    RunStep(bus, Machine(t, m), Machine(t1, m), 0);
  }

  /** The state a taken branch leaves, restated in terms of the state before the fetch. */
  lemma BranchTakenRetires(s: CpuState, opcode: bv8, offset: bv8)
    requires s.cycle == 0
    ensures var t1 := OffsetLatched(s, opcode, offset);
      t1.(bbb := AddressingField(t1.IR), cycle := 0, PC := PageJoin(AddOffset(t1.PC, t1.offset), t1.oldPc)) ==
        Retired(s, opcode).(offset := offset, oldPc := s.PC + 2, PC := PageJoin(AddOffset(s.PC + 2, offset), s.PC + 2))
  {
    var t := Fetched(s, opcode);
    assert t.PC + 1 == s.PC + 2;
  }

  /** The state a branch not taken leaves, restated in terms of the state before the fetch. */
  lemma BranchNotTakenRetires(s: CpuState, opcode: bv8, offset: bv8)
    requires s.cycle == 0
    ensures var t1 := OffsetLatched(s, opcode, offset);
      t1.(bbb := AddressingField(t1.IR), cycle := 0) == Retired(s, opcode).(offset := offset, oldPc := s.PC + 2, PC := s.PC + 2)
  {
    var t := Fetched(s, opcode);
    assert t.PC + 1 == s.PC + 2;
  }

  /** A taken branch: the fetch and two calls, ending in the page after the offset byte. */
  lemma BranchTakenInstruction(bus: Bus, s: CpuState, m: Mem)
    requires Ready(s) && IsBranchOpcode(bus.read(m, s.PC)) && BranchTaken(s.P, bus.read(m, s.PC))
    ensures var opcode := bus.read(m, s.PC);
      var offset := bus.read(m, s.PC + 1);
      Run(bus, Machine(s, m), 3) ==
        Machine(Retired(s, opcode).(offset := offset, oldPc := s.PC + 2, PC := PageJoin(AddOffset(s.PC + 2, offset), s.PC + 2)), m)
  {
    var opcode := bus.read(m, s.PC);
    var offset := bus.read(m, Fetched(s, opcode).PC);
    var t1 := OffsetLatched(s, opcode, offset);
    BranchOffsetRun(bus, s, m);
    BranchTakenRun(bus, t1, m);
    RunAdd(bus, Machine(s, m), 2, 1);
    BranchTakenRetires(s, opcode, offset);
    OperandBytes(bus, s, m, opcode, offset);
  }

  /** A branch not taken: the fetch and two calls, ending just past the offset byte. */
  lemma BranchNotTakenInstruction(bus: Bus, s: CpuState, m: Mem)
    requires Ready(s) && IsBranchOpcode(bus.read(m, s.PC)) && !BranchTaken(s.P, bus.read(m, s.PC))
    ensures var opcode := bus.read(m, s.PC);
      Run(bus, Machine(s, m), 3) ==
        Machine(Retired(s, opcode).(offset := bus.read(m, s.PC + 1), oldPc := s.PC + 2, PC := s.PC + 2), m)
  {
    var opcode := bus.read(m, s.PC);
    var offset := bus.read(m, Fetched(s, opcode).PC);
    var t1 := OffsetLatched(s, opcode, offset);
    BranchOffsetRun(bus, s, m);
    BranchNotTakenRun(bus, t1, m);
    RunAdd(bus, Machine(s, m), 2, 1);
    BranchNotTakenRetires(s, opcode, offset);
    OperandBytes(bus, s, m, opcode, offset);
  }

  /**
   * A branch takes the fetch and two calls and ends with `cycle == 0`. A
   * taken one keeps the high byte of the address after the offset byte and
   * takes the low byte of that address plus the sign-extended offset.
   */
  lemma BranchInstruction(bus: Bus, s: CpuState, m: Mem)
    requires Ready(s) && IsBranchOpcode(bus.read(m, s.PC))
    ensures var opcode := bus.read(m, s.PC);
      Run(bus, Machine(s, m), 3) ==
        Machine(Retired(s, opcode).(offset := bus.read(m, s.PC + 1), oldPc := s.PC + 2,
          PC := BranchTarget(s.P, opcode, s.PC + 2, bus.read(m, s.PC + 1))), m)
  {
    if BranchTaken(s.P, bus.read(m, s.PC)) {
      BranchTakenInstruction(bus, s, m);
    } else {
      BranchNotTakenInstruction(bus, s, m);
    }
  }
}
