/**
 * The CPU object of src/cpu.c, updated in place one call of `CPU_emulate`
 * at a time. The record is held as one value, `state`, and each handler
 * reassigns the fields it changes, in the order the C code does. Every
 * method is proved against the function of `CpuModel` that describes it:
 * its new state is that function applied to the old one.
 */
module CpuEngine {
  import opened CpuDefs
  import opened MemoryMap
  import opened CpuModel
  import opened CpuProperties

  /** The bus src/main.c hands to `CPU_reset`: `cpu_read` and `cpu_write` over the host memory. */
  const HostBus: Bus := Bus(ReadByte, WriteByte)

  /** On the host bus the reset countdown assembles PC from the last two bytes of ROM, low byte first. */
  lemma HostResetVector(m: Mem)
    ensures ResetVector(HostBus, m) == Word(m.rom[0x7FFC], m.rom[0x7FFD])
  {
    ResetVectorInRom(m);
  }

  /** After `CPU_reset` and eight calls on the host bus, PC holds the vector in ROM and the engine is ready to fetch. */
  lemma HostBoot(m: Mem)
    ensures Run(HostBus, Machine(ResetState(), m), 8) ==
      Machine(ResetState().(PC := Word(m.rom[0x7FFC], m.rom[0x7FFD]), resetDelay := 0xFF, cycle := 0), m)
  {
    ResetSequence(HostBus, ResetState(), m);
    HostResetVector(m);
  }

  class Cpu {
    /** The fields of the CPU record. */
    var state: CpuState
    /** What `read_fn` and `write_fn` reach. */
    const mem: HostMemory

    ghost predicate Valid()
    {
      mem.Valid()
    }

    /** The record and the memory its bus reaches. */
    ghost function Snapshot(): Machine
      reads this, mem.ram, mem.rom
      requires Valid()
    {
      Machine(state, mem.Contents())
    }

    /** `CPU_reset`: every field zero except PC, P, the countdown and the running flag. */
    constructor (memory: HostMemory)
      requires memory.Valid()
      ensures Valid() && mem == memory
      ensures state == ResetState()
    {
      mem := memory;
      state := CpuState(0, 0, 0, 0, 0, 0, 0, 0, false, 0, 0, 0, 0, 0, 0, 0);
      new;
      state := state.(PC := 0xFFFC);
      state := state.(P := FlagIgn);
      state := state.(resetDelay := 7);
      state := state.(isRunning := true);
    }

    /** `CPU_set_NZ`. */
    method SetNZ(result: bv8)
      modifies this
      ensures state == old(state).(P := CpuModel.SetNZ(old(state.P), result))
    {
      var p := state.P & !(FlagNeg | FlagZer);
      p := p | (FlagNeg & result);
      p := p | (if result == 0 then FlagZer else 0);
      state := state.(P := p);
    }

    /** `_CPU_CMP_logic`. */
    method CompareFlags(register: bv8, operand: bv8)
      modifies this
      ensures state == old(state).(P := CpuModel.CompareLogic(old(state.P), register, operand))
    {
      var temp := register - operand;
      var zero := if temp == 0 then FlagZer else 0;
      var carry := if register >= operand then FlagCar else 0;
      var p := state.P & !(FlagZer | FlagNeg | FlagCar);
      p := p | (zero | carry | (temp & FlagNeg));
      state := state.(P := p);
    }

    /** `_CPU_branch_logic`: a switch on the cycle of the instruction. */
    method Branch()
      requires Valid()
      modifies this
      ensures state == CpuModel.BranchLogic(HostBus, old(state), mem.Contents())
    {
      if state.cycle == 1 {
        var b := mem.Read(state.PC);
        var pc := state.PC + 1;
        state := state.(offset := b, PC := pc, oldPc := pc, cycle := state.cycle + 1);
      } else if state.cycle == 2 {
        if BranchTaken(state.P, state.IR) {
          var pc := AddOffset(state.PC, state.offset);
          pc := PageJoin(pc, state.oldPc);
          if Page(pc) != Page(state.oldPc) {
            state := state.(PC := pc, cycle := state.cycle + 1);
          } else {
            state := state.(PC := pc, cycle := 0);
          }
        } else {
          state := state.(cycle := 0);
        }
      } else if state.cycle == 3 {
        state := state.(PC := PageJoin(state.PC, AddOffset(state.PC, state.offset)), cycle := 0);
      }
    }

    /** `_CPU_flags_logic`. */
    method ChangeFlag()
      modifies this
      ensures state == CpuModel.FlagsLogic(old(state))
    {
      var p := state.P & !InstructionFlag(state.IR);
      p := p | (if SetsFlag(state.IR) then InstructionFlag(state.IR) else 0);
      state := state.(P := p, cycle := 0);
    }

    /** `_CPU_addressing_ABS`: the low address byte, then the high one. */
    method AbsoluteAddress()
      requires Valid()
      modifies this
      ensures state == CpuModel.AddressingAbs(HostBus, old(state), mem.Contents())
    {
      if state.cycle == 1 {
        var lo := mem.Read(state.PC);
        state := state.(accessAddress := lo as bv16, PC := state.PC + 1, cycle := state.cycle + 1);
      } else if state.cycle == 2 {
        var hi := mem.Read(state.PC);
        state := state.(accessAddress := OrHighByte(state.accessAddress, hi), PC := state.PC + 1, cycle := state.cycle + 1);
      }
    }

    /** `_CPU_TAX`. */
    method Tax()
      modifies this
      ensures state == CpuModel.Tax(old(state))
    {
      state := state.(X := state.A);
      SetNZ(state.X);
      state := state.(cycle := 0);
    }

    /** `_CPU_TXA`. */
    method Txa()
      modifies this
      ensures state == CpuModel.Txa(old(state))
    {
      state := state.(A := state.X);
      SetNZ(state.A);
      state := state.(cycle := 0);
    }

    /** `_CPU_TAY`. */
    method Tay()
      modifies this
      ensures state == CpuModel.Tay(old(state))
    {
      state := state.(Y := state.A);
      SetNZ(state.Y);
      state := state.(cycle := 0);
    }

    /** `_CPU_TYA`. */
    method Tya()
      modifies this
      ensures state == CpuModel.Tya(old(state))
    {
      state := state.(A := state.Y);
      SetNZ(state.A);
      state := state.(cycle := 0);
    }

    /** `_CPU_LDA`: the immediate form in one call, the absolute form through the two address calls and a load. */
    method Lda()
      requires Valid()
      modifies this
      ensures state == CpuModel.Lda(HostBus, old(state), mem.Contents())
    {
      if state.bbb == AddrCode(Imm) {
        var a := mem.Read(state.PC);
        state := state.(A := a, PC := state.PC + 1);
        SetNZ(state.A);
        state := state.(cycle := 0);
      } else if state.bbb == AddrCode(Abs) {
        if state.cycle == 1 || state.cycle == 2 {
          AbsoluteAddress();
        } else if state.cycle == 3 {
          var a := mem.Read(state.accessAddress);
          state := state.(A := a, cycle := 0);
        }
      }
    }

    /** `_CPU_STA_ABS`: two address bytes, then the store through `write_fn`. */
    method StaAbs()
      requires Valid()
      modifies this, mem.ram
      ensures Snapshot() == CpuModel.StaAbs(HostBus, old(state), old(mem.Contents()))
    {
      if state.cycle == 1 || state.cycle == 2 {
        AbsoluteAddress();
      } else if state.cycle == 3 {
        mem.Write(state.accessAddress, state.A);
        state := state.(cycle := 0);
      }
    }

    /** `_CPU_CMP_IMM`. */
    method CmpImm()
      requires Valid()
      modifies this
      ensures state == CpuModel.CmpImm(HostBus, old(state), mem.Contents())
    {
      if state.cycle == 1 {
        var operand := mem.Read(state.PC);
        state := state.(compareOperand := operand, PC := state.PC + 1);
        CompareFlags(state.A, state.compareOperand);
        state := state.(cycle := 0);
      }
    }

    /** `_CPU_JMP_ABS`: two address bytes, then the jump. */
    method JmpAbs()
      requires Valid()
      modifies this
      ensures state == CpuModel.JmpAbs(HostBus, old(state), mem.Contents())
    {
      if state.cycle == 1 || state.cycle == 2 {
        AbsoluteAddress();
      } else if state.cycle == 3 {
        state := state.(PC := state.accessAddress, cycle := 0);
      }
    }

    /** The dispatch switch of `CPU_emulate`, once `bbb` is decoded. */
    method Dispatch()
      requires Valid()
      modifies this, mem.ram
      ensures Snapshot() == CpuModel.Dispatch(HostBus, old(state), old(mem.Contents()))
    {
      var ir := state.IR;
      if ir == 0xA9 || ir == 0xAD {
        Lda();
      } else if ir == 0x8D {
        StaAbs();
      } else if ir == 0xAA {
        Tax();
      } else if ir == 0xC9 {
        CmpImm();
      } else if ir == 0x4C {
        JmpAbs();
      } else if IsBranchOpcode(ir) {
        Branch();
      } else if IsFlagOpcode(ir) {
        ChangeFlag();
      } else if ir == 0x02 {
        state := state.(cycle := 0);
      } else {
        state := state.(isRunning := false);
      }
    }

    /** `CPU_emulate`: one clock cycle. */
    method Emulate()
      requires Valid()
      modifies this, mem.ram
      ensures Snapshot() == CpuModel.Emulate(HostBus, old(Snapshot()))
    {
      if state.resetDelay == 1 {
        var lo := mem.Read(0xFFFC);
        state := state.(PC := lo as bv16, resetDelay := state.resetDelay - 1);
      } else if state.resetDelay == 0 {
        var hi := mem.Read(0xFFFD);
        state := state.(PC := OrHighByte(state.PC, hi), resetDelay := 0xFF, cycle := 0);
      } else if state.resetDelay != 0xFF {
        state := state.(resetDelay := state.resetDelay - 1);
      } else if state.cycle == 0 {
        var ir := mem.Read(state.PC);
        state := state.(IR := ir, PC := state.PC + 1, cycle := state.cycle + 1, instructionCount := state.instructionCount + 1);
      } else {
        state := state.(bbb := AddressingField(state.IR));
        Dispatch();
      }
    }
  }
}
