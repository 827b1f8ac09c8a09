# yetanother6502 engine, modelled in Dafny

This models the cycle-stepped 6502 engine of yetanother6502, together with its host memory map:

- **The CPU.** A `CPU` record is initialised by `CPU_reset`. Each call of `CPU_emulate` advances exactly one clock cycle. It is driven by three pieces of state:
  - a reset countdown (`reset_delay`);
  - a per-instruction `cycle` counter, where 0 means "fetch the next opcode";
  - the opcode latched in `IR`.
- **Dispatch** is by the literal opcode, to small handlers:
  - LDA immediate and absolute, STA absolute, TAX, CMP immediate, JMP absolute;
  - the eight relative branches and the seven flag set/clear opcodes;
  - the debug-print opcode 0x02, BRK, and the illegal-opcode trap.
- **The host bus.** `cpu_read` and `cpu_write` give 2 KiB of RAM mirrored through 0x0000..0x1FFF, zeros in 0x2000..0x7FFF, and 32 KiB of ROM at 0x8000..0xFFFF.

The modules are:

- `CpuDefs` (cpu_defs.dfy): the types, the flag masks, the `ADDR` enumeration and the two flag tables of `include/cpu.h`. Registers are `bv8`, PC and addresses are `bv16`, and `instruction_count` is `bv32`, so every increment wraps exactly as the C types do.
- `MemoryMap` (memory_map.dfy): the memory map of `src/main.c`, in two forms:
  - as functions on a memory value (`ReadByte`, `WriteByte`);
  - as the class `HostMemory`, which holds the `RAM` and `ROM` buffers as arrays. Its `Read` and `Write` are proved against those functions.
- `CpuModel` (cpu_model.dfy): the engine as functions on values.
  - A `Machine` is the record plus the memory.
  - `Emulate` is one call of `CPU_emulate`, and `Run` is `n` calls.
  - The two callbacks `read_fn`/`write_fn` are a `Bus` value: a read is a side-effect-free function of the memory contents and a write gives the new contents. The properties hold for every such bus over the 2 KiB + 32 KiB memory of `src/main.c`.
- `CpuProperties` (cpu_properties.dfy): per-call and per-instruction lemmas about `Emulate`, for every such bus. They cover the reset sequence, the fetch, every dispatched instruction from its fetch to its last call, the branch arithmetic, and halting.
- `CpuEngine` (cpu_engine.dfy): the class `Cpu`, which updates its record in place.
  - It has one method per C function, each making the field assignments of the C code with the same effect; consecutive assignments to the record are sometimes merged into one update.
  - Each method is proved to leave exactly the state the corresponding `CpuModel` function describes.
  - `Emulate()` reads and writes a `HostMemory`, so every lemma of `CpuProperties` applies to the object.

Behaviour is modelled as the code is written, not as the real chip behaves:

- **Branch polarity.** The taken test is the table flag exclusive-or bit 6 of the opcode.
  - BPL branches, like BMI, when N is set.
  - BVC and BVS both branch when V is clear.
  - BCC branches, like BCS, when C is set.
  - BNE and BEQ both branch when Z is clear.
- **Page fix-up.** The taken branch joins the new low byte to the page of `old_pc`. The page test therefore never fires, and the fix-up call at `cycle == 3` cannot be reached.
- **Opcode 0xB8** (CLV) has bit 5 set and therefore sets V.
- **LDA absolute** does not update N or Z.
- **TXA, TAY and TYA** are defined but have no case in the dispatch switch, so their opcodes halt the engine as illegal instructions.
- **`bb` and `bbb`.** The field the dispatcher writes and `_CPU_LDA` reads is spelled `bb` in src/cpu.c and `bbb` in include/cpu.h. It is one field here, `bbb`, computed as `(IR & 0x1C) >> 2` before every dispatch.

## Model

| member | source | states |
|---|---|---|
| CpuDefs.ToI8 | src/cpu.c:23 | the `(i8)` cast of a fetched byte: the result is the byte modulo 256 and is negative exactly when bit 7 is set |
| CpuDefs.SignExtendIsDisplacement | src/cpu.c:29 | widening the offset to 16 bits gives the signed displacement modulo 2^16, which is what C's `PC + offset` adds |
| CpuDefs.FlagMasksAreDistinctBits | include/cpu.h:55-64 | the eight `FLAGS` masks, in NV-BDIZC order, are bits 7 down to 0, so any two are disjoint |
| CpuDefs.AddrOf | include/cpu.h:66-75 | every addressing-field value 0..7 names the `ADDR` enumerator with that value |
| CpuDefs.AddrCodeRoundTrip | include/cpu.h:66-75 | the eight `ADDR` values are distinct: decoding a mode's value gives the mode back |
| CpuDefs.AddressingField | src/cpu.c:236 | the decoded `bbb` field is always one of the eight `ADDR` values |
| CpuDefs.LdaOpcodesDecode | include/cpu.h:69-70 | opcode 0xA9 decodes to `ADDR_IMM` and 0xAD to `ADDR_ABS`, the two cases `_CPU_LDA` serves |
| CpuDefs.FlagTableIndex | src/cpu.c:45 | the index into both flag tables is always in 0..3, so the lookups stay in bounds |
| CpuDefs.FlagTableIndexIsTopBits | src/cpu.c:28 | that index is exactly `(IR & 0xC0) >> 6`, the expression the C code uses |
| CpuDefs.BranchFlagTable | include/cpu.h:77 | `branch_flag_by_index` maps top bits 00, 01, 10, 11 to NEG, OVR, CAR, ZER |
| CpuDefs.InstructionFlagTable | include/cpu.h:78 | `instruction_flag_by_index` maps top bits 00, 01, 10, 11 to CAR, IRE, OVR, DEC |
| MemoryMap.MasksAreModuli | src/main.c:11-14 | the masks `& 0x7FF` and `& 0x7FFF` are reductions modulo the buffer sizes |
| MemoryMap.ReadRegions | src/main.c:9-17 | a read below 0x2000 returns RAM at the address modulo 0x800, a read in 0x2000..0x7FFF returns 0, and a read from 0x8000 up returns ROM at the address minus 0x8000 |
| MemoryMap.RamMirrors | src/main.c:10-12 | addresses 0x800 apart below 0x2000 name the same RAM byte and read the same value |
| MemoryMap.ResetVectorInRom | src/main.c:13-15 | the reset vector at 0xFFFC/0xFFFD is read from ROM[0x7FFC] and ROM[0x7FFD] |
| MemoryMap.WriteRegions | src/main.c:18-22 | a write never changes ROM; a write from 0x2000 up changes nothing; a write below 0x2000 sets exactly RAM at the address modulo 0x800 and keeps every other RAM byte |
| MemoryMap.ReadAfterWrite | src/main.c:9-21 | a byte written to RAM is read back at the same address and at every mirror of it |
| MemoryMap.WriteLeavesOthers | src/main.c:9-22 | a write leaves every address outside the written cell reading what it read before |
| MemoryMap.LoadedRom | src/main.c:34 | `fread` into the zeroed 32 KiB `ROM` keeps the first 32 KiB of a longer image, and leaves a shorter image followed by zeros |
| MemoryMap.HostMemory.constructor | src/main.c:5-6 | RAM starts zeroed and ROM holds the image, padded with zeros |
| MemoryMap.HostMemory.Read | src/main.c:9-17 | `cpu_read` over the arrays returns what `ReadByte` gives for their contents |
| MemoryMap.HostMemory.Write | src/main.c:18-22 | `cpu_write` changes the arrays into what `WriteByte` gives for their old contents |
| CpuModel.SetNZFlags | src/cpu.c:5-9 | after `CPU_set_NZ`, Z is set iff the result is 0 and N is set iff the result's bit 7 is set; the other six bits of P are unchanged |
| CpuModel.CompareLogicFlags | src/cpu.c:151-155 | after `_CPU_CMP_logic`, C is set iff register >= operand (unsigned), Z iff they are equal, and N iff the 8-bit difference is negative; the other five bits of P are unchanged |
| CpuModel.ResetState | src/cpu.c:191-203 | after `CPU_reset`, P = 0x20, SP = 0, PC = 0xFFFC, the countdown is 7 and the engine is running |
| CpuProperties.CountdownCall | src/cpu.c:220-223 | a call with the countdown in 2..0xFE only decrements it |
| CpuProperties.VectorLowCall | src/cpu.c:207-212 | at countdown 1, a call sets PC to the byte at 0xFFFC and moves the countdown to 0 |
| CpuProperties.VectorHighCall | src/cpu.c:213-219 | at countdown 0, a call ors in the byte at 0xFFFD as PC's high byte, ends the countdown and clears `cycle` |
| CpuProperties.CountdownToOne | src/cpu.c:220-223 | from countdown 7, six calls reach countdown 1 and change nothing else |
| CpuProperties.VectorLoad | src/cpu.c:207-219 | the calls at countdown 1 and 0 leave PC = read(0xFFFC) + 256 * read(0xFFFD), the countdown at 0xFF and `cycle` 0 |
| CpuProperties.ResetSequence | src/cpu.c:205-227 | from countdown 7, eight calls load the reset vector into PC and make the engine ready, changing nothing else |
| CpuProperties.CountdownKeepsOpcode | src/cpu.c:206-227 | a call during the countdown neither fetches an opcode nor counts an instruction, and moves the countdown on |
| CpuProperties.CountdownFetchesNothing | src/cpu.c:206-227 | no run of calls that stays inside the countdown fetches or counts anything |
| CpuProperties.ResetFetchesNothing | src/cpu.c:191-227 | none of the first eight calls after `CPU_reset` fetches an opcode or counts an instruction |
| CpuProperties.FetchCall | src/cpu.c:228-234 | with the countdown over and `cycle == 0`, a call sets IR = read(PC), increments PC modulo 2^16, sets `cycle` to 1, increments the instruction count, and changes nothing else |
| CpuProperties.FirstFetchAfterReset | src/cpu.c:191-234 | the ninth call after `CPU_reset` fetches and counts the opcode at the reset vector |
| CpuProperties.LdaImmediateCall | src/cpu.c:107-111 | the call after the fetch of LDA # loads the byte at PC into A, sets N/Z from it, and moves PC past it |
| CpuProperties.LdaImmediateInstruction | src/cpu.c:239-241 | LDA # ends after two calls, with A the operand byte, N/Z set from it, and PC two bytes on |
| CpuProperties.TaxCall | src/cpu.c:68-72 | the call after the fetch of TAX copies A to X, sets N/Z from it, and keeps PC |
| CpuProperties.TaxInstruction | src/cpu.c:248-251 | TAX ends after two calls, with X = A, N/Z set from A, and PC one byte on |
| CpuProperties.CmpImmediateCall | src/cpu.c:157-167 | the call after the fetch of CMP # latches the operand, compares A with it, and moves PC past it |
| CpuProperties.CmpImmediateInstruction | src/cpu.c:252-255 | CMP # ends after two calls; only P, the latched operand and PC change, and A is kept |
| CpuProperties.DispatchFlag | src/cpu.c:271-279 | each of the seven set/clear opcodes reaches `_CPU_flags_logic` |
| CpuProperties.FlagCall | src/cpu.c:43-49 | the call after the fetch of a flag opcode rewrites P from the opcode, keeps PC and ends the instruction |
| CpuProperties.FlagInstruction | src/cpu.c:271-279 | a flag opcode ends after two calls, with PC one byte on and only P changed |
| CpuProperties.FlagsResultChangesOneFlag | src/cpu.c:45-46 | a flag opcode changes only its table flag, which ends set iff bit 5 of the opcode is set |
| CpuProperties.FlagOpcodeTable | src/cpu.c:271-279 | CLC/SEC act on C, CLI/SEI on I, and CLD/SED on D; 0xB8, as written, sets V |
| CpuProperties.DebugPrintCall | src/cpu.c:280-285 | the call after the fetch of 0x02 only clears `cycle` |
| CpuProperties.DebugPrintInstruction | src/cpu.c:280-285 | opcode 0x02 ends after two calls and changes no register |
| CpuProperties.HaltCall | src/cpu.c:286-294 | for BRK and every opcode without a case, a call clears the running flag and leaves the registers, P and `cycle` unchanged |
| CpuProperties.HaltIsFinal | src/cpu.c:286-294 | once halted this way, every further call leaves the machine exactly as the first halting call did |
| CpuProperties.BrkInstruction | src/cpu.c:286-289 | BRK stops the engine on the call after its fetch, with PC and the registers as the fetch left them |
| CpuProperties.UndispatchedTransfersHalt | src/cpu.c:290-294 | a call on the TXA, TAY or TYA opcode halts the engine and copies no register |
| CpuProperties.TaxEffect | src/cpu.c:68-72 | `_CPU_TAX` sets X = A; Z is then set iff the value is 0 and N iff its bit 7 is set, the other six bits of P and every other field are kept, and `cycle` is 0 |
| CpuProperties.TxaEffect | src/cpu.c:74-78 | `_CPU_TXA` sets A = X; Z is then set iff the value is 0 and N iff its bit 7 is set, the other six bits of P and every other field are kept, and `cycle` is 0 |
| CpuProperties.TayEffect | src/cpu.c:80-84 | `_CPU_TAY` sets Y = A; Z is then set iff the value is 0 and N iff its bit 7 is set, the other six bits of P and every other field are kept, and `cycle` is 0 |
| CpuProperties.TyaEffect | src/cpu.c:86-90 | `_CPU_TYA` sets A = Y; Z is then set iff the value is 0 and N iff its bit 7 is set, the other six bits of P and every other field are kept, and `cycle` is 0 |
| CpuProperties.AbsoluteLowCall | src/cpu.c:51-58 | the first call after the fetch of LDA, STA or JMP absolute latches the byte at PC as the low address byte and advances PC |
| CpuProperties.AbsoluteHighCall | src/cpu.c:59-64 | the second call ors in the byte at PC as the high address byte and advances PC |
| CpuProperties.WordBytes | src/cpu.c:61 | the low byte of `lo + 256 * hi` is `lo` and its high byte is `hi` |
| CpuProperties.AbsoluteOperand | src/cpu.c:51-66 | the fetch and the two address calls read the two bytes after the opcode, advance PC by 3 in all, and leave `access_address = lo + 256 * hi` |
| CpuProperties.StaStoreCall | src/cpu.c:143-147 | the fourth call of STA abs writes A to the latched address and ends the instruction |
| CpuProperties.StaAbsoluteInstruction | src/cpu.c:129-149 | STA abs takes four calls; the memory changes only by the write of A to the operand address, and no register or flag changes |
| CpuProperties.JmpLoadCall | src/cpu.c:183-186 | the fourth call of JMP abs sets PC to the latched address |
| CpuProperties.JmpAbsoluteInstruction | src/cpu.c:169-189 | JMP abs takes four calls and leaves PC at the operand address |
| CpuProperties.LdaLoadCall | src/cpu.c:120-124 | the fourth call of LDA abs loads A from the latched address and leaves P alone |
| CpuProperties.LdaAbsoluteInstruction | src/cpu.c:113-126 | LDA abs takes four calls and loads A from the operand address; as written, N and Z are not updated |
| CpuProperties.NegativeBranchesAsWritten | src/cpu.c:28 | as written, BPL and BMI both branch exactly when N is set |
| CpuProperties.OverflowBranchesAsWritten | src/cpu.c:28 | as written, BVC and BVS both branch exactly when V is clear |
| CpuProperties.CarryBranchesAsWritten | src/cpu.c:28 | as written, BCC and BCS both branch exactly when C is set |
| CpuProperties.ZeroBranchesAsWritten | src/cpu.c:28 | as written, BNE and BEQ both branch exactly when Z is clear |
| CpuProperties.PageJoinStaysInPage | src/cpu.c:30 | `(PC & 0xFF) + (old_pc & 0xFF00)` lies in the page of `old_pc` |
| CpuProperties.BranchPageTestNeverFires | src/cpu.c:27-35 | the second post-fetch call of a branch always ends it with `cycle == 0`, so the page-fix call at `cycle == 3` is unreachable |
| CpuProperties.DispatchBranch | src/cpu.c:260-270 | each of the eight branch opcodes reaches `_CPU_branch_logic` |
| CpuProperties.BranchOffsetCall | src/cpu.c:22-26 | the first call after a branch's fetch latches the offset byte and sets PC and `old_pc` past it |
| CpuProperties.BranchTakenCall | src/cpu.c:28-31 | the second call of a taken branch sets PC to the low byte of `PC + offset` in the page of `old_pc`, and ends the branch |
| CpuProperties.BranchNotTakenCall | src/cpu.c:32-34 | the second call of a branch not taken only ends it |
| CpuProperties.BranchResolveCall | src/cpu.c:27-35 | the second call of a branch moves PC to the target when it is taken, and ends the branch either way |
| CpuProperties.BranchTakenInstruction | src/cpu.c:20-41 | a taken branch ends after three calls, with PC = (old_pc & 0xFF00) + ((old_pc + offset) & 0xFF), where `old_pc` is the address after the offset byte |
| CpuProperties.BranchNotTakenInstruction | src/cpu.c:20-41 | a branch not taken ends after three calls, with PC just past the offset byte |
| CpuProperties.BranchInstruction | src/cpu.c:20-41 | every branch ends after three calls, with PC at `BranchTarget` of P, the opcode, the address after the offset byte and the offset |
| CpuEngine.HostResetVector | src/main.c:13-15 | on the host bus the reset vector is built from ROM[0x7FFC] (low) and ROM[0x7FFD] (high) |
| CpuEngine.HostBoot | src/cpu.c:191-227 | after `CPU_reset` and eight calls on the host bus, PC holds the vector stored in ROM and the engine is ready to fetch |
| CpuEngine.Cpu.constructor | src/cpu.c:191-203 | `CPU_reset` leaves the record in `ResetState()` and attaches the host memory as the bus |
| CpuEngine.Cpu.SetNZ | src/cpu.c:5-9 | the three in-place updates of P leave P as `SetNZ` (properties in `SetNZFlags`), and no other field changes |
| CpuEngine.Cpu.CompareFlags | src/cpu.c:151-155 | the in-place update of P leaves P as `CompareLogic` (properties in `CompareLogicFlags`); no register other than P changes |
| CpuEngine.Cpu.Branch | src/cpu.c:20-41 | the switch on `cycle` leaves the record as `BranchLogic` gives, for the bytes of the host memory |
| CpuEngine.Cpu.ChangeFlag | src/cpu.c:43-49 | the flag update leaves the record as `FlagsLogic` gives |
| CpuEngine.Cpu.AbsoluteAddress | src/cpu.c:51-66 | the two address cycles leave the record as `AddressingAbs` gives |
| CpuEngine.Cpu.Tax | src/cpu.c:68-72 | leaves the record as `Tax` gives (properties in `TaxEffect`) |
| CpuEngine.Cpu.Txa | src/cpu.c:74-78 | leaves the record as `Txa` gives (properties in `TxaEffect`) |
| CpuEngine.Cpu.Tay | src/cpu.c:80-84 | leaves the record as `Tay` gives (properties in `TayEffect`) |
| CpuEngine.Cpu.Tya | src/cpu.c:86-90 | leaves the record as `Tya` gives (properties in `TyaEffect`) |
| CpuEngine.Cpu.Lda | src/cpu.c:92-127 | both addressing cases and the ignored default leave the record as `Lda` gives |
| CpuEngine.Cpu.StaAbs | src/cpu.c:129-149 | leaves the record and the host memory as `StaAbs` gives; the store goes through `HostMemory.Write` |
| CpuEngine.Cpu.CmpImm | src/cpu.c:157-167 | leaves the record as `CmpImm` gives |
| CpuEngine.Cpu.JmpAbs | src/cpu.c:169-189 | leaves the record as `JmpAbs` gives |
| CpuEngine.Cpu.Dispatch | src/cpu.c:238-295 | the switch on IR leaves the record and the memory as `Dispatch` gives |
| CpuEngine.Cpu.Emulate | src/cpu.c:205-297 | one call leaves the record and the host memory as `CpuModel.Emulate` gives on the host bus, so every lemma of `CpuProperties` describes the object |

## Left out

- The `printf` of the debug-print opcode and of the illegal-opcode trap is console output. Both are modelled as doing nothing beyond their state changes.
- `main` is left out: the argument check, opening and reading the ROM file, and the `while (cpu.is_running)` loop with `sleep_ms`, which are file I/O and timing. Only the ROM contents after loading are modelled, as `LoadedRom` and the `HostMemory` constructor.
- include/constants.h and include/crossplatform_functions.h are not part of this model. They hold duplicate typedefs and an OS sleep wrapper, and no logic.
- A bus whose reads change state (memory-mapped I/O), or whose memory is other than the 2 KiB RAM and 32 KiB ROM of `src/main.c`, is not modelled: `Bus.read` is a pure function of a `Mem`, so "changes nothing else" in the lemmas includes the memory only for such buses.
- The callbacks are a `Bus` value, or on the object the `HostMemory` it holds, rather than function pointers. `CPU_reset` keeping a NULL pointer is therefore not modelled.
- The fields `found_address`, `indirect_address`, `aaa` and `cc` are declared but never used, and are left out of the record.
- Stack, JSR/RTS, indirect jumps, arithmetic and logic instructions, shifts, the other addressing modes, interrupts and decimal mode have no code in these files and are not modelled.
- CpuEngine.Cpu: the record's fields are held as one record value that each handler reassigns field by field, not as sixteen separate heap fields.
- CpuEngine.Cpu.StaAbs: `_CPU_STA_ABS` and `_CPU_JMP_ABS` repeat the code of `_CPU_addressing_ABS` inline for their first two cycles. The model routes those cycles through the shared `AbsoluteAddress`, which makes the same assignments.
- CpuDefs.SignExtendIsDisplacement: `offset` is kept as the raw fetched byte and sign-extended where C adds it to PC. Its equality with the integer sum modulo 2^16 is stated for the widening only, not for the whole addition.
- MemoryMap.ReadByte: the masks `& 0x7FF` and `& 0x7FFF` are written as reductions modulo the buffer sizes. `MasksAreModuli` proves the two forms equal.
- CpuDefs.FlagTableIndex: this is written as a comparison of the opcode against 0x40, 0x80 and 0xC0. `FlagTableIndexIsTopBits` proves it equal to `(IR & 0xC0) >> 6`.
