# A verified model of a 6502 (NES CPU) emulator core

This project models three parts of a Rust NES emulator and proves their properties:

- **The processor** (`src/cpu.rs`). It covers the `CPU` struct with its registers and 64 KiB memory, and the flag helpers. It also covers the addressing-mode readers, `store`/`fetch`, `push`/`pop` on page 1, `execute_instruction`, `step` and `reset`.
- **The opcode table** (`src/cpu/instruction.rs`). It maps each opcode byte to its mnemonic, addressing mode and base cycle count, for the 151 documented opcodes.
- **The 2 KiB CPU RAM** (`src/mem.rs`). It reaches its cells through the low eleven bits of a 16-bit address.

## Files

| file | module | what it holds |
|---|---|---|
| `wrappers.dfy` | `Wrappers` | the `Option` type shared by the table lookup and the operand decoder |
| `bytes.dfy` | `Bytes` | `u8` and `u16` as bounded integers, with the wrapping `+` and `-` written out |
| `instruction.dfy` | `Instructions` | the opcode table as a 16 × 16 grid of matches, its count, and structural facts about it |
| `cpu_model.dfy` | `CpuModel` | the CPU as a value (`Machine`), every operation as a function of it, and the lemmas stating what they do |
| `cpu.dfy` | `Cpu` | `get_flag_constant` as its search loop, and the class `Cpu` whose methods update its fields and memory array in place, each proved to produce the `CpuModel` result |
| `mem.dfy` | `Mem` | the mirrored RAM on values and as the class `CpuRam` over an array |

## Where the code departs from the 6502

The model follows the code. These are the places where the code differs from the hardware or from its own doc comments:

- `update_status` sets Negative for a value above 127 and clears it for 0. For a value from 1 to 127 it leaves Negative unchanged. On the 6502, Negative always copies bit 7 of the loaded value, so a value from 1 to 127 clears it (`CpuModel.NegativeSurvivesPositiveValue`, `CpuModel.LoadPositiveAfterNegative`).
- `push` increments `sp` before writing, and `pop` reads before decrementing `sp`. On the 6502, a push writes at `sp` and then decrements it, and a pull increments `sp` and then reads, so the stack grows downward from 0x01FF (`CpuModel.PushThenPop`).
- `read_indirect_address` increments the pointer's high byte. So for pointer 0x02FF it reads the high byte at 0x03FF. The 6502's page-boundary bug, which its doc comment says it reproduces, reads the high byte of `JMP ($02FF)` at 0x0200 instead (`CpuModel.IndirectDisagreesWithComment`).
- `read_absolute_address` moves `pc` on by one, not two. `read_value` does not move `pc` for the immediate, zero-page and indirect modes. `step` adds 1 to `pc` after every instruction. As a result:
  - an LDA advances `pc` by 2 or 3 as expected;
  - JMP lands one byte past its target;
  - an opcode the engine does not decode is skipped together with the following byte (`CpuModel.StepJmpAbsolute`, `CpuModel.StepOther`).
- The doc comment of `read_value` (src/cpu.rs:121-122) says it updates the status register. It does not; `execute_instruction` calls `update_status` on the value afterwards (`CpuModel.ReadValue`, `CpuModel.Execute`).
- `execute_instruction` decodes only JMP absolute and the eight LDA opcodes. It does this by hand, without the opcode table, and an unknown opcode does not halt anything. `CpuModel.DecodeAgreesWithTable` shows that these nine opcodes agree with the table.
- `cycles` is never updated. `reset` changes only `pc`; it does not set `sp` to 0xFF.
- The code uses `+`, `+=` and `-=` on `u8` and `u16`. These would panic on overflow in a debug build. Its comments say wrap-around is intended, so the model wraps: `AddByte`, `SubByte`, `AddWord`.

## Model

| member | source | states |
|---|---|---|
| Bytes.AddByte | src/cpu.rs:267 | `u8` addition gives the sum modulo 256 |
| Bytes.SubByte | src/cpu.rs:278 | `u8` subtraction gives the difference modulo 256, and adding the subtrahend back restores the operand |
| Bytes.AddWord | src/cpu.rs:341 | `u16` addition gives the sum modulo 65536 |
| Bytes.WordOf | src/cpu.rs:196-198 | the word built from `lo` and `hi` has exactly those low and high bytes (little-endian) |
| Bytes.WordOfBytes | src/cpu.rs:196-198 | every address is the word of its own low and high byte |
| CpuModel.PowerOn | src/cpu.rs:69-83 | `CPU::default()` has `cycles` 0, every register zero and every address reading 0 |
| CpuModel.Fetch | src/cpu.rs:259-261 | `fetch` returns the memory cell at the address and consults nothing else |
| CpuModel.Store | src/cpu.rs:254-256 | `store` makes the address read the value, every other address read as before, and leaves all registers unchanged |
| CpuModel.FlagMask | src/cpu.rs:17-23 | each flag's constant has exactly one bit set, and that bit is never the unused bit 5 |
| CpuModel.FlagMaskInjective | src/cpu.rs:17-23 | two flags have the same constant if and only if they are the same flag |
| CpuModel.WithFlag | src/cpu.rs:116-119 | after `set_flag(f, v)` the flag reads `v`, and every bit outside its mask is unchanged |
| CpuModel.WithFlagKeepsOthers | src/cpu.rs:116-119 | setting one flag leaves every other flag reading as before |
| CpuModel.UpdatedStatus | src/cpu.rs:178-191 | Zero is set iff the value is 0; 0 clears Negative; a value above 127 sets it; a value of 1..127 keeps it; no bit other than Z and N changes |
| CpuModel.NegativeSurvivesPositiveValue | src/cpu.rs:183-190 | a value from 1 to 127 leaves an already set Negative set |
| CpuModel.StackAddress | src/cpu.rs:268 | the stack address lies in 0x0100..0x01FF, with low byte `sp` and high byte the stack page |
| CpuModel.Push | src/cpu.rs:266-270 | `push` increments `sp` (wrapping), writes the value at the new stack address, and changes no other address or register |
| CpuModel.Pop | src/cpu.rs:275-280 | `pop` returns the byte at the current stack address and then decrements `sp` (wrapping); nothing else changes |
| CpuModel.PushThenPop | src/cpu.rs:266-280 | a pop right after a push returns the pushed value and restores `sp` |
| CpuModel.PushWraps | src/cpu.rs:265-269 | a push with `sp` = 0xFF wraps `sp` to 0x00 and writes 0x0100 |
| CpuModel.PushAllStaysInStackPage | src/cpu.rs:266-270 | any number of pushes writes only page 1, moves only `sp`, and advances `sp` by the count modulo 256 |
| CpuModel.AbsoluteAddress | src/cpu.rs:196-198 | the address's low byte is the byte at `pc`, and its high byte the byte at `pc + 1` (wrapping) |
| CpuModel.ReadAbsoluteAddress | src/cpu.rs:195-201 | `read_absolute_address` returns that word and advances `pc` by exactly 1 |
| CpuModel.IndirectHighByteAddress | src/cpu.rs:220-225 | the high byte of an indirect target is read at the pointer plus 0x100 (wrapping), in the same column as the pointer |
| CpuModel.IndirectAddress | src/cpu.rs:210-228 | the indirect target's low byte is read at the pointer, and its high byte at the pointer plus 0x100 |
| CpuModel.ReadIndirectAddress | src/cpu.rs:208-229 | `read_indirect_address` returns the indirect target and advances `pc` by exactly 1 |
| CpuModel.CommentedHighByteAddress | src/cpu.rs:205-207 | where the doc comment puts the high byte: the same page, low byte plus one (wrapping) |
| CpuModel.IndirectDisagreesWithComment | src/cpu.rs:205-225 | for every pointer, the code reads the high byte elsewhere than the comment says; 0x02FF gives 0x03FF, not 0x0200 |
| CpuModel.ZeroPagePointer | src/cpu.rs:234-237 | a zero-page pointer's bytes are read at `zp` and at `zp + 1`, wrapping inside page 0 |
| CpuModel.IndirectIndexedAddress | src/cpu.rs:233-242 | "(zp),Y" is the zero-page pointer named at `pc` plus the offset: subtracting the offset modulo 65536 gives back the pointer |
| CpuModel.IndexedIndirectAddress | src/cpu.rs:245-251 | "(zp,X)" is the zero-page pointer at the byte at `pc` plus the offset, modulo 256 |
| CpuModel.IndexFor | src/cpu.rs:125-137 | the X-indexed modes add X, the Y-indexed modes add Y, every other mode adds 0 |
| CpuModel.OperandAddress | src/cpu.rs:142-171 | exactly the indirect, implied/accumulator and relative modes are left unresolved; an immediate operand is at `pc`; a zero-page operand stays below 0x100; "(zp,X)" and "(zp),Y" go through the indexed-indirect and indirect-indexed addresses with X and Y |
| CpuModel.ReadValue | src/cpu.rs:123-174 | `read_value` returns the byte at the operand address and changes nothing but `pc`; `pc` moves by one only for the absolute modes; the unresolved modes read 0 |
| CpuModel.ReadValueOperands | src/cpu.rs:142-166 | the immediate operand is the byte at `pc`; "(zp,X)" reads at the indexed-indirect address with X, "(zp),Y" at the indirect-indexed address with Y |
| CpuModel.ZeroPageOperandWraps | src/cpu.rs:145-151 | zero-page operands are read at the operand byte plus the index modulo 256, always inside page 0 |
| CpuModel.AbsoluteOperand | src/cpu.rs:152-158 | absolute operands are read at the little-endian word plus the index modulo 65536 |
| CpuModel.UnresolvedModesReadZero | src/cpu.rs:167-171 | Indirect, Single and Relative read 0 and leave the machine unchanged |
| CpuModel.Reset | src/cpu.rs:345-353 | `reset` loads `pc` from the little-endian reset vector at 0xFFFC–0xFFFD and changes nothing else |
| CpuModel.ResetExample | src/cpu.rs:345-353 | 0x34, 0x12 in the reset vector starts the program at 0x1234 |
| CpuModel.LdaMode | src/cpu.rs:289-328 | every LDA opcode `execute_instruction` decodes names a mode `read_value` resolves, and none names ZeroY |
| CpuModel.LdaOpcodes | src/cpu.rs:289-328 | the decoded LDA opcodes are exactly the bit pattern 101bbb01, the 6502's LDA group |
| CpuModel.Execute | src/cpu.rs:283-329 | `execute_instruction` changes only A, the status and `pc`; JMP sets `pc` to the absolute address; LDA loads the operand into A and updates Z and N from it; any other opcode changes nothing |
| CpuModel.Step | src/cpu.rs:332-342 | a step changes only A, the status and `pc`, never memory, X, Y, `sp` or `cycles` |
| CpuModel.StepLdaImmediate | src/cpu.rs:289-293 | a step on 0xA9 loads the next byte into A, updates Z and N from it, and moves `pc` on by 2 |
| CpuModel.StepLdaAbsolute | src/cpu.rs:304-308 | a step on 0xAD loads from the little-endian address after the opcode and moves `pc` on by 3 |
| CpuModel.StepLda | src/cpu.rs:289-328 | for each of the eight LDA opcodes, a step loads the operand of its mode, updates Z and N, and moves `pc` on by 3 (absolute modes) or 2 |
| CpuModel.StepJmpAbsolute | src/cpu.rs:285-288 | a step on 0x4C sets `pc` to the target plus 1 and changes nothing else |
| CpuModel.StepOther | src/cpu.rs:332-342 | a step on any other opcode moves `pc` on by 2 and changes nothing else |
| CpuModel.LoadPositiveAfterNegative | src/cpu.rs:183-190 | after `LDA #$80; LDA #$01`, A is 1 with Zero clear but Negative still set |
| CpuModel.DecodeAgreesWithTable | src/cpu.rs:283-329 | each opcode decoded by hand is the table's LDA entry in the same mode, and 0x4C is the table's JMP absolute |
| Cpu.GetFlagConstant | src/cpu.rs:87-112 | the search always finds the flag within the array, and answers that flag's constant |
| Cpu.Cpu.constructor | src/cpu.rs:69-83 | a new CPU holds the power-on machine |
| Cpu.Cpu.Fetch | src/cpu.rs:259-261 | `fetch` reads the machine's byte at the address |
| Cpu.Cpu.Store | src/cpu.rs:254-256 | `store` moves the object to `CpuModel.Store` of its old state |
| Cpu.Cpu.SetFlag | src/cpu.rs:116-119 | `set_flag` changes only `status`, to `CpuModel.WithFlag` of the old status |
| Cpu.Cpu.UpdateStatus | src/cpu.rs:178-191 | `update_status`, through its `set_flag` calls, changes only `status`, to `CpuModel.UpdatedStatus` |
| Cpu.Cpu.ReadAbsoluteAddress | src/cpu.rs:195-201 | returns and moves to what `CpuModel.ReadAbsoluteAddress` gives |
| Cpu.Cpu.ReadIndirectAddress | src/cpu.rs:208-229 | returns and moves to what `CpuModel.ReadIndirectAddress` gives |
| Cpu.Cpu.ReadIndirectIndexedAddress | src/cpu.rs:233-242 | equals `CpuModel.IndirectIndexedAddress` of the object's state |
| Cpu.Cpu.ReadIndexedIndirectAddress | src/cpu.rs:245-251 | equals `CpuModel.IndexedIndirectAddress` of the object's state |
| Cpu.Cpu.Push | src/cpu.rs:266-270 | moves the object to `CpuModel.Push` of its old state |
| Cpu.Cpu.Pop | src/cpu.rs:275-280 | returns and moves to what `CpuModel.Pop` gives |
| Cpu.Cpu.ReadValue | src/cpu.rs:123-174 | returns and moves to what `CpuModel.ReadValue` gives |
| Cpu.Cpu.LoadAccumulator | src/cpu.rs:289-293 | one LDA branch: A and the status become the operand and its updated status |
| Cpu.Cpu.ExecuteInstruction | src/cpu.rs:283-329 | moves the object to `CpuModel.Execute` of its old state |
| Cpu.Cpu.Step | src/cpu.rs:332-342 | moves the object to `CpuModel.Step` of its old state |
| Cpu.Cpu.Reset | src/cpu.rs:345-353 | moves the object to `CpuModel.Reset` of its old state |
| Instructions.Lookup | src/cpu/instruction.rs:42-1021 | every entry of the table (the grid `Cell`, `Row0`..`RowF`) records the opcode it is filed under |
| Instructions.TableSize | src/cpu/instruction.rs:40-1021 | exactly 151 of the 256 opcodes have an entry |
| Instructions.NoUndocumentedColumn | src/cpu/instruction.rs:40-41 | no entry has both low opcode bits set, the columns holding only unofficial opcodes |
| Instructions.TimeInRange | src/cpu/instruction.rs:42-1021 | every base cycle count lies between 2 and 7 |
| Instructions.RelativeIsBranch | src/cpu/instruction.rs:189-246 | an entry is Relative if and only if its mnemonic is one of the eight branches, and those take 3 cycles |
| Instructions.AccumulatorOnlyShifts | src/cpu/instruction.rs:144-149 | Accumulator mode occurs exactly at 0x0A ASL, 0x4A LSR, 0x2A ROL and 0x6A ROR, each taking 2 cycles |
| Instructions.IndirectOnlyJmp | src/cpu/instruction.rs:500-505 | Indirect mode occurs exactly at 0x6C JMP, taking 5 cycles |
| Instructions.ZeroYOnlyLdxStx | src/cpu/instruction.rs:578-583 | ZeroY mode occurs exactly at 0xB6 LDX and 0x96 STX, each taking 4 cycles |
| Instructions.FlagInstructionsImplied | src/cpu/instruction.rs:422-465 | the seven flag instructions are all Implied, taking 2 cycles |
| Instructions.RegisterInstructionsImplied | src/cpu/instruction.rs:719-768 | the register transfers, increments and decrements are all Implied, taking 2 cycles |
| Instructions.StoresNeverImmediate | src/cpu/instruction.rs:900-1020 | STA, STX and STY never use Immediate |
| Instructions.SomeOpcodeFor | src/cpu/instruction.rs:8-13 | each of the 56 mnemonics has at least one entry |
| Mem.Mirror | src/mem.rs:18 | the cell an address reaches is below 0x800 and congruent to the address modulo 0x800 |
| Mem.MirrorsAlias | src/mem.rs:17-19 | two addresses reach the same cell if and only if they differ by a multiple of 0x800 |
| Mem.MirrorLayout | src/mem.rs:13-19 | an address below 0x800 is its own cell, and addresses 0x800 apart share a cell |
| Mem.ReadRam | src/mem.rs:17-19 | a read returns a byte of the RAM |
| Mem.MirrorsReadAlike | src/mem.rs:17-19 | two addresses 0x800 apart (any multiple) read the same byte |
| Mem.WriteRam | src/mem.rs:21-23 | after a write, the RAM keeps its size and the written address reads the value |
| Mem.ReadAfterWrite | src/mem.rs:17-23 | after `write(a, v)`, every mirror of `a` reads `v` and every other address reads as before |
| Mem.WriteWhatWasRead | src/mem.rs:17-23 | writing back what was read leaves the RAM unchanged |
| Mem.LaterWriteWins | src/mem.rs:21-23 | of two writes to mirrors of one cell, only the later is kept |
| Mem.CpuRam.constructor | src/mem.rs:27-31 | `CpuRam::new` holds 0 in every cell, so every address reads 0 |
| Mem.CpuRam.Read | src/mem.rs:17-19 | `read` is `ReadRam` of the array's contents |
| Mem.CpuRam.Write | src/mem.rs:21-23 | `write` changes the array to `WriteRam` of its old contents; every mirror of the address then reads the value, and every other address is unchanged |

## Left out

- `src/main.rs`: loading a file, pacing against the wall clock, and printing. It also calls CPU functions that `src/cpu.rs` does not define.
- `src/nes.rs`: the PPU registers are aliased into CPU memory through raw pointers, and it uses a `CPU::new` that does not exist. The `ppu` module is not part of this model.
- `src/iNES.rs`: `read_ines` returns fixed placeholder values, so there is no header format to model.
- `src/mapper/mod.rs`: it is an empty trait.
- The `Mem` trait: Dafny traits are not used. Its two operations are modelled as `CpuRam.Read` and `CpuRam.Write`.
- The semantics of the other 54 mnemonics are not modelled, because `src/cpu.rs` never executes them. This covers ADC, SBC, the branches, JSR, RTS, RTI, BRK and the stack instructions. The same goes for cycle accounting and halting.
- The `phf` perfect hash behind `INSTRUCTIONS`: the table is a match on the opcode's two nibbles, with one entry per opcode, as the map has.
- Instructions: that each mnemonic and mode pair has at most one opcode is not proved.
- Bytes.WordOf: the code builds a word as `lo as u16 | (hi as u16) << 8`. The model uses `hi * 256 + lo`, which is equal for bytes, but that equality is not proved. Likewise, `Mem.Mirror` is `address % 0x800` where the code masks with `& 0x7ff`.
- Bytes.AddByte: a debug build of the code panics on `u8`/`u16` overflow. The model wraps, as release builds and the code's comments do.
- `cycles` is a `u64` and is modelled as an unbounded `nat`. The code never changes it.
- The NMI and IRQ vectors are constants only. Nothing in the code reads them.
