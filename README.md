# A verified model of the nesulator3 6502 core

This project models the MOS 6502 interpreter of `nesulator3/cpu.cpp` in Dafny:
- the status-flag helpers;
- the device bus (`basicRead`, `basicWrite`);
- the stack primitives (`push`, `pop`);
- the addressing-mode resolvers (`imm`, `accRead`, `zpgRead` … `indyWrite`, `abs16`, `ind16`, `rel`);
- every instruction template;
- the 256-entry dispatch table `cpu6502opmap`.

The model has two layers.

- **Pure layer.** A `Machine.State` value holds the registers, the status byte, the pending-interrupt byte and the bus. The bus is a sequence of device images in registration order.
  - Every resolver is a function from a state to its value and new state.
  - Every template is a function from a state to a state.
  - The opcode table is a constant sequence of `OpMap.Entry` values, each a template with its `clockcycles` argument.
  - `Instructions.Exec` and `OpMap.Step` call one entry.
- **Imperative layer.** The `J6502.Cpu` class updates the `cpu6502` record in place, as the source does. Each of its methods is proved to leave the record as the pure function computes.
  - The registers are fields and the devices are `J6502.Device` objects holding byte arrays.
  - `BasicRead` and `BasicWrite` are the scanning loops of the source.

Integer widths follow C:
- Bytes are `bv8` and addresses are `int`s in [0, 0x10000).
- Every truncation to `uint8_t` or `uint16_t` is written out.

The model is faithful to the code as written, including its departures from the 6502:
- `basicRead` stops at the first covering device, but `basicWrite` writes to every covering device.
- `JSR` and `BRK` push only `PC & 0xf` as the low byte.
- `pop` never moves SP, so `RTS` and `RTI` read one byte twice and `PLA`/`PLP` leave SP where it is.
- `ROL` and `ROR` are 8-bit rotations that ignore the incoming carry.
- `SBC` collapses its sum to 0 or 1 (`?:` binds looser than `+`).
- The compare templates set C when the register is below the operand.
- `BEQ` tests the mask constant, so it never branches.
- `INC` sets no flag.
- `indyWrite` advances PC by one.
- `BRK` loads no vector.
- Opcode 0xF8 is `CLV`, so `SED` is unreachable through the table.
- `INC zpg` (0xE6) writes through `zpgxWrite`.
- A read-modify-write template on memory (`ASL`, `LSR`, `ROL`, `ROR`, `INC`, `DEC`) fetches its operand twice: the read primitive and then the write primitive each take their operand at PC and advance it. The write address therefore comes from the bytes after the read operand, and PC moves by both widths (`Properties.IncFetchesTwice`).
- `indyRead` and `indyWrite` keep the pointer in a `uint8_t`, so the effective address is the zero-page byte `ptr_lo | Y` (`Machine.IndyAddress`).
- `xindRead` and `xindWrite` read the pointer's high byte at the index + 1, which is 0x100 when the index is 0xFF; there is no wrap within the zero page (`Machine.XindAddress`).
- `BIT` takes N and V from `A & m`, not from the operand alone (`Instructions.Bit`).

`BCC` ends in `while (true)` when it leaves PC below 0x4000. That loop is the `Hang` outcome of `Exec`, and the `hangs` result of `J6502.Cpu.Bcc`.

`readfun` and `writefun` in `nesulator3/emulatorGlue.h` are function pointers into device code the model cannot see. They are modelled as reading and storing a byte at the offset into a device-owned buffer of `length` bytes (`J6502.Device.ReadFun`, `J6502.Device.WriteFun`).

## Model

| member | source | states |
|---|---|---|
| Flags.SetFlag | nesulator3/cpu.cpp:21-23 | the mask's bits are set and every other bit of the status byte is kept |
| Flags.UnsetFlag | nesulator3/cpu.cpp:32-34 | the mask's bits are cleared and every other bit is kept |
| Flags.SetFlagTo | nesulator3/cpu.cpp:26-29 | the mask's bits are set when `state` holds and cleared otherwise; every other bit is kept |
| Flags.SetFlagToKeeps | nesulator3/cpu.cpp:26-29 | a flag outside the mask tests the same after `setFlag(mask, state)` |
| Flags.TestAfterSet | nesulator3/cpu.cpp:26-29 | `testFlag(mask)` after `setFlag(mask, state)` returns `state` |
| Flags.Donz | nesulator3/cpu.cpp:42-45 | N is set iff bit 7 of the value is set, Z iff the value is 0; no other flag changes |
| Flags.Donzc | nesulator3/cpu.cpp:48-52 | N and Z follow the low byte of the 16-bit value, C is set iff bit 8 (0x100) is set; no other flag changes |
| Bus.WriteOne | nesulator3/cpu.cpp:68-75 | one device after the write: it stores the value at `address - start` when its window covers the address, and is unchanged otherwise |
| Bus.Write | nesulator3/cpu.cpp:68-75 | every device is updated by `WriteOne` (the scan does not stop at a match); the number and order of devices and their well-formedness are kept |
| Bus.ReadFirstMatch | nesulator3/cpu.cpp:58-66 | `basicRead` returns the byte at offset `address - start` of the first device in registration order whose window covers the address |
| Bus.ReadUnmapped | nesulator3/cpu.cpp:58-66 | an address that no device covers reads as 0 |
| Bus.ReadAfterWrite | nesulator3/cpu.cpp:58-75 | a written byte reads back at its address when some device covers it |
| Bus.ReadOtherAfterWrite | nesulator3/cpu.cpp:58-75 | a write leaves every other address reading as before |
| Bus.MappedAfterWrite | nesulator3/cpu.cpp:68-75 | a write does not change which addresses are covered |
| Machine.Push | nesulator3/cpu.cpp:77-79 | the value is written at 0x0100 + SP, SP becomes (SP - 1) mod 256, and nothing else changes |
| Machine.Pop | nesulator3/cpu.cpp:81-83 | the byte at 0x0100 + ((SP + 1) mod 256); the caller's state is not changed |
| Machine.IndyAddress | nesulator3/cpu.cpp:205-222 | the effective address is `(ptr_lo | Y)`, with ptr_lo the byte at the zero-page pointer (precedence of `+` over `|` and the `uint8_t` cast) |
| Machine.ImmRead | nesulator3/cpu.cpp:160-165 | the operand is the byte at PC and PC advances by one |
| Machine.AccRead | nesulator3/cpu.cpp:108-113 | the operand is A and the state is unchanged |
| Machine.ZpgRead | nesulator3/cpu.cpp:229-236 | the byte at the zero-page address at PC; PC advances by one |
| Machine.ZpgxRead | nesulator3/cpu.cpp:246-253 | the byte at (operand + X) mod 256; PC advances by one |
| Machine.ZpgyRead | nesulator3/cpu.cpp:263-270 | the byte at (operand + Y) mod 256; PC advances by one |
| Machine.AbsRead | nesulator3/cpu.cpp:89-97 | the byte at lo + 256 * hi of the two operand bytes; PC advances by two (mod 65536) |
| Machine.AbsxRead | nesulator3/cpu.cpp:122-129 | the byte at (lo | hi << 8) + X mod 65536; PC advances by two |
| Machine.AbsyRead | nesulator3/cpu.cpp:139-146 | the byte at (lo | hi << 8) + Y mod 65536; PC advances by two |
| Machine.IndRead | nesulator3/cpu.cpp:167-175 | the byte at the pointer stored at the operand word; PC advances by two |
| Machine.XindRead | nesulator3/cpu.cpp:186-194 | the byte at the pointer read at (operand + X) mod 256 and the next address; PC advances by two |
| Machine.IndyRead | nesulator3/cpu.cpp:205-213 | the byte at (ptr_lo | Y); PC advances by two |
| Machine.ReadOperand | nesulator3/cpu.cpp:89-278 | a read primitive changes nothing but PC, which moves by 0 (`accRead`), 1 (`imm`, `zpg*`) or 2 (`abs*`, `ind*`, `xind*`, `indy*`) |
| Machine.AccWrite | nesulator3/cpu.cpp:115-120 | A takes the value and nothing else changes |
| Machine.ZpgWrite | nesulator3/cpu.cpp:238-244 | the value is written at the zero-page address at PC; PC advances by one |
| Machine.ZpgxWrite | nesulator3/cpu.cpp:255-261 | the value is written at (operand + X) mod 256; PC advances by one |
| Machine.ZpgyWrite | nesulator3/cpu.cpp:272-278 | the value is written at (operand + Y) mod 256; PC advances by one |
| Machine.AbsWrite | nesulator3/cpu.cpp:99-106 | the value is written at the operand word; PC advances by two |
| Machine.AbsxWrite | nesulator3/cpu.cpp:131-137 | the value is written at (operand word + X) mod 65536; PC advances by two; nothing else changes |
| Machine.AbsyWrite | nesulator3/cpu.cpp:148-154 | the value is written at (operand word + Y) mod 65536; PC advances by two; nothing else changes |
| Machine.IndWrite | nesulator3/cpu.cpp:177-184 | the value is written at the pointer stored at the operand word; PC advances by two |
| Machine.XindWrite | nesulator3/cpu.cpp:196-203 | the value is written at the (operand + X) mod 256 pointer; PC advances by two |
| Machine.IndyWrite | nesulator3/cpu.cpp:215-222 | the value is written at (ptr_lo | Y); PC advances by one only |
| Machine.WriteOperand | nesulator3/cpu.cpp:99-278 | PC moves by the mode's width; `accWrite` changes A only, every other mode changes the bus only; flags, SP, X, Y and the interrupt byte are kept |
| Machine.RelRead | nesulator3/cpu.cpp:280-285 | the branch target is (PC + 1 + signed offset byte) mod 65536 and PC advances past the offset byte |
| Machine.Abs16Read | nesulator3/cpu.cpp:156-158 | the operand word lo + 256 * hi; PC does not move |
| Machine.Ind16Read | nesulator3/cpu.cpp:224-227 | the pointer stored at the operand word; PC does not move |
| Machine.ReadWord | nesulator3/cpu.cpp:156-285 | only `rel` moves PC (by one); `abs16` and `ind16` leave the state unchanged |
| Instructions.Clc | nesulator3/cpu.cpp:326-329 | clears C; no other flag and no register changes |
| Instructions.Sec | nesulator3/cpu.cpp:379-383 | sets C; no other flag and no register changes |
| Instructions.Cli | nesulator3/cpu.cpp:448-452 | clears I; no other flag and no register changes |
| Instructions.Sei | nesulator3/cpu.cpp:507-511 | sets I; no other flag and no register changes |
| Instructions.Clv | nesulator3/cpu.cpp:598-602 | clears V; no other flag and no register changes |
| Instructions.Cld | nesulator3/cpu.cpp:668-672 | clears D; no other flag and no register changes |
| Instructions.Sed | nesulator3/cpu.cpp:712-716 | sets D; no other flag and no register changes |
| Instructions.Lda | nesulator3/cpu.cpp:577-582 | A takes the operand, N and Z follow it, other flags kept; PC moves past the operand |
| Instructions.Ldx | nesulator3/cpu.cpp:584-589 | X takes the operand, N and Z follow it, other flags kept |
| Instructions.Ldy | nesulator3/cpu.cpp:570-575 | Y takes the operand, N and Z follow it, other flags kept |
| Instructions.Sta | nesulator3/cpu.cpp:513-517 | A goes through the write primitive; no flag and no register but PC changes |
| Instructions.Stx | nesulator3/cpu.cpp:519-523 | X goes through the write primitive; flags, X, Y and SP are kept |
| Instructions.Sty | nesulator3/cpu.cpp:525-529 | Y goes through the write primitive; flags, X, Y and SP are kept |
| Instructions.Tax | nesulator3/cpu.cpp:604-609 | X takes A, N and Z follow A; nothing else changes |
| Instructions.Tay | nesulator3/cpu.cpp:591-596 | Y takes A, N and Z follow A; nothing else changes |
| Instructions.Txa | nesulator3/cpu.cpp:538-543 | A takes X, N and Z follow it; nothing else changes |
| Instructions.Tya | nesulator3/cpu.cpp:545-550 | A takes Y, N and Z follow it; nothing else changes |
| Instructions.Tsx | nesulator3/cpu.cpp:611-616 | X takes SP, N and Z follow it; nothing else changes |
| Instructions.Txs | nesulator3/cpu.cpp:552-556 | SP takes X; the flags do not change |
| Instructions.Inx | nesulator3/cpu.cpp:705-710 | X becomes (X + 1) mod 256, N and Z follow it; nothing else changes |
| Instructions.Iny | nesulator3/cpu.cpp:661-666 | Y becomes (Y + 1) mod 256, N and Z follow it |
| Instructions.Dex | nesulator3/cpu.cpp:654-659 | X becomes (X - 1) mod 256, N and Z follow it |
| Instructions.Dey | nesulator3/cpu.cpp:531-536 | Y becomes (Y - 1) mod 256, N and Z follow it |
| Instructions.Inc | nesulator3/cpu.cpp:692-696 | for every mode pair: PC moves by the read width and then the write width; in a memory mode (operand + 1) mod 256 is written at the address fetched after the read operand and only PC and the bus change; in accumulator mode only A and PC change; no flag changes |
| Instructions.Dec | nesulator3/cpu.cpp:646-652 | (operand - 1) mod 256 goes through the write primitive; N and Z follow it, other flags kept |
| Instructions.Ora | nesulator3/cpu.cpp:332-337 | A becomes A or operand, N and Z follow it; PC moves past the operand |
| Instructions.And | nesulator3/cpu.cpp:386-392 | A becomes A and operand, N and Z follow it |
| Instructions.Eor | nesulator3/cpu.cpp:455-460 | A becomes A xor operand, N and Z follow it |
| Instructions.Bit | nesulator3/cpu.cpp:364-369 | N and Z follow A & operand, V becomes bit 6 of A & operand; A is kept; no other flag changes |
| Instructions.ShiftLeftStatus | nesulator3/cpu.cpp:340-345 | after `donzc` of the doubled operand, C is the operand's bit 7 and N, Z follow the low byte; other flags kept |
| Instructions.Asl | nesulator3/cpu.cpp:340-345 | the low byte of operand << 1 goes through the write primitive; C is the old bit 7, N and Z follow the written byte |
| Instructions.ShiftRightStatus | nesulator3/cpu.cpp:437-445 | N is clear, Z iff m >> 1 is 0, C is bit 0 of m; other flags kept |
| Instructions.Lsr | nesulator3/cpu.cpp:437-445 | operand >> 1 goes through the write primitive; N is clear, Z follows the result, C is the old bit 0 |
| Instructions.RotateLeft | nesulator3/cpu.cpp:395-403 | the byte shifted left by one with the old bit 7 moved to bit 0 |
| Instructions.RotateRight | nesulator3/cpu.cpp:482-490 | the byte shifted right by one with the old bit 0 moved to bit 7 |
| Instructions.RotateStatus | nesulator3/cpu.cpp:395-403 | C is the given carry, N and Z follow the rotated byte; other flags kept |
| Instructions.Rol | nesulator3/cpu.cpp:395-403 | 8-bit rotation left through the write primitive, ignoring the incoming C; C becomes the bit that wrapped (old bit 7); N and Z follow the result |
| Instructions.Ror | nesulator3/cpu.cpp:482-490 | 8-bit rotation right, ignoring the incoming C; C becomes the old bit 0, which is also the new N |
| Instructions.AddTotal | nesulator3/cpu.cpp:474-474 | `v + A + C` after integer promotion: between 0 and 0x1FF |
| Instructions.AddStatus | nesulator3/cpu.cpp:470-480 | C iff the sum is at least 0x100, N and Z follow its low byte, V is bit 7 of ~(m ^ A) & (m ^ sum); other flags kept |
| Instructions.AdcEffect | nesulator3/cpu.cpp:470-480 | ADC: A = (A + m + C) mod 256, C = (A + m + C >= 256), N and Z follow A', V = bit 7 of ~(m ^ A) & (m ^ A'); only PC, A and those flags change |
| Instructions.SubtractStatus | nesulator3/cpu.cpp:681-690 | for a 16-bit result of 0 or 1: N and C are clear, Z iff the result is 0, V from `mayover & (v ^ A')`; other flags kept |
| Instructions.Swallowed | nesulator3/cpu.cpp:685-685 | `A + v + testFlag(C) ? 1 : 0` as parsed: 0 iff A + v + C is 0, else 1 |
| Instructions.SbcEffect | nesulator3/cpu.cpp:681-690 | SBC as written: A becomes 1 unless A + ~m + C is 0; N and C are cleared, Z iff A' is 0, V = bit 7 of ~(v ^ A) & (v ^ A'); only PC, A and those flags change |
| Instructions.CompareStatus | nesulator3/cpu.cpp:625-630 | `donzc` of (register - m) in 16 bits: Z iff equal, C iff register < m, N = bit 7 of (register - m) mod 256 |
| Instructions.Compare | nesulator3/cpu.cpp:625-644 | Z iff register equals operand, C iff register is below it, N from (register - operand) mod 256; no register but PC changes |
| Instructions.Cmp | nesulator3/cpu.cpp:625-630 | CMP: Z iff A equals the operand, C iff A is below it; no register changes |
| Instructions.Cpx | nesulator3/cpu.cpp:674-679 | CPX: Z iff X equals the operand, C iff X is below it |
| Instructions.Cpy | nesulator3/cpu.cpp:639-644 | CPY: Z iff Y equals the operand, C iff Y is below it |
| Instructions.BranchIf | nesulator3/cpu.cpp:319-323 | for `rel`, PC is the target when the test holds and just past the offset otherwise; only PC changes |
| Instructions.Beq | nesulator3/cpu.cpp:698-703 | BEQ as written tests the mask constant, so it behaves as a branch that is never taken |
| Instructions.LowNibble | nesulator3/cpu.cpp:351-351 | `PC & 0xf` as a byte: PC mod 16 |
| Instructions.HighByte | nesulator3/cpu.cpp:352-352 | `PC >> 8` as a byte: PC div 256 |
| Instructions.PushReturn | nesulator3/cpu.cpp:350-352 | PC advances by two and SP drops by two; only PC, SP and the bus change |
| Instructions.Jmp | nesulator3/cpu.cpp:422-426 | PC takes the 16-bit operand |
| Instructions.Jsr | nesulator3/cpu.cpp:348-355 | pushes the low nibble and then the high byte of PC + 2, and PC becomes the target; SP drops by two; A, X, Y, flags and interrupts are kept |
| Instructions.Rts | nesulator3/cpu.cpp:463-467 | PC becomes 0x101 times the byte above SP (the same byte popped twice); SP does not move |
| Instructions.Rti | nesulator3/cpu.cpp:406-412 | flags and both halves of PC come from the same stack byte; SP does not move |
| Instructions.Pha | nesulator3/cpu.cpp:415-419 | pushes A; A, flags and PC are kept |
| Instructions.Php | nesulator3/cpu.cpp:313-316 | pushes the status byte; A, flags and PC are kept |
| Instructions.Pla | nesulator3/cpu.cpp:492-497 | A takes the byte above SP, N and Z follow it; SP does not move |
| Instructions.Plp | nesulator3/cpu.cpp:358-361 | the status byte takes the byte above SP; SP does not move |
| Instructions.BrkEffect | nesulator3/cpu.cpp:301-310 | BRK: pushes PC+2's low nibble, its high byte and the status byte; SP drops by three, PC is PC + 2, B and interrupt bit 1 are set, A, X and Y are kept |
| OpMap.AllFacts | nesulator3/cpu.cpp:718-736 | every opcode satisfies `Facts`: cycle counts, branch positions, no `SED`, read/write modes |
| OpMap.CycleCounts | nesulator3/cpu.cpp:718-736 | an undefined entry returns 0 cycles, 0xEA returns 2, every defined entry 2 to 7 |
| OpMap.BranchColumn | nesulator3/cpu.cpp:718-736 | the branches are exactly the opcodes with low five bits 0x10, each with 2 cycles |
| OpMap.SedUnreachable | nesulator3/cpu.cpp:735-735 | no opcode selects `SED`; `CLV` is at both 0xB8 and 0xF8 |
| OpMap.ReadModifyWriteModes | nesulator3/cpu.cpp:734-734 | every read-modify-write entry reads and writes with the same mode except 0xE6, `INC` with `zpgRead`/`zpgxWrite`, 5 cycles |
| J6502.Device.ReadFun | nesulator3/emulatorGlue.h:7-7 | the external `readfun`, modelled as returning the stored byte at the offset |
| J6502.Device.WriteFun | nesulator3/emulatorGlue.h:8-8 | the external `writefun`, modelled as storing the byte at the offset and nothing else |
| J6502.Cpu.BasicRead | nesulator3/cpu.cpp:58-66 | the scanning loop returns `Bus.Read` of the device images: the first covering device's byte, or 0 |
| J6502.Cpu.BasicWrite | nesulator3/cpu.cpp:68-75 | the scanning loop leaves the device images as `Bus.Write` of the old ones: every covering device stores the value |
| J6502.Cpu.Push | nesulator3/cpu.cpp:77-79 | the record after the call is `Machine.Push` of the record before |
| J6502.Cpu.Pop | nesulator3/cpu.cpp:81-83 | returns `Machine.Pop` of the record and changes nothing (the record is passed by value) |
| J6502.Cpu.Imm | nesulator3/cpu.cpp:160-165 | returns the operand of `Machine.ImmRead` and leaves the record as its new state |
| J6502.Cpu.AccRead | nesulator3/cpu.cpp:108-113 | returns the operand of `Machine.AccRead` and leaves the record as its new state |
| J6502.Cpu.ZpgRead | nesulator3/cpu.cpp:229-236 | returns the operand of `Machine.ZpgRead` and leaves the record as its new state |
| J6502.Cpu.ZpgxRead | nesulator3/cpu.cpp:246-253 | returns the operand of `Machine.ZpgxRead` and leaves the record as its new state |
| J6502.Cpu.ZpgyRead | nesulator3/cpu.cpp:263-270 | returns the operand of `Machine.ZpgyRead` and leaves the record as its new state |
| J6502.Cpu.AbsRead | nesulator3/cpu.cpp:89-97 | returns the operand of `Machine.AbsRead` and leaves the record as its new state |
| J6502.Cpu.AbsxRead | nesulator3/cpu.cpp:122-129 | returns the operand of `Machine.AbsxRead` and leaves the record as its new state |
| J6502.Cpu.AbsyRead | nesulator3/cpu.cpp:139-146 | returns the operand of `Machine.AbsyRead` and leaves the record as its new state |
| J6502.Cpu.IndRead | nesulator3/cpu.cpp:167-175 | returns the operand of `Machine.IndRead` and leaves the record as its new state |
| J6502.Cpu.XindRead | nesulator3/cpu.cpp:186-194 | returns the operand of `Machine.XindRead` and leaves the record as its new state |
| J6502.Cpu.IndyRead | nesulator3/cpu.cpp:205-213 | returns the operand of `Machine.IndyRead` and leaves the record as its new state |
| J6502.Cpu.AccWrite | nesulator3/cpu.cpp:115-120 | the record after the call is `Machine.AccWrite` of the record before |
| J6502.Cpu.ZpgWrite | nesulator3/cpu.cpp:238-244 | the record after the call is `Machine.ZpgWrite` of the record before |
| J6502.Cpu.ZpgxWrite | nesulator3/cpu.cpp:255-261 | the record after the call is `Machine.ZpgxWrite` of the record before |
| J6502.Cpu.ZpgyWrite | nesulator3/cpu.cpp:272-278 | the record after the call is `Machine.ZpgyWrite` of the record before |
| J6502.Cpu.AbsWrite | nesulator3/cpu.cpp:99-106 | the record after the call is `Machine.AbsWrite` of the record before |
| J6502.Cpu.AbsxWrite | nesulator3/cpu.cpp:131-137 | the record after the call is `Machine.AbsxWrite` of the record before |
| J6502.Cpu.AbsyWrite | nesulator3/cpu.cpp:148-154 | the record after the call is `Machine.AbsyWrite` of the record before |
| J6502.Cpu.IndWrite | nesulator3/cpu.cpp:177-184 | the record after the call is `Machine.IndWrite` of the record before |
| J6502.Cpu.XindWrite | nesulator3/cpu.cpp:196-203 | the record after the call is `Machine.XindWrite` of the record before |
| J6502.Cpu.IndyWrite | nesulator3/cpu.cpp:215-222 | the record after the call is `Machine.IndyWrite` of the record before |
| J6502.Cpu.Rel | nesulator3/cpu.cpp:280-285 | returns the `rel` target of `Machine.RelRead` and advances PC past the offset byte |
| J6502.Cpu.Abs16 | nesulator3/cpu.cpp:156-158 | returns the operand word; nothing changes |
| J6502.Cpu.Ind16 | nesulator3/cpu.cpp:224-227 | returns the pointer stored at the operand word; nothing changes |
| J6502.Cpu.Clc | nesulator3/cpu.cpp:326-329 | the in-place handler leaves the record as `Instructions.Clc` of the record before |
| J6502.Cpu.Sec | nesulator3/cpu.cpp:379-383 | the in-place handler leaves the record as `Instructions.Sec` of the record before |
| J6502.Cpu.Cli | nesulator3/cpu.cpp:448-452 | the in-place handler leaves the record as `Instructions.Cli` of the record before |
| J6502.Cpu.Sei | nesulator3/cpu.cpp:507-511 | the in-place handler leaves the record as `Instructions.Sei` of the record before |
| J6502.Cpu.Clv | nesulator3/cpu.cpp:598-602 | the in-place handler leaves the record as `Instructions.Clv` of the record before |
| J6502.Cpu.Cld | nesulator3/cpu.cpp:668-672 | the in-place handler leaves the record as `Instructions.Cld` of the record before |
| J6502.Cpu.Sed | nesulator3/cpu.cpp:712-716 | the in-place handler leaves the record as `Instructions.Sed` of the record before |
| J6502.Cpu.Lda | nesulator3/cpu.cpp:577-582 | the in-place handler leaves the record as `Instructions.Lda` of the record before |
| J6502.Cpu.Ldx | nesulator3/cpu.cpp:584-589 | the in-place handler leaves the record as `Instructions.Ldx` of the record before |
| J6502.Cpu.Ldy | nesulator3/cpu.cpp:570-575 | the in-place handler leaves the record as `Instructions.Ldy` of the record before |
| J6502.Cpu.Sta | nesulator3/cpu.cpp:513-517 | the in-place handler leaves the record as `Instructions.Sta` of the record before |
| J6502.Cpu.Stx | nesulator3/cpu.cpp:519-523 | the in-place handler leaves the record as `Instructions.Stx` of the record before |
| J6502.Cpu.Sty | nesulator3/cpu.cpp:525-529 | the in-place handler leaves the record as `Instructions.Sty` of the record before |
| J6502.Cpu.Tax | nesulator3/cpu.cpp:604-609 | the in-place handler leaves the record as `Instructions.Tax` of the record before |
| J6502.Cpu.Tay | nesulator3/cpu.cpp:591-596 | the in-place handler leaves the record as `Instructions.Tay` of the record before |
| J6502.Cpu.Txa | nesulator3/cpu.cpp:538-543 | the in-place handler leaves the record as `Instructions.Txa` of the record before |
| J6502.Cpu.Tya | nesulator3/cpu.cpp:545-550 | the in-place handler leaves the record as `Instructions.Tya` of the record before |
| J6502.Cpu.Tsx | nesulator3/cpu.cpp:611-616 | the in-place handler leaves the record as `Instructions.Tsx` of the record before |
| J6502.Cpu.Txs | nesulator3/cpu.cpp:552-556 | the in-place handler leaves the record as `Instructions.Txs` of the record before |
| J6502.Cpu.Inx | nesulator3/cpu.cpp:705-710 | the in-place handler leaves the record as `Instructions.Inx` of the record before |
| J6502.Cpu.Iny | nesulator3/cpu.cpp:661-666 | the in-place handler leaves the record as `Instructions.Iny` of the record before |
| J6502.Cpu.Dex | nesulator3/cpu.cpp:654-659 | the in-place handler leaves the record as `Instructions.Dex` of the record before |
| J6502.Cpu.Dey | nesulator3/cpu.cpp:531-536 | the in-place handler leaves the record as `Instructions.Dey` of the record before |
| J6502.Cpu.Inc | nesulator3/cpu.cpp:692-696 | the in-place handler leaves the record as `Instructions.Inc` of the record before |
| J6502.Cpu.Dec | nesulator3/cpu.cpp:646-652 | the in-place handler leaves the record as `Instructions.Dec` of the record before |
| J6502.Cpu.Ora | nesulator3/cpu.cpp:332-337 | the in-place handler leaves the record as `Instructions.Ora` of the record before |
| J6502.Cpu.And | nesulator3/cpu.cpp:386-392 | the in-place handler leaves the record as `Instructions.And` of the record before |
| J6502.Cpu.Eor | nesulator3/cpu.cpp:455-460 | the in-place handler leaves the record as `Instructions.Eor` of the record before |
| J6502.Cpu.Bit | nesulator3/cpu.cpp:364-369 | the in-place handler leaves the record as `Instructions.Bit` of the record before |
| J6502.Cpu.Asl | nesulator3/cpu.cpp:340-345 | the in-place handler leaves the record as `Instructions.Asl` of the record before |
| J6502.Cpu.Lsr | nesulator3/cpu.cpp:437-445 | the in-place handler leaves the record as `Instructions.Lsr` of the record before |
| J6502.Cpu.Rol | nesulator3/cpu.cpp:395-403 | the in-place handler leaves the record as `Instructions.Rol` of the record before |
| J6502.Cpu.Ror | nesulator3/cpu.cpp:482-490 | the in-place handler leaves the record as `Instructions.Ror` of the record before |
| J6502.Cpu.Adc | nesulator3/cpu.cpp:470-480 | the in-place handler leaves the record as `Instructions.Adc` of the record before |
| J6502.Cpu.Sbc | nesulator3/cpu.cpp:681-690 | the in-place handler leaves the record as `Instructions.Sbc` of the record before |
| J6502.Cpu.Cmp | nesulator3/cpu.cpp:625-630 | the in-place handler leaves the record as `Instructions.Cmp` of the record before |
| J6502.Cpu.Cpx | nesulator3/cpu.cpp:674-679 | the in-place handler leaves the record as `Instructions.Cpx` of the record before |
| J6502.Cpu.Cpy | nesulator3/cpu.cpp:639-644 | the in-place handler leaves the record as `Instructions.Cpy` of the record before |
| J6502.Cpu.Bpl | nesulator3/cpu.cpp:319-323 | the in-place handler leaves the record as `Instructions.Bpl` of the record before |
| J6502.Cpu.Bmi | nesulator3/cpu.cpp:372-376 | the in-place handler leaves the record as `Instructions.Bmi` of the record before |
| J6502.Cpu.Bvc | nesulator3/cpu.cpp:429-434 | the in-place handler leaves the record as `Instructions.Bvc` of the record before |
| J6502.Cpu.Bvs | nesulator3/cpu.cpp:499-505 | the in-place handler leaves the record as `Instructions.Bvs` of the record before |
| J6502.Cpu.Bcs | nesulator3/cpu.cpp:618-623 | the in-place handler leaves the record as `Instructions.Bcs` of the record before |
| J6502.Cpu.Bne | nesulator3/cpu.cpp:632-637 | the in-place handler leaves the record as `Instructions.Bne` of the record before |
| J6502.Cpu.Beq | nesulator3/cpu.cpp:698-703 | the in-place handler leaves the record as `Instructions.Beq` of the record before |
| J6502.Cpu.Jmp | nesulator3/cpu.cpp:422-426 | the in-place handler leaves the record as `Instructions.Jmp` of the record before |
| J6502.Cpu.Jsr | nesulator3/cpu.cpp:348-355 | the in-place handler leaves the record as `Instructions.Jsr` of the record before |
| J6502.Cpu.Rts | nesulator3/cpu.cpp:463-467 | the in-place handler leaves the record as `Instructions.Rts` of the record before |
| J6502.Cpu.Rti | nesulator3/cpu.cpp:406-412 | the in-place handler leaves the record as `Instructions.Rti` of the record before |
| J6502.Cpu.Pha | nesulator3/cpu.cpp:415-419 | the in-place handler leaves the record as `Instructions.Pha` of the record before |
| J6502.Cpu.Php | nesulator3/cpu.cpp:313-316 | the in-place handler leaves the record as `Instructions.Php` of the record before |
| J6502.Cpu.Pla | nesulator3/cpu.cpp:492-497 | the in-place handler leaves the record as `Instructions.Pla` of the record before |
| J6502.Cpu.Plp | nesulator3/cpu.cpp:358-361 | the in-place handler leaves the record as `Instructions.Plp` of the record before |
| J6502.Cpu.Brk | nesulator3/cpu.cpp:301-310 | the in-place handler leaves the record as `Instructions.Brk` of the record before |
| J6502.Cpu.Bcc | nesulator3/cpu.cpp:558-568 | the record after the call is `Instructions.Bcc` of the record before, and `hangs` reports the endless loop taken when PC ends below 0x4000 |
| Properties.PushThenPop | nesulator3/cpu.cpp:77-83 | `pop` after `push` returns the pushed byte when the stack slot is backed by a device |
| Properties.PushKeepsMapped | nesulator3/cpu.cpp:77-79 | a push keeps every backed stack slot backed |
| Properties.PopAfterPush | nesulator3/cpu.cpp:77-83 | `pop` on any state with the bus and SP of a push returns the pushed byte |
| Properties.PullsKeepSp | nesulator3/cpu.cpp:81-83 | PLA, PLP, RTS and RTI never change SP |
| Properties.JsrThenRts | nesulator3/cpu.cpp:463-467 | JSR abs16 then RTS: PC becomes 0x101 times the high byte of the return address and SP stays two lower |
| Properties.BrkThenRti | nesulator3/cpu.cpp:406-412 | BRK then RTI: the status byte from before BRK is restored, PC becomes 0x101 times it, SP stays three lower |
| Properties.AdcOverflowExample | nesulator3/cpu.cpp:470-480 | 0x50 + 0x50 with C clear gives A = 0xA0 with V and N set and C, Z clear |
| Properties.AdcCarryExample | nesulator3/cpu.cpp:470-480 | 0x50 + 0xB0 with C clear gives A = 0 with C and Z set and V, N clear |
| Properties.SbcExample | nesulator3/cpu.cpp:681-690 | 0x50 - 0x10 with C set leaves A = 1, Z clear |
| Properties.SbcBoolean | nesulator3/cpu.cpp:681-690 | SBC as written leaves 0 or 1 in A and clears N, whatever the operand |
| Properties.BranchConditions | nesulator3/cpu.cpp:319-703 | each `rel` branch sets PC to the target exactly when its flag test holds (BPL !N, BMI N, BVC !V, BVS V, BCC !C, BCS C, BNE !Z) and past the offset otherwise; BEQ never branches; nothing else changes |
| Properties.RotationsInverse | nesulator3/cpu.cpp:395-490 | the rotations of ROL and ROR undo each other |
| Properties.RolThenRor | nesulator3/cpu.cpp:395-490 | `ROL A` then `ROR A` gives back A |
| Properties.IncFetchesTwice | nesulator3/cpu.cpp:692-696 | `INC zpg,zpg` reads at the address in the first operand byte, writes at the address in the second, and moves PC by two |
| Properties.LdaImmediateStep | nesulator3/cpu.cpp:730-730 | opcode 0xA9 loads the byte after it into A with N and Z, moves PC by two and returns 2 cycles |
| Properties.UndefinedStep | nesulator3/cpu.cpp:292-298 | an undefined opcode changes nothing but PC (past the opcode) and returns 0 cycles |
| Properties.BccHangStep | nesulator3/cpu.cpp:558-568 | opcode 0x90 with C clear and a target below 0x4000 ends in the endless loop |
| Bits.Low | nesulator3/cpu.cpp:42-52 | a C value stored in a `uint8_t` is its value modulo 256 |
| Bits.Wrap16 | nesulator3/cpu.cpp:48-52 | a C value stored in a `uint16_t`: kept when in [0, 65536), moved back by 65536 when it overflows by less than a period, forward when it underflows |
| Bits.Word | nesulator3/cpu.cpp:89-97 | `lo | (hi << 8)`: the word whose low byte is lo and whose high byte is hi |
| Bits.Signed | nesulator3/cpu.cpp:280-285 | `(int8_t)` of a byte: in [-128, 128), negative iff bit 7 is set, congruent to the byte modulo 256 |
| Machine.StackSlot | nesulator3/cpu.cpp:77-83 | `0x100 + SP`: an address in page one whose low byte is SP |
| Machine.ZeroPage | nesulator3/cpu.cpp:229-278 | an index kept in a `uint8_t`: an address below 0x100 equal to the index modulo 256 |
| Instructions.Widened | nesulator3/cpu.cpp:340-345 | `m << 1` after promotion, in a `uint16_t`: twice the byte's value, no truncation |
| J6502.Cpu.OperandWord | nesulator3/cpu.cpp:89-97 | the two bytes after the opcode read through `basicRead` form `Machine.OperandWord`; nothing changes |
| J6502.Cpu.WordAt | nesulator3/cpu.cpp:167-175 | two `basicRead` calls at address and address + 1 form the little-endian word; nothing changes |
| J6502.Cpu.Pointer | nesulator3/cpu.cpp:167-184 | the pointer fetched by `indRead`/`indWrite`/`ind16`: `Machine.IndAddress` |
| J6502.Cpu.XindPointer | nesulator3/cpu.cpp:186-203 | the pointer fetched by `xindRead`/`xindWrite`: `Machine.XindAddress` |
| J6502.Cpu.IndyPointer | nesulator3/cpu.cpp:205-222 | the effective address of `indyRead`/`indyWrite`: `Machine.IndyAddress` |
| J6502.Cpu.ReadPrim | nesulator3/cpu.cpp:718-736 | a call through a template's `readPrim` pointer returns `Machine.ReadOperand`'s value and leaves its state |
| J6502.Cpu.WritePrim | nesulator3/cpu.cpp:718-736 | a call through a template's `writePrim` pointer leaves the record as `Machine.WriteOperand` |
| J6502.Cpu.ReadWordPrim | nesulator3/cpu.cpp:718-736 | a call through a 16-bit `readPrim` pointer returns `Machine.ReadWord`'s value and leaves its state |
| J6502.Cpu.Compare | nesulator3/cpu.cpp:625-644 | the shared compare body leaves the record as `Instructions.Compare` |
| J6502.Cpu.BranchIf | nesulator3/cpu.cpp:319-703 | the shared branch body leaves the record as `Instructions.BranchIf` |
| J6502.Cpu.PushReturn | nesulator3/cpu.cpp:350-352 | `PC += 2` and the two pushes leave the record as `Instructions.PushReturn` |
| Bus.Read | nesulator3/cpu.cpp:58-66 | `basicRead` over the device images; specified by `Bus.ReadFirstMatch` (first covering device decides), `Bus.ReadUnmapped` (0 when uncovered) and `Bus.ReadAfterWrite`/`Bus.ReadOtherAfterWrite` |
| Flags.TestFlag | nesulator3/cpu.cpp:37-39 | `testFlag`: any bit of the mask set; its laws are `Flags.TestAfterSet` and `Flags.SetFlagToKeeps` |
| Instructions.Adc | nesulator3/cpu.cpp:470-480 | ADC as written; specified by `Instructions.AdcEffect` and the worked `Properties.Adc*Example` lemmas |
| Instructions.Sbc | nesulator3/cpu.cpp:681-690 | SBC as written; specified by `Instructions.SbcEffect`, `Properties.SbcBoolean` and `Properties.SbcExample` |
| Instructions.Brk | nesulator3/cpu.cpp:301-310 | BRK as written; specified by `Instructions.BrkEffect` and `Properties.BrkThenRti` |
| Instructions.Bpl | nesulator3/cpu.cpp:319-323 | BPL; `Properties.BranchConditions` proves it branches to the `rel` target exactly when N is clear |
| Instructions.Bmi | nesulator3/cpu.cpp:372-376 | BMI; `Properties.BranchConditions`: branches exactly when N is set |
| Instructions.Bvc | nesulator3/cpu.cpp:429-434 | BVC; `Properties.BranchConditions`: branches exactly when V is clear |
| Instructions.Bvs | nesulator3/cpu.cpp:499-505 | BVS; `Properties.BranchConditions`: branches exactly when V is set |
| Instructions.Bcc | nesulator3/cpu.cpp:558-568 | BCC's state update; `Properties.BranchConditions`: branches exactly when C is clear (the hang is `Instructions.BccHangs`) |
| Instructions.Bcs | nesulator3/cpu.cpp:618-623 | BCS; `Properties.BranchConditions`: branches exactly when C is set |
| Instructions.Bne | nesulator3/cpu.cpp:632-637 | BNE; `Properties.BranchConditions`: branches exactly when Z is clear |
| Instructions.BccHangs | nesulator3/cpu.cpp:563-566 | the `while (true)` condition of BCC, PC below 0x4000 after the branch; `Properties.BccHangStep` and `J6502.Cpu.Bcc` use it |
| Instructions.Run | nesulator3/cpu.cpp:292-716 | the template a table entry names, applied to the record; `Properties.LdaImmediateStep` and `Properties.UndefinedStep` pin its effect for a defined and an undefined entry |
| Instructions.Exec | nesulator3/cpu.cpp:718-736 | a call through a table entry: the handler's new state and the entry's cycle count, or `Hang`; specified by `Properties.LdaImmediateStep`, `Properties.UndefinedStep` and `Properties.BccHangStep` |
| OpMap.Rows | nesulator3/cpu.cpp:720-735 | the sixteen rows of `cpu6502opmap`, entry by entry; `OpMap.AllFacts` and its corollaries state their properties |
| OpMap.Decode | nesulator3/cpu.cpp:718-736 | indexing `cpu6502opmap` by opcode (row = high nibble, column = low nibble); `OpMap.AllFacts`, `OpMap.CycleCounts`, `OpMap.BranchColumn`, `OpMap.SedUnreachable`, `OpMap.ReadModifyWriteModes` |
| Machine.WriteOperandBus | nesulator3/cpu.cpp:99-278 | a memory-mode write primitive changes the bus exactly as `basicWrite` of the value at its address (`Machine.WriteAddress`) |

## Left out

- `printf` and `debugPrint` calls in the templates and the table: output only. They do not affect the state.
- The `getchar()` wait of `nop<0>`: console input. An undefined opcode changes nothing but PC in the model, and its 0 cycles are kept.
- The `while (true)` of `BCC` is not executed. It is reported as the `Hang` outcome, or the `hangs` result, because a non-terminating method cannot carry a useful contract here.
- `createCpu`, `addDevice`, `stepCpu`, `triggerNMI`, `triggerRST` and `triggerIRQ` are not modelled, because they only set up the record or have no body in the core file. `OpMap.Step` is a single fetch-and-call through the table, given for the properties. It is not a model of `stepCpu`.
- Dispatch through the table exists only in the pure layer (`Instructions.Exec`, `OpMap.Step`). The class has one method per template but no method that indexes the table. The reason is that a single method matching all 256 entries is beyond the verifier's resource limit.
- `J6502.Device.ReadFun`, `J6502.Device.WriteFun`: the real `readfun`/`writefun` are foreign code. The model assumes they read and store a plain byte buffer of `length` bytes.
- Devices that share storage are not modelled. `J6502.Cpu.Valid` and the constructor require every device to own a distinct byte array, while `device816.data` (`nesulator3/emulatorGlue.h:11`) is a `void*` that two devices may share. With shared storage, a write through one device would change what another reads, and `Bus.ReadOtherAfterWrite` would no longer hold for the imperative class.
- Devices added after construction are not modelled. The device list is fixed when a `J6502.Cpu` is built, because `addDevice` is outside the core.
- Machine.RelRead: `rel` reads PC in the same expression that increments it, and C++ does not sequence the two. The model takes the incremented PC, so the target is offset + PC + 1, the only reading under which branches work.
- Decimal mode: the source ignores D in `ADC`/`SBC`, and so does the model.
- Cycle scheduling: cycle counts are returned as values but never accumulated, as in the source.
- The NES picture and memory units (`nesulator3/ppu.h`, `nesulator3/memory.h`) and `nesulator3/main.cpp` are not part of this model.
