# rustboy core in Dafny

This project models the core of rustboy, a Game Boy emulator written in Rust.
The model covers:

- the Sharp LR35902 CPU (`Cpu`): registers, flags, interrupt master enable and
  its EI/DI latches, run state, cycle debt, and every opcode that
  `instruction::parse` and `instruction::parse_cb` decode;
- the opcode decoder;
- the interconnect, which routes every address of the 16-bit bus to the boot
  ROM, the cartridge with its bank controller, video RAM, sprite memory, the
  I/O registers, work RAM and its echo, and high RAM, and which performs sprite
  DMA and hands out interrupts;
- the PPU's register file, its mode/LY state machine and its two memories;
- the joypad register, the sound register file and the timer stub.

The model is layered.

- Values, specified as functions:
  - `Alu`: the arithmetic and flag rules of each instruction.
  - `Instruction`: the decoder.
  - `Cartridge`, `Ppu`, `Joypad`, `SoundSubsystem`, `Timer`: each peripheral
    as a state value with read/write functions.
  - `Bus`: the whole address space as one `BusState` value.
  - `Machine`: the CPU's helpers (memory access with its 4-cycle cost, the
    stack, the register file).
  - `Execution`: every instruction arm, `do_next_instrution`,
    `handle_interrupts` and `step`.
- Objects whose fields the source updates in place, written as classes:
  `Cartridge.Cartridge`, `Ppu.Ppu`, `Joypad.Joypad`,
  `SoundSubsystem.SoundSubsystem`, `Timer.Timer`,
  `Interconnect.Interconnect` and `Cpu.Cpu`.
  - Each class keeps a `View()` of its fields as the value above.
  - Each method is proved to change that view exactly as the matching function
    says.
  - `Cpu.Cpu` owns the interconnect. It keeps a ghost copy of the bus value,
    and `Valid()` ties that copy to the interconnect's fields.

Behaviour is modelled as the source writes it, including its departures from
the hardware. The members that record them are:

- the decoder maps 0x76 to `LD (HL),(HL)` before it reaches HALT
  (`Instruction.HaltShadowed`);
- SBC computes flags but never writes A (`Execution.ExecSbcN`);
- `LD (nn),SP` loads nn into SP (`Execution.ExecLdNnSp`);
- POP AF writes the F byte, but the flags the CPU tests are separate
  fields and stay as they were (`Execution.ExecPopNn`);
- SWAP leaves its register unchanged (`Execution.SwapKeepsValue`);
- DAA after a subtraction subtracts one more than its correction
  (`Alu.DaaAfterSubtraction`);
- writing LY sets it to 154, so the next line counts past the frame
  (`Ppu.LyWriteCountsPast154`);
- the echo window aliases work RAM (`Bus.EchoAlias`);
- a CPU halted with IME clear never wakes, and STOP never ends
  (`Execution.Step`).

Interface conventions:

- Where the source panics (an unwritable address, a non-zero write to sprite
  memory, a read of a switchable ROM bank that lies past the end of the
  cartridge image, a read of the boot overlay past the end of a short boot
  image, directly or by a DMA copy), the model returns `None`. The class methods require the
  corresponding function to return `Some`. `Cartridge.ReadPanics` and
  `Bus.ReadPanics` name the reads that panic, and `Bus.WritePanics` the writes.
- A cartridge image may have any length from one bank (0x4000 bytes) up; the
  bank the switchable window selects need not be part of it.
- Bytes and words are integers in range (`Utils.Byte`, `Utils.Word`). The
  source's `&`, `|`, `^` and `>>` are defined bit by bit.
- The source's wrapping `u16` arithmetic on PC, SP and register pairs is
  written out with `% 0x1_0000`.

## Model

| member | source | states |
|---|---|---|
| `MemoryMap.RegionOf` | src/memory_map.rs:1-45 | every address lies in the region whose START..END range holds it; exactly the gaps FEA0–FEFF and FF4C–FF7F lie in none |
| `MemoryMap.RegionsDisjoint` | src/memory_map.rs:1-45 | no address lies in two regions |
| `MemoryMap.Adjacent` | src/memory_map.rs:1-45 | ROM bank 0, the switchable bank, VRAM, cartridge RAM, work RAM and echo RAM each end where the next region starts, and high RAM ends at the interrupt register 0xFFFF |
| `MemoryMap.Lengths` | src/memory_map.rs:1-45 | the LENGTH constants: 0x4000 for both ROM banks, 0x2000 for VRAM, cartridge RAM and work RAM, 0x1E00 echo, 0xA0 sprites, 0x4C I/O, 0x7F high RAM |
| `MemoryMap.EchoIndexesInternalRam` | src/memory_map.rs:21-31 | every echo address minus ECHO_RAM_START is a work-RAM index, and 0xFFFF is not part of high RAM |
| `Instruction.Parse` | src/instruction.rs:93-185 | `parse`, with its arms tried in the source's order. Its meaning is stated by the lemmas below: `Instruction.ParseUndefined` (`None` exactly on the eleven undefined opcodes), `Instruction.ParseNeverHalt`, `Instruction.HaltShadowed` and one lemma per opcode family |
| `Instruction.ParseCb` | src/instruction.rs:187-239 | `parse_cb`, which is total. `Instruction.ParseCbShift`, `ParseCbBit`, `ParseCbRes` and `ParseCbSet` state that bits 6–7 choose the block, bits 3–5 the operation or bit number, and bits 0–2 the register |
| `Instruction.ParseCbShift` | src/instruction.rs:187-219 | CB opcodes 0x00–0x3F decode to the shift family `byte/8` (RLC, RRC, RL, RR, SLA, SRA, SWAP, SRL) on register `byte%8` |
| `Instruction.ParseCbBit` | src/instruction.rs:220-225 | CB opcodes 0x40–0x7F decode to BIT b,r with b = bits 5..3 and r = bits 2..0 |
| `Instruction.ParseCbRes` | src/instruction.rs:226-231 | CB opcodes 0x80–0xBF decode to RES b,r with the same fields |
| `Instruction.ParseCbSet` | src/instruction.rs:232-237 | CB opcodes 0xC0–0xFF decode to SET b,r with the same fields |
| `Instruction.ParseLoadBlock` | src/instruction.rs:95-99 | opcodes 0x40–0x7F decode to LD r1,r2 with r1 = bits 5..3 and r2 = bits 2..0 |
| `Instruction.HaltShadowed` | src/instruction.rs:95-99 | 0x76 decodes as LD (HL),(HL): the range arm precedes the HALT arm |
| `Instruction.ParseUndefined` | src/instruction.rs:93-185 | `parse` returns None exactly on the eleven opcodes D3 DB DD E3 E4 EB EC ED F4 FC FD |
| `Instruction.ParseNeverHalt` | src/instruction.rs:93-185 | no opcode decodes to HALT |
| `Instruction.ParseQuarters` | src/instruction.rs:93-185 | the undefined set and the absence of HALT, assembled quarter by quarter of the opcode space |
| `Instruction.ParseFirstQuarter` | src/instruction.rs:93-185 | every opcode below 0x40 is defined and none is HALT |
| `Instruction.ParseFourthQuarterLow` | src/instruction.rs:93-185 | in C0–DF exactly D3, DB, DD are undefined |
| `Instruction.ParseFourthQuarterHigh` | src/instruction.rs:93-185 | in E0–FF exactly E3, E4, EB, EC, ED, F4, FC, FD are undefined |
| `Instruction.ParseAluBlock` | src/instruction.rs:125-139 | opcodes 0x80–0xBF decode to ALU operation `byte/8%8` (ADD ADC SUB SBC AND XOR OR CP) on register `byte%8` |
| `Instruction.ParseAluImmediate` | src/instruction.rs:126-140 | C6, CE, D6, DE, E6, EE, F6, FE decode to the same operations on the immediate operand 8 |
| `Instruction.ParseLdR1N` | src/instruction.rs:100-102 | x6 and xE opcodes below 0x40 decode to LD r,n with r = `byte/8` (bits 5..3) |
| `Instruction.ParseIncN` | src/instruction.rs:141-143 | x4 and xC opcodes below 0x40 decode to INC r with r = `byte/8` (bits 5..3) |
| `Instruction.ParseDecN` | src/instruction.rs:144-146 | x5 and xD opcodes below 0x40 decode to DEC r with r = `byte/8` (bits 5..3) |
| `Instruction.ParseAddHlNn` | src/instruction.rs:148 | 09, 19, 29, 39 decode to ADD HL,rr with rr = `byte/16` |
| `Instruction.ParseIncNn` | src/instruction.rs:150 | 03, 13, 23, 33 decode to INC rr with rr = `byte/16` |
| `Instruction.ParseDecNn` | src/instruction.rs:151 | 0B, 1B, 2B, 3B decode to DEC rr with rr = `byte/16` |
| `Instruction.ParseJrCc` | src/instruction.rs:174 | 20, 28, 30, 38 decode to JR cc with cc = bits 4..3 (NZ, Z, NC, C) |
| `Instruction.ParseJpCc` | src/instruction.rs:171 | C2, CA, D2, DA decode to JP cc,nn with cc = bits 4..3 |
| `Instruction.ParseCallCc` | src/instruction.rs:176 | C4, CC, D4, DC decode to CALL cc,nn with cc = bits 4..3 |
| `Instruction.ParseRetCc` | src/instruction.rs:181 | C0, C8, D0, D8 decode to RET cc with cc = bits 4..3 |
| `Instruction.ParseRst` | src/instruction.rs:177-179 | C7, CF, …, FF decode to RST with target `byte & 0x38` (0x00, 0x08, …, 0x38) |
| `Instruction.ParseLoadOpcodes` | src/instruction.rs:103-116 | only 0A/1A/FA decode to LD A,(nn); only 02/12/EA to LD (nn),A; only 01/11/21/31 to LD rr,nn |
| `Instruction.ParseStackOpcodes` | src/instruction.rs:122-123 | only F5/C5/D5/E5 decode to PUSH and only F1/C1/D1/E1 to POP |
| `Alu.Add` | src/cpu.rs:452-459 | ADD: A becomes (A+n) mod 256; Z on zero, N clear, H on a carry out of the low nibble, C on a carry out of bit 7 (the source computes these from `(a^n)^result`) |
| `Alu.Adc` | src/cpu.rs:461-483 | ADC: the same with the old carry added to the sum and to both carry tests |
| `Alu.Sub` | src/cpu.rs:484-506 | SUB: A becomes (A−n) mod 256; Z when A = n, N set, H on a borrow from bit 4, C when A < n |
| `Alu.SbcFlags` | src/cpu.rs:507-528 | SBC's flags as borrows of A − n − carry (Z when that is 0 mod 256, H on a nibble borrow, C when A < n + carry) |
| `Alu.AndA` | src/cpu.rs:529-548 | AND: each bit of the result is the AND of the operands' bits; flags Z, N clear, H set, C clear |
| `Alu.OrA` | src/cpu.rs:549-568 | OR: each result bit is the OR of the operands' bits; only Z may be set |
| `Alu.XorA` | src/cpu.rs:569-588 | XOR: each result bit is the XOR of the operands' bits; only Z may be set |
| `Alu.BitwiseAll` | src/cpu.rs:529-588 | the `&`, `\|`, `^` of two bytes act bit by bit on all eight bits |
| `Alu.Cp` | src/cpu.rs:589-606 | CP: the flags of A − n (Z when equal, N set, H on a nibble borrow, C when A < n) |
| `Alu.Inc` | src/cpu.rs:607-619 | INC: value+1 mod 256; Z when the value was 0xFF, H when its low nibble was 0xF, C kept |
| `Alu.Dec` | src/cpu.rs:620-633 | DEC: value−1 mod 256; Z when the value was 1, N set, H when its low nibble was 0, C kept |
| `Alu.SignExtend` | src/cpu.rs:673-688 | `n as i8 as u16`: congruent to the signed byte mod 2^16, with the same low byte and low nibble as n |
| `Alu.AddHl` | src/cpu.rs:634-672 | ADD HL,rr: HL+rr mod 2^16; Z kept, N clear, H on a carry out of bit 11, C on a carry out of bit 15 |
| `Alu.AddSpSigned` | src/cpu.rs:673-688 | SP + signed n mod 2^16; Z and N clear, H and C from the carries of the low nibble and the low byte |
| `Alu.Rlca` | src/cpu.rs:813-825 | RLCA: A rotated left, C = old bit 7, Z, N and H clear |
| `Alu.Rla` | src/cpu.rs:826-838 | RLA: A shifted left with the old carry in bit 0, C = old bit 7 |
| `Alu.Rrca` | src/cpu.rs:839-851 | RRCA: A rotated right, C = old bit 0 |
| `Alu.Rra` | src/cpu.rs:852-865 | RRA: A shifted right with the old carry in bit 7, C = old bit 0 |
| `Alu.AccumulatorRotatesAreCb` | src/cpu.rs:813-865 | RLCA, RLA, RRCA, RRA give the value and C of the CB forms RLC, RL, RRC, RR, with Z cleared instead of set from the result |
| `Alu.Rl` | src/cpu.rs:1064-1079 | RL r: shift left through the carry; Z on a zero result, C = old bit 7 |
| `Alu.Rlc` | src/cpu.rs:1080-1096 | RLC r: rotate left; Z on zero, C = old bit 7 |
| `Alu.Sla` | src/cpu.rs:1097-1111 | SLA r: shift left, bit 0 cleared; C = old bit 7 |
| `Alu.Rrc` | src/cpu.rs:1112-1127 | RRC r: rotate right; C = old bit 0 |
| `Alu.Sra` | src/cpu.rs:1128-1145 | SRA r: shift right keeping bit 7; C = old bit 0 |
| `Alu.Srl` | src/cpu.rs:1146-1160 | SRL r: shift right, bit 7 cleared; C = old bit 0 |
| `Alu.Rr` | src/cpu.rs:1161-1176 | RR r: shift right through the carry; C = old bit 0 |
| `Alu.Swap` | src/cpu.rs:1177-1190 | SWAP r as written: `u8::swap_bytes` swaps the bytes of a one-byte value, so the value is unchanged; Z on zero, other flags clear |
| `Alu.SwapBytes` | src/cpu.rs:1182 | `u8::swap_bytes` on a single byte returns it unchanged. `Alu.Swap` and `Execution.SwapKeepsValue` state that SWAP therefore keeps its register's value |
| `Alu.BitTest` | src/cpu.rs:1034-1044 | BIT b: Z exactly when bit b is clear, N clear, H set, C kept |
| `Alu.DaaCorrection` | src/cpu.rs:974-983 | the correction is one of 0x00, 0x06, 0x60, 0x66, and the new carry is set exactly when it includes 0x60 |
| `Alu.Daa` | src/cpu.rs:969-994 | DAA: after an addition A grows by the correction; after a subtraction it shrinks by the correction plus one (`0xFF - correction`); Z on zero, N kept, H clear, C as corrected |
| `Alu.AdcWithoutCarry` | src/cpu.rs:439-483 | ADC with the carry clear is ADD |
| `Alu.SbcAndCpAreSubFlags` | src/cpu.rs:484-606 | SBC without carry, SUB and CP produce the same flags |
| `Alu.IncDecInverse` | src/cpu.rs:607-633 | INC and DEC undo each other on the value |
| `Alu.RotationsInverse` | src/cpu.rs:1080-1127 | rotating left then right, or right then left, gives the byte back |
| `Alu.RlRrInverse` | src/cpu.rs:1064-1079 | RL followed by RR through the carry RL produced restores the value and the original carry, and the other way round |
| `Alu.DaaSubtractionHalfBorrow` | src/cpu.rs:969-994 | after a subtraction with H set, DAA subtracts 7 (the correction 6 plus one) and clears C, whatever the old carry |
| `Alu.DaaAdditionLowNibble` | src/cpu.rs:969-994 | after an addition with a low nibble above 9 and A ≤ 0x9F, DAA adds 6 and clears C |
| `Alu.DaaAdditionHalfCarry` | src/cpu.rs:969-994 | after an addition with H set and A ≤ 0x9F, DAA adds 6 |
| `Alu.DaaAfterSubtraction` | src/cpu.rs:969-994 | a SUB that leaves 0x0F with a half borrow is "corrected" to 0x08, not the decimal 0x09 |
| `Alu.DaaAfterAdditionLimit` | src/cpu.rs:969-994 | 0x45 + 0x55 = 0x9A is corrected to 0xA0 with C clear, not the decimal 0x00 with C set |
| `Alu.DaaAfterAdditionCarry` | src/cpu.rs:969-994 | 0x99 + 0x99 = 0x32 with C set is corrected to 0x38 with C cleared |
| `Cartridge.Init` | src/cartridge.rs:21-31 | a new cartridge over any image of at least one bank has both bank numbers 0, RAM writes disabled and all RAM zero |
| `Cartridge.RamIndex` | src/cartridge.rs:47-50 | a RAM-bank address with a bank number of at most 3 indexes the RAM vector |
| `Cartridge.RomIndex` | src/cartridge.rs:37-45 | a switchable-bank address with a bank number of at most 31 indexes the ROM above bank 0 |
| `Cartridge.Read` | src/cartridge.rs:32-53 | where the read does not panic, `read_mem` answers exactly in 0000–7FFF and A000–BFFF |
| `Cartridge.Write` | src/cartridge.rs:56-88 | `write_mem` reports the write handled exactly for the four control ranges and cartridge RAM; the ROM never changes |
| `Cartridge.ReadRomBank0` | src/cartridge.rs:34-36 | addresses below 0x4000 read the ROM directly, for every image of at least one bank |
| `Cartridge.ReadSwitchRomBank` | src/cartridge.rs:37-45 | 4000–7FFF read bank `rom_bank_nr`, and bank 1 when the number is 0, wherever that bank reaches the address inside the image |
| `Cartridge.ReadPanicsExactly` | src/cartridge.rs:32-45 | only a switchable-ROM read panics, and it does exactly when the selected bank (0 read as 1) ends before that offset; for an image of whole banks, exactly when the image has no bank of that number |
| `Cartridge.ImageSizes` | src/cartridge.rs:37-45 | a two-bank (32 KiB) image, the size of a cartridge without a bank controller, panics on a switchable-ROM read exactly when the bank register is 2 or more; an image of 32 banks never panics |
| `Cartridge.WriteThenReadRam` | src/cartridge.rs:47-50 | a byte written to cartridge RAM reads back, whether or not RAM was enabled |
| `Cartridge.WriteRamFrame` | src/cartridge.rs:81-84 | a cartridge-RAM write leaves every other RAM address as it was |
| `Cartridge.RomBankSelect` | src/cartridge.rs:70-75 | a ROM-bank write stores `value` (0 read as 1) masked to 5 bits, so 0x20 selects bank 0 |
| `Cartridge.RamBankSelect` | src/cartridge.rs:76-79 | a RAM-bank write stores the low two bits of the value |
| `Cartridge.EnableAndModelSelect` | src/cartridge.rs:58-69 | RAM is enabled exactly by 0x0A; the memory model follows bit 0 of the value |
| `Cartridge.WriteUnclaimed` | src/cartridge.rs:85 | a write outside the control ranges and RAM changes nothing and is not handled |
| `Cartridge.ControlWriteKeepsRam` | src/cartridge.rs:58-79 | a write below 0x8000 leaves the RAM contents alone |
| `Cartridge.Cartridge.constructor` | src/cartridge.rs:21-31 | over any image of at least one bank, the new object's view is `Init` of the ROM |
| `Cartridge.Cartridge.ReadMem` | src/cartridge.rs:32-53 | where the read does not panic, returns `Read` of the object's view |
| `Cartridge.Cartridge.WriteMem` | src/cartridge.rs:56-88 | updates the bank registers or RAM in place as `Write` says and returns its handled flag |
| `Ppu.PpuRead` | src/ppu.rs:204-219 | `read` answers exactly FF40–FF45 and FF47–FF4B (not FF46), and FF44 reads LY |
| `Ppu.PpuWrite` | src/ppu.rs:382-403 | `write` handles exactly those registers; writing FF44 sets LY to 154 and the mode to VBlank whatever the value; memories and the cycle count are untouched |
| `Ppu.PpuWriteThenRead` | src/ppu.rs:382-403 | a written register reads back the value, except LY which reads 154 |
| `Ppu.PpuUpdate` | src/ppu.rs:144-198 | `Ppu::update` without the drawing. `Ppu.UpdateWhileBusy`, `Ppu.UpdateTransitions`, `Ppu.UpdateSignal` and `Ppu.UpdateStatusBits` state its mode and LY transitions, its V-blank signal and the STAT mode bits it writes |
| `Ppu.ModeBits` | src/ppu.rs:150-195 | the STAT mode number of each phase is below 4 |
| `Ppu.UpdateWhileBusy` | src/ppu.rs:146-149 | with cycles pending, `update` only counts down by one and signals nothing |
| `Ppu.UpdateTransitions` | src/ppu.rs:150-195 | OAM search → pixel transfer (20), pixel transfer → HBlank (43), HBlank → next line (51; VBlank exactly after line 143), VBlank → next line (114; back to line 0 and OAM search after line 153) |
| `Ppu.UpdateSignal` | src/ppu.rs:143-198 | `update` changes only cycles, mode, LY and STAT, and returns true exactly when it leaves VBlank line 144 (LY becomes 145) |
| `Ppu.UpdateStatusBits` | src/ppu.rs:155-186 | `update` changes only bits 1..0 of STAT, and after a mode change those bits are the new mode's number |
| `Ppu.UpdateKeepsLyInRange` | src/ppu.rs:165-195 | LY stays below 144 outside VBlank and within 144..153 in VBlank |
| `Ppu.WriteKeepsLyInRange` | src/ppu.rs:382-403 | writes to registers other than LY keep that range |
| `Ppu.ResetLyInRange` | src/ppu.rs:117-141 | a new PPU is within that range and its memories have their full sizes |
| `Ppu.LyWriteCountsPast154` | src/ppu.rs:388-392 | after a write to LY the range breaks: the next line is 155, still in VBlank |
| `Ppu.PpuTurnLcdOff` | src/ppu.rs:200-203 | `turn_lcd_off` clears LCDC bit 7, keeps bits 0..6, and changes nothing else in the PPU |
| `Ppu.PpuAddCycles` | src/ppu.rs:482-484 | `add_cycles` adds c to the countdown and changes nothing else |
| `Ppu.VramRead` | src/ppu.rs:340-346 | `read_vram`. `Ppu.VramWriteThenRead` states that it returns the last byte written at that address |
| `Ppu.SpriteMemRead` | src/ppu.rs:367-373 | `read_sprite_mem`. `Ppu.SpriteMemWriteThenRead` states that it returns the last byte written at that address |
| `Ppu.VramWrite` | src/ppu.rs:347-357 | a VRAM write changes only video memory and keeps its size |
| `Ppu.SpriteMemWrite` | src/ppu.rs:374-380 | a sprite write changes only sprite memory and keeps its size |
| `Ppu.VramWriteThenRead` | src/ppu.rs:340-357 | a VRAM byte reads back; other VRAM addresses are unchanged |
| `Ppu.SpriteMemWriteThenRead` | src/ppu.rs:367-380 | a sprite-memory byte reads back; other sprite addresses are unchanged |
| `Ppu.ResetControlDecodes` | src/ppu.rs:412-451 | LCD_control 0x91 means display and background on, tile data at 0x8000, both maps at 0x9800, 8-line sprites, window and sprites off |
| `Ppu.LcdDisplayEnabled` | src/ppu.rs:412-414 | LCDC bit 7, the display switch. `Ppu.ResetControlDecodes` gives its value after reset, and `Ppu.TurnLcdOffKeepsSettings` states that turning the LCD off clears it |
| `Ppu.WindowTileMapAddress` | src/ppu.rs:415-421 | LCDC bit 6: window map at 9C00, otherwise 9800. `Ppu.ResetControlDecodes` gives its value after reset, and `Ppu.TurnLcdOffKeepsSettings` states that turning the LCD off keeps it |
| `Ppu.WindowEnable` | src/ppu.rs:422-424 | LCDC bit 5, the window switch. `Ppu.ResetControlDecodes` gives its value after reset, and `Ppu.TurnLcdOffKeepsSettings` states that turning the LCD off keeps it |
| `Ppu.BgWindowTileData` | src/ppu.rs:425-431 | LCDC bit 4: tile data at 8000, otherwise the signed block at 8800. `Ppu.ResetControlDecodes` gives its value after reset, and `Ppu.TurnLcdOffKeepsSettings` states that turning the LCD off keeps it |
| `Ppu.BgTileMapAddress` | src/ppu.rs:432-438 | LCDC bit 3: background map at 9C00, otherwise 9800. `Ppu.ResetControlDecodes` gives its value after reset, and `Ppu.TurnLcdOffKeepsSettings` states that turning the LCD off keeps it |
| `Ppu.ObjHeight` | src/ppu.rs:439-445 | LCDC bit 2: sprites 16 lines high, otherwise 8. `Ppu.ResetControlDecodes` gives its value after reset, and `Ppu.TurnLcdOffKeepsSettings` states that turning the LCD off keeps it |
| `Ppu.ObjEnable` | src/ppu.rs:446-448 | LCDC bit 1, the sprite switch. `Ppu.ResetControlDecodes` gives its value after reset, and `Ppu.TurnLcdOffKeepsSettings` states that turning the LCD off keeps it |
| `Ppu.BgEnable` | src/ppu.rs:449-451 | LCDC bit 0, the background switch. `Ppu.ResetControlDecodes` gives its value after reset, and `Ppu.TurnLcdOffKeepsSettings` states that turning the LCD off keeps it |
| `Ppu.LycLyInterrupt` | src/ppu.rs:453-455 | STAT bit 6, the LYC=LY interrupt selection. `Ppu.UpdateStatusDecodes` states that `update` never changes it |
| `Ppu.Mode2OamInterrupt` | src/ppu.rs:456-458 | STAT bit 5, the OAM-search interrupt selection. `Ppu.UpdateStatusDecodes` states that `update` never changes it |
| `Ppu.Mode1VblankInterrupt` | src/ppu.rs:459-461 | STAT bit 4, the V-blank interrupt selection. `Ppu.UpdateStatusDecodes` states that `update` never changes it |
| `Ppu.Mode0HblankInterrupt` | src/ppu.rs:462-464 | STAT bit 3, the H-blank interrupt selection. `Ppu.UpdateStatusDecodes` states that `update` never changes it |
| `Ppu.LycLyFlag` | src/ppu.rs:465-467 | STAT bit 2, the LYC=LY flag. `Ppu.UpdateStatusDecodes` states that `update` never changes it |
| `Ppu.LcdcStatusMode` | src/ppu.rs:468-470 | STAT bits 0–1. `Ppu.UpdateStatusDecodes` states that after a mode change they hold the new mode's number |
| `Ppu.ColorFor11` | src/ppu.rs:535-537 | the shade of colour number 3: palette bits 6–7, as `Ppu.ShadeBits` states through `Ppu.BgColor` |
| `Ppu.ColorFor10` | src/ppu.rs:538-540 | the shade of colour number 2: palette bits 4–5, as `Ppu.ShadeBits` states through `Ppu.BgColor` |
| `Ppu.ColorFor01` | src/ppu.rs:541-543 | the shade of colour number 1: palette bits 2–3, as `Ppu.ShadeBits` states through `Ppu.BgColor` |
| `Ppu.ColorFor00` | src/ppu.rs:544-546 | the shade of colour number 0: palette bits 0–1, as `Ppu.ShadeBits` states through `Ppu.BgColor` |
| `Ppu.BgColor` | src/ppu.rs:472-480 | `bg_color`. `Ppu.ShadeBits` states that colour number k takes palette bits 2k and 2k+1, and `Ppu.PaletteRoundTrip` that the four shades rebuild the palette byte |
| `Ppu.TileAddress` | src/ppu.rs:293-304 | the tile-data address `update_bg_tile` reads. `Ppu.TileAddressInVram` states that it is 16-aligned, lies in 8800–97FF for the signed block (tiles 0–127 from 9000) and in 8000–8FFF otherwise |
| `Ppu.TurnLcdOffKeepsSettings` | src/ppu.rs:405-451 | turning the LCD off clears bit 7 and leaves every other LCD_control setting as it decodes |
| `Ppu.UpdateStatusDecodes` | src/ppu.rs:453-470 | `update` never changes the STAT interrupt selections or the LYC flag, and after a mode change `lcdc_status_mode` is the new mode |
| `Ppu.ColorBits` | src/ppu.rs:75-80 | each shade's number is below 4 and maps back to the shade |
| `Ppu.PaletteRoundTrip` | src/ppu.rs:472-480 | the four shades of `bg_color` for colours 0..3 determine the palette byte |
| `Ppu.ShadeBits` | src/ppu.rs:535-546 | colour k takes bits 2k+1..2k of the palette |
| `Ppu.TileAddressInVram` | src/ppu.rs:293-304 | a tile address is 16-aligned and lies in 8800–97FF (signed numbering around 0x9000) or 8000–8FFF (unsigned numbering) |
| `Ppu.IsAddrInBgMap` | src/ppu.rs:359-365 | an address counts as in the background map exactly when it lies in the selected map from its start to start+0x3FE (the last byte is excluded as written), which is in VRAM |
| `Ppu.Ppu.constructor` | src/ppu.rs:117-141 | the new object's view is the reset state (LCD_control 0x91, the rest 0, OAM search) |
| `Ppu.Ppu.Update` | src/ppu.rs:144-198 | updates the fields as `PpuUpdate` says and returns its VBlank signal |
| `Ppu.Ppu.TurnLcdOff` | src/ppu.rs:200-203 | updates LCD_control as `PpuTurnLcdOff` says |
| `Ppu.Ppu.Read` | src/ppu.rs:204-219 | returns `PpuRead` of the view |
| `Ppu.Ppu.Write` | src/ppu.rs:382-403 | updates the registers as `PpuWrite` says and returns its handled flag |
| `Ppu.Ppu.ReadVram` | src/ppu.rs:340-346 | returns the VRAM byte of the view |
| `Ppu.Ppu.WriteVram` | src/ppu.rs:347-357 | writes the VRAM array in place as `VramWrite` says |
| `Ppu.Ppu.ReadSpriteMem` | src/ppu.rs:367-373 | returns the sprite byte of the view |
| `Ppu.Ppu.WriteSpriteMem` | src/ppu.rs:374-380 | writes the sprite array in place as `SpriteMemWrite` says |
| `Ppu.Ppu.AddCycles` | src/ppu.rs:482-484 | adds to the countdown as `PpuAddCycles` says |
| `Joypad.KeysRead` | src/joypad.rs:28-33 | `read` answers exactly at FF00, with the keys byte |
| `Joypad.KeysWrite` | src/joypad.rs:36-47 | `write` handles exactly FF00, and elsewhere the keys stay |
| `Joypad.KeysWriteBits` | src/joypad.rs:38-43 | a write keeps the low nibble of the keys and takes the high nibble from the value |
| `Joypad.GetButtonBit` | src/joypad.rs:73-91 | a button has a bit (below 4) exactly when the selected mode is its group: Start/Select/B/A in button mode, Down/Up/Left/Right in direction mode |
| `Joypad.ButtonMode` | src/joypad.rs:62-71 | `button_mode`: bit 5 clear selects the buttons, otherwise bit 4 clear the directions. `Joypad.PressRelease` states that pressing a key never changes the selection |
| `Joypad.KeysAfterButton` | src/joypad.rs:49-60 | the register after `update_button`. `Joypad.UpdateButtonExact` states that it changes exactly the button's bit in the selected group (cleared when pressed) and nothing when the button is not in that group; `Joypad.PressRelease` that a release after a press equals the release alone |
| `Joypad.UpdateButtonExact` | src/joypad.rs:49-70 | `update_button` clears the button's bit on press and sets it on release, touches no other bit, and changes nothing when the button is not selected |
| `Joypad.PressRelease` | src/joypad.rs:49-70 | a press does not change the selected mode, and release after press equals release alone |
| `Joypad.Joypad.constructor` | src/joypad.rs:25-27 | the keys start at 0xFF |
| `Joypad.Joypad.Read` | src/joypad.rs:28-33 | returns `KeysRead` of the keys |
| `Joypad.Joypad.Write` | src/joypad.rs:36-47 | updates the keys as `KeysWrite` says and returns its handled flag |
| `Joypad.Joypad.UpdateButton` | src/joypad.rs:49-60 | updates the keys as `KeysAfterButton` says |
| `SoundSubsystem.SoundRead` | src/sound_subsystem.rs:159-171 | `read` answers exactly at the seven registers NR11–NR14 and NR50–NR52 |
| `SoundSubsystem.SoundWrite` | src/sound_subsystem.rs:131-157 | `write` handles exactly those seven addresses and elsewhere changes nothing |
| `SoundSubsystem.ResetReadsZero` | src/sound_subsystem.rs:118-129 | every register reads 0 after `new` |
| `SoundSubsystem.WriteThenRead` | src/sound_subsystem.rs:131-171 | a written register reads back the value |
| `SoundSubsystem.WriteOnlyAddressed` | src/sound_subsystem.rs:131-171 | a write changes no other address's reading |
| `SoundSubsystem.SoundSubsystem.constructor` | src/sound_subsystem.rs:118-129 | every register starts at 0 |
| `SoundSubsystem.SoundSubsystem.Read` | src/sound_subsystem.rs:159-171 | returns `SoundRead` of the registers |
| `SoundSubsystem.SoundSubsystem.Write` | src/sound_subsystem.rs:131-157 | updates the registers as `SoundWrite` says and returns its handled flag |
| `Timer.TimerRead` | src/timer.rs:23-28 | `read` answers exactly at FF07, with the stored byte |
| `Timer.TimerWrite` | src/timer.rs:12-21 | `write` handles exactly FF07 and stores nothing |
| `Timer.Timer.constructor` | src/timer.rs:8-10 | the stored byte starts at 0 |
| `Timer.Timer.Read` | src/timer.rs:23-28 | returns `TimerRead` of the stored byte |
| `Timer.Timer.Write` | src/timer.rs:12-21 | returns `TimerWrite`'s handled flag and changes nothing |
| `Timer.ReadUnchangedByWrite` | src/timer.rs:12-28 | on any timer, a read returns `TimerRead` of the field, and the same after any write to any address |
| `Timer.ReadZeroAfterWrite` | src/timer.rs:8-28 | a new timer reads 0 at FF07 after a write |
| `Bus.InterruptOf` | src/interconnect.rs:11-19 | each priority 0..4 names the interrupt whose priority it is |
| `Bus.Init` | src/interconnect.rs:40-54 | a new interconnect over any boot image and any cartridge of at least one bank is well-formed, keeps both, and starts with the boot ROM mapped in |
| `Bus.ReadPanics` | src/interconnect.rs:98-128 | a bus read panics only while booting at an address of 0x00..0xFF past the end of the boot image, or in the switchable-ROM window, where it panics exactly when the cartridge read does (`Cartridge.ReadPanicsExactly`) |
| `Bus.DmaPanicsExactly` | src/interconnect.rs:161-166 | a DMA copy from `start` panics (`DmaPanics`) exactly when one of its 0xA0 source reads panics |
| `Bus.BusRead` | src/interconnect.rs:98-128 | `read_mem` is `None` exactly where the read panics. What each region returns is stated by `Bus.BootOverlay`, `Bus.RomAfterBoot`, `Bus.CartridgeWindows` (switchable ROM and RAM banks), `Bus.PpuMemoryRouting` (VRAM and sprite memory), `Bus.EchoAlias`, `Bus.UnusableAreas`, `Bus.InterruptRegistersReadBack`, `Bus.IoReadOwners`, `Bus.RamWriteRead` and `Bus.ReadIgnoresSpriteMem` |
| `Bus.IoRead` | src/interconnect.rs:130-158 | `io_port_read`. `Bus.IoReadOwners` states which peripheral answers each I/O address, that DMA reads 0xFF and that unowned addresses read 0xFF |
| `Bus.WritePanics` | src/interconnect.rs:56-96 | a write panics for a non-zero byte to sprite memory (line 78), for an address below 0x8000 that the cartridge does not claim (line 91), and for a DMA start at FF46 whose copy reads past the boot image (lines 161-166). `Bus.BusWrite` fails exactly there |
| `Bus.DmaSource` | src/interconnect.rs:163 | the DMA source `value << 2`, truncated to a byte, is a multiple of 4 |
| `Bus.DmaBytes` | src/interconnect.rs:164-167 | DMA copies 0xA0 bytes, the size of sprite memory |
| `Bus.Dma` | src/interconnect.rs:161-170 | a DMA whose source reads do not panic keeps the bus well-formed |
| `Bus.IoWrite` | src/interconnect.rs:160-201 | an I/O write keeps the bus well-formed; FF46 is the DMA copy; a PPU, sound or joypad register changes only that component, as its own write says; the timer register, and every port nobody owns other than FF0F, change nothing; FF0F sets IF |
| `Bus.BusWrite` | src/interconnect.rs:56-96 | `write_mem` panics exactly where `WritePanics` says; otherwise the boot ROM is kept and booting can only switch off. Where each write goes is stated by `Bus.CartridgeClaimIsolated`, `Bus.CartridgeWindows`, `Bus.PpuMemoryRouting`, `Bus.IoWriteOwners`, `Bus.BootOff`, `Bus.EchoAlias`, `Bus.InterruptRegistersReadBack`, `Bus.UnusableAreas` and `Bus.RamWriteRead` |
| `Bus.RegionWrite` | src/interconnect.rs:60-95 | a write past the cartridge keeps the boot ROM and the cartridge |
| `Bus.BootOverlay` | src/interconnect.rs:99-101 | while booting, 0000–00FF read the boot ROM, and a read past its end panics |
| `Bus.RomAfterBoot` | src/interconnect.rs:98-104 | after booting, and above 0xFF, ROM bank 0 reads the cartridge |
| `Bus.BootOff` | src/interconnect.rs:61-64 | a write to FF50 only ends booting, whatever the value |
| `Bus.CartridgeClaimIsolated` | src/interconnect.rs:57-59 | a write the cartridge handles changes only the cartridge |
| `Bus.EchoAlias` | src/interconnect.rs:67-72 | E000+k and C000+k read the same byte, and a write to either is read back at the other |
| `Bus.InterruptRegistersReadBack` | src/interconnect.rs:82 | IE at FFFF and IF at FF0F are stored and read back |
| `Bus.UnusableAreas` | src/interconnect.rs:83-90 | FEA0–FEFF and FF4C–FF7F read 0xFF, and writes there (except FF50) change nothing |
| `Bus.IoReadOwners` | src/interconnect.rs:130-158 | an I/O read comes from the first owner that answers (DMA register 0xFF, then PPU, sound, timer, joypad, IF), and 0xFF when none does |
| `Bus.IoWriteOwners` | src/interconnect.rs:160-201 | a write to an I/O port goes to `io_port_write`, which panics only on a DMA start whose copy panics; FF46 copies into sprite memory, then the PPU, sound, timer and joypad registers go to their owners, FF0F sets IF and the other ports drop the write |
| `Bus.PpuMemoryRouting` | src/interconnect.rs:98-128 | 8000..9FFF reads and writes the PPU's VRAM; FE00..FE9F reads the PPU's sprite memory and stores a zero byte there, and a non-zero byte written there panics |
| `Bus.CartridgeWindows` | src/interconnect.rs:98-128 | 4000..7FFF reads the cartridge's selected ROM bank where that does not panic; A000..BFFF reads the selected RAM bank and a write there goes to the cartridge |
| `Bus.ReadIgnoresSpriteMem` | src/interconnect.rs:98-128 | reads outside sprite memory do not depend on sprite memory or the PPU's countdown |
| `Bus.DmaCopies` | src/interconnect.rs:161-170 | a write to FF46 that does not panic copies byte i of the source (boot ROM or cartridge ROM) to sprite byte i and adds 200 cycles to the PPU |
| `Bus.RamWriteRead` | src/interconnect.rs:67-75 | a work- or high-RAM write never panics, reads back, and leaves every other RAM address as it was |
| `Bus.FirstPending` | src/interconnect.rs:204-213 | the loop's result is the lowest index from i to 4 set in both IF and IE, or None when there is none |
| `Bus.TakeInterrupt` | src/interconnect.rs:203-214 | `get_interrupt`. `Bus.TakeInterruptSpec` states that it returns the enabled pending interrupt of highest priority and clears only its flag bit, or returns `None` and changes nothing when none is pending |
| `Bus.TakeInterruptSpec` | src/interconnect.rs:203-214 | `get_interrupt` returns None exactly when IF & IE & 0x1F is 0 (then changes nothing); otherwise it returns the highest-priority pending interrupt and clears only its IF bit |
| `Bus.TakeButtonInterrupt` | src/interconnect.rs:216-224 | `get_button_interrupt` returns Joypad exactly when IF bit 4 is set, ignoring IE, leaves bit 4 clear, and changes nothing outside IF |
| `Bus.TakeButtonInterruptBits` | src/interconnect.rs:216-224 | `get_button_interrupt` clears IF bit 4 and keeps every other IF bit, and changes nothing when bit 4 was clear |
| `Bus.BusUpdate` | src/interconnect.rs:226-236 | `update` keeps the bus well-formed |
| `Bus.UpdateRequestsInterrupts` | src/interconnect.rs:226-236 | `update` advances the PPU and, on its VBlank signal, sets IF bit 0, plus bit 4 when the joypad reports a press; otherwise IF is unchanged; nothing outside the PPU and IF changes, the joypad register included |
| `Interconnect.Interconnect.constructor` | src/interconnect.rs:40-54 | over any boot image and any cartridge of at least one bank, the new object's view is `Init` of the two |
| `Interconnect.Interconnect.ReadMem` | src/interconnect.rs:98-128 | where the read does not panic, returns `BusRead` of the view |
| `Interconnect.Interconnect.IoPortRead` | src/interconnect.rs:130-158 | returns `IoRead` of the view |
| `Interconnect.Interconnect.WriteMem` | src/interconnect.rs:56-96 | where the source does not panic, updates the owning component in place as `BusWrite` says |
| `Interconnect.Interconnect.RouteWrite` | src/interconnect.rs:60-95 | a write the cartridge declined changes the state as `RegionWrite` says |
| `Interconnect.Interconnect.IoPortWrite` | src/interconnect.rs:160-201 | updates the I/O owners as `IoWrite` says |
| `Interconnect.Interconnect.Dma` | src/interconnect.rs:161-170 | the copy loop writes sprite memory as `Bus.Dma` says |
| `Interconnect.Interconnect.CopyToSpriteMem` | src/interconnect.rs:164-167 | sprite byte i becomes the bus byte at the start address plus i, for all 0xA0 bytes; no other object changes |
| `Interconnect.Interconnect.GetInterrupt` | src/interconnect.rs:203-214 | returns and clears the interrupt as `TakeInterrupt` says |
| `Interconnect.Interconnect.GetButtonInterrupt` | src/interconnect.rs:216-224 | returns and clears the button interrupt as `TakeButtonInterrupt` says |
| `Interconnect.Interconnect.Update` | src/interconnect.rs:226-236 | updates the PPU and IF as `BusUpdate` says |
| `Machine.Init` | src/cpu.rs:59-87 | a new CPU is On over the given bus, with PC, SP and the cycle count 0 and IME and both latches clear |
| `Machine.U8sAsU16` | src/cpu.rs:1383-1386 | the first byte is the high byte and the second the low byte of the word |
| `Machine.U16AsU8s` | src/cpu.rs:1378-1381 | splitting a word and joining it again gives the word back |
| `Machine.PairRoundTrip` | src/cpu.rs:1378-1386 | `u16_as_u8s` and `u8s_as_u16` are inverse both ways |
| `Machine.PairAccessors` | src/cpu.rs:1299-1341 | each register pair reads back what was stored, storing its own value changes nothing, and each of the four setters touches only its two registers |
| `Machine.Af` | src/cpu.rs:1299-1303 | the pair as one word, A high and F low. `Machine.PairAccessors` states that it reads back what `SetAf` stored, and `Machine.PairRoundTrip` that splitting and joining a word are inverse |
| `Machine.Bc` | src/cpu.rs:1304-1308 | the pair as one word, B high and C low. `Machine.PairAccessors` states that it reads back what `SetBc` stored, and `Machine.PairRoundTrip` that splitting and joining a word are inverse |
| `Machine.De` | src/cpu.rs:1309-1313 | the pair as one word, D high and E low. `Machine.PairAccessors` states that it reads back what `SetDe` stored, and `Machine.PairRoundTrip` that splitting and joining a word are inverse |
| `Machine.Hl` | src/cpu.rs:1314-1317 | the pair as one word, H high and L low. `Machine.PairAccessors` states that it reads back what `SetHl` stored, and `Machine.PairRoundTrip` that splitting and joining a word are inverse |
| `Machine.SetAf` | src/cpu.rs:1318-1323 | splits the word into the pair's two registers. `Machine.PairAccessors` states that storing the pair's own value changes nothing and that only those two registers change |
| `Machine.SetBc` | src/cpu.rs:1324-1329 | splits the word into the pair's two registers. `Machine.PairAccessors` states that storing the pair's own value changes nothing and that only those two registers change |
| `Machine.SetDe` | src/cpu.rs:1330-1335 | splits the word into the pair's two registers. `Machine.PairAccessors` states that storing the pair's own value changes nothing and that only those two registers change |
| `Machine.SetHl` | src/cpu.rs:1336-1341 | splits the word into the pair's two registers. `Machine.PairAccessors` states that storing the pair's own value changes nothing and that only those two registers change |
| `Machine.ReadMem` | src/cpu.rs:1259-1262 | a read is `None` exactly where the bus read panics; otherwise it costs 4 cycles, returns the bus's byte and changes nothing else |
| `Machine.WriteMem` | src/cpu.rs:1264-1267 | a write costs 4 cycles, is None exactly where the interconnect panics, and otherwise changes the bus as `BusWrite` says |
| `Machine.ReadByte` | src/cpu.rs:1284-1289 | `None` exactly where the read at PC panics; otherwise fetching a byte costs 8 cycles (4 plus the read), returns the byte at PC and advances PC by one |
| `Machine.ReadNn` | src/cpu.rs:1291-1296 | `None` exactly where the read at PC or PC+1 panics; otherwise fetching nn costs 16 cycles, advances PC by two, and the pair joins to the little-endian word at PC |
| `Machine.SetRegister` | src/cpu.rs:1269-1282 | register r (not (HL)) takes the value and the other registers are unchanged |
| `Machine.Register` | src/cpu.rs:1222-1235 | the register r of `read_reg_r` for r ≠ 6. `Machine.SetRegister`, `Machine.ReadRegR` and `Machine.RegisterRoundTrip` state that it reads back what was stored and that storing one register leaves the others |
| `Machine.WrapAdd` | src/cpu.rs:1195-1210 | the source's `wrapping_add` and `wrapping_sub` on PC, SP and the pairs: the sum reduced to 0..0xFFFF |
| `Machine.WrapAddTwice` | src/cpu.rs:1195-1216 | two wrapping steps of at most 2 equal one step by their sum, as the stack's two one-byte steps need |
| `Machine.ReadRegR` | src/cpu.rs:1222-1235 | r 0..7 reads B C D E H L (HL) A; only (HL) costs 4 cycles |
| `Machine.WriteRegR` | src/cpu.rs:1269-1282 | r other than 6 sets the register; r = 6 writes memory at HL |
| `Machine.RegisterRoundTrip` | src/cpu.rs:1222-1282 | what `write_reg_r` stores, `read_reg_r` reads back (through RAM when r = 6) |
| `Machine.CheckCc` | src/cpu.rs:1250-1258 | cc 0..3 are NZ, Z, NC, C |
| `Machine.PushStack` | src/cpu.rs:1195-1198 | a push writes at SP, then decrements SP with wrap-around; None exactly where that write panics |
| `Machine.PushStackU16` | src/cpu.rs:1199-1203 | a word push writes the high byte at SP and then the low byte at SP−1 through the bus, wherever SP points (`PushedBus`), lowers SP by two and costs 8 cycles; it fails exactly when one of the two writes panics (`PushPanics`) |
| `Machine.PopStack` | src/cpu.rs:1204-1210 | `None` exactly where the read at SP+1 panics; otherwise a pop increments SP first and reads there |
| `Machine.PopStackU16` | src/cpu.rs:1211-1216 | `None` exactly where the read at SP+1 or SP+2 panics; otherwise a word pop reads the low byte at SP+1 and the high byte at SP+2 and raises SP by two |
| `Machine.PushStackU16Contents` | src/cpu.rs:1195-1203 | with the stack in RAM, a word push stores the high byte at SP and the low byte at SP−1 |
| `Machine.PushPopRoundTrip` | src/cpu.rs:1195-1216 | with the stack in RAM, popping a pushed word gives it back and restores SP |
| `Machine.PopAfterPush` | src/cpu.rs:1195-1216 | with SP lowered by 2 and the high byte of v at the old SP and its low byte just below, the pop yields v, the old SP and 16 cycles more than before the push |
| `Execution.FetchOperand` | src/cpu.rs:440-451 | `None` exactly where the immediate byte or (HL) cannot be read; operand 8 is the immediate byte (PC advances), 6 the byte at HL, the others read register r |
| `Execution.SetPair` | src/cpu.rs:303-336 | rr 0..3 stores BC, DE, HL or SP; the new state differs from the old only in B..L and SP, and the three other pairs keep their values |
| `Execution.ExecLdR1R2` | src/cpu.rs:175-182 | LD r1,r2 stores `read_reg_r(r2)` into r1 (a register, or the byte at HL through the bus) and changes nothing else but the cycles; it fails exactly when reading r2 fails or that bus write panics |
| `Execution.WriteBack` | src/cpu.rs:1269-1282 | `write_reg_r` fails exactly when the target is (HL) and that bus write panics; otherwise it stores the value in the target (register or byte at HL), keeps PC, SP and the control state, and costs 4 cycles for (HL) and none for a register |
| `Execution.WriteAfterRead` | src/cpu.rs:1222-1282 | a `read_reg_r` that succeeded followed by `write_reg_r`: fails exactly where the write panics on the unchanged bus, and costs the two accesses' cycles |
| `Execution.ExecLdR1N` | src/cpu.rs:183-190 | LD r,n stores the immediate byte into r (a register, or the byte at HL through the bus) and changes nothing else but PC and the cycles; it fails exactly when that byte cannot be read or that bus write panics |
| `Execution.ExecLdANnPtr` | src/cpu.rs:191-215 | LD A,(BC)/(DE)/(nn) loads A from the addressed byte; `None` exactly where nn or that byte cannot be read; otherwise only A, PC (+2 for nn) and the cycles change |
| `Execution.ExecLdNnPtrA` | src/cpu.rs:216-240 | LD (BC)/(DE)/(nn),A writes A there; `None` exactly where nn cannot be read or the write panics; otherwise only the bus (as `BusWrite` says), PC (+2 for nn) and the cycles change |
| `Execution.IndirectAddress` | src/cpu.rs:191-240 | the address of LD A,(BC)/(DE)/(nn) and LD (BC)/(DE)/(nn),A: BC and DE need no read, and (nn) fails exactly where nn cannot be read |
| `Execution.ExecLdACPtr` | src/cpu.rs:241-247 | LD A,(C) reads FF00+C into A; only A and 4 cycles change |
| `Execution.LoadHighA` | src/cpu.rs:295-302 | the read of FF00+n into A that LD A,(C) and LDH A,(n) end with never fails, stores the bus's byte in A and changes nothing else but 4 cycles |
| `Execution.ExecLdCPtrA` | src/cpu.rs:248-254 | LD (C),A writes A at FF00+C; `None` exactly where that write panics; otherwise only the bus, as `BusWrite` says, and 4 cycles change |
| `Execution.StoreHighA` | src/cpu.rs:248-254 | the write of A to FF00+n that LD (C),A and LDH (n),A end with fails exactly where that bus write panics; otherwise it changes only the bus, as `Bus.BusWrite` says, and 4 cycles |
| `Execution.ExecLdAHlPtrStep` | src/cpu.rs:255-278 | LDD/LDI A,(HL) load from HL, then step HL by −1 or +1 with wrap-around; `None` exactly where (HL) cannot be read; otherwise only A, H, L and 4 cycles change |
| `Execution.ExecLdHlPtrAStep` | src/cpu.rs:263-287 | LDD/LDI (HL),A store A at HL, then step HL; `None` exactly where the store panics; otherwise only the bus (as `BusWrite` says), H, L and 4 cycles change |
| `Execution.ExecLdhNPtrA` | src/cpu.rs:288-294 | LDH (n),A writes A at FF00+n; `None` when n cannot be read, and otherwise exactly where the write panics; otherwise only the bus (as `BusWrite` says), PC+1 and 12 cycles change |
| `Execution.ExecLdhANPtr` | src/cpu.rs:295-302 | LDH A,(n) reads FF00+n into A; `None` exactly where n cannot be read; otherwise only A, PC+1 and 12 cycles change |
| `Execution.ExecLdRrNn` | src/cpu.rs:303-336 | LD rr,nn stores the immediate word in pair `opcode/16`; `None` exactly where nn cannot be read; the other pairs keep their values and only B..L, SP, PC+2 and 16 cycles can change |
| `Execution.ExecLdSpHl` | src/cpu.rs:337-344 | LD SP,HL copies HL into SP |
| `Execution.ExecLdHlSpN` | src/cpu.rs:345-362 | LDHL SP,n puts SP + signed n into HL with the flags of `AddSpSigned`; `None` exactly where n cannot be read; otherwise only H, L, the flags, PC+1 and 12 cycles change |
| `Execution.ExecLdNnSp` | src/cpu.rs:363-374 | LD (nn),SP as written: SP takes the value nn and memory is untouched; `None` exactly where nn cannot be read |
| `Execution.ExecPushNn` | src/cpu.rs:375-405 | PUSH writes the pair's two bytes below SP through the bus (`PushedBus`), lowers SP by two and costs 20 cycles; it fails exactly when one of those writes panics |
| `Execution.PushNnPops` | src/cpu.rs:375-405 | with the stack in RAM, the word PUSH saved (AF, BC, DE or HL) is what a pop reads |
| `Execution.ExecPopNn` | src/cpu.rs:406-438 | POP raises SP by two at 16 cycles and loads the popped word into its pair; POP AF writes A and the F byte but, as written, leaves the flags the CPU tests; POP BC/DE/HL keep the other two pairs, and nothing else changes; `None` exactly where the pop cannot read |
| `Execution.ExecAddN` | src/cpu.rs:439-460 | ADD A,n with the flags of `Add`; `None` exactly where the operand cannot be read |
| `Execution.ExecAdcN` | src/cpu.rs:461-483 | ADC A,n as `Adc` with the carry flag; `None` exactly where the operand cannot be read |
| `Execution.ExecSubN` | src/cpu.rs:484-506 | SUB n with the flags of `Sub`; `None` exactly where the operand cannot be read |
| `Execution.ExecSbcN` | src/cpu.rs:507-528 | SBC n as written: A is kept and only the borrow flags of A − n − carry are set; `None` exactly where the operand cannot be read |
| `Execution.ExecAndN` | src/cpu.rs:529-548 | AND n bit by bit, H set; `None` exactly where the operand cannot be read |
| `Execution.ExecOrN` | src/cpu.rs:549-568 | OR n bit by bit; `None` exactly where the operand cannot be read |
| `Execution.ExecXorN` | src/cpu.rs:569-588 | XOR n bit by bit; `None` exactly where the operand cannot be read |
| `Execution.ExecCpN` | src/cpu.rs:589-606 | CP n keeps A and sets the flags of A − n; `None` exactly where the operand cannot be read |
| `Execution.ExecIncN` | src/cpu.rs:607-619 | INC r stores the operand plus one mod 256 back into r (a register, or the byte at HL through the bus) with the flags of `Inc`, and changes nothing else but the cycles; a register never fails, (HL) fails exactly when it cannot be read or written |
| `Execution.ExecDecN` | src/cpu.rs:620-633 | DEC r stores the operand minus one mod 256 back into r (a register, or the byte at HL through the bus) with the flags of `Dec`, and changes nothing else but the cycles; a register never fails, (HL) fails exactly when it cannot be read or written |
| `Execution.ExecAddHlNn` | src/cpu.rs:634-672 | ADD HL,rr: HL + rr mod 2^16, carries from bits 11 and 15, Z kept; only H, L, the flags and 4 cycles change |
| `Execution.ExecAddSpN` | src/cpu.rs:673-688 | ADD SP,n: SP + signed n mod 2^16 with the flags of `AddSpSigned`; `None` exactly where n cannot be read; otherwise only SP, the flags, PC+1 and 16 cycles change |
| `Execution.ExecStepNn` | src/cpu.rs:689-755 | INC/DEC rr step one pair by ±1 with wrap-around and keep the other pairs and the flags; only B..L, SP and 4 cycles can change |
| `Execution.ExecJpNn` | src/cpu.rs:866-872 | JP nn sets PC to the little-endian word at PC; `None` exactly where nn cannot be read |
| `Execution.ExecJpCcNn` | src/cpu.rs:873-882 | JP cc,nn jumps when the condition holds, otherwise skips the operand; `None` exactly where nn cannot be read |
| `Execution.RelativeTarget` | src/cpu.rs:889-897 | the JR target is the address after the operand plus the signed offset, mod 2^16 |
| `Execution.ExecJrN` | src/cpu.rs:889-897 | JR n jumps to `RelativeTarget`; `None` exactly where the offset cannot be read |
| `Execution.ExecJrCcN` | src/cpu.rs:898-910 | JR cc,n jumps when the condition holds, otherwise skips the offset; `None` exactly where the offset cannot be read |
| `Execution.ExecCallNn` | src/cpu.rs:911-920 | CALL nn pushes the return address (PC after the operand) through the bus, lowers SP by two and jumps to nn; fails exactly when nn cannot be read or the push panics |
| `Execution.ExecCallCcNn` | src/cpu.rs:921-933 | CALL cc,nn is CALL nn when the condition holds, otherwise skips the operand and fails exactly where nn cannot be read |
| `Execution.ExecRstN` | src/cpu.rs:934-941 | RST t pushes PC through the bus, lowers SP by two and jumps to t; fails exactly when the push panics |
| `Execution.RstNPops` | src/cpu.rs:934-949 | with the stack in RAM, RET after RST returns to the address after the RST |
| `Execution.ExecRet` | src/cpu.rs:942-949 | RET pops PC and raises SP by two; `None` exactly where the pop cannot read |
| `Execution.ExecRetCc` | src/cpu.rs:950-959 | RET cc is RET when the condition holds, otherwise costs 4 cycles and changes nothing else |
| `Execution.ExecReti` | src/cpu.rs:960-968 | RETI is RET that also sets IME, and fails exactly where RET does |
| `Execution.CallThenRet` | src/cpu.rs:911-949 | with the stack in RAM and a readable operand, RET after CALL nn resumes after the operand with SP restored |
| `Execution.ExecCb` | src/cpu.rs:1033-1190 | every CB instruction keeps PC, SP, F, IME, the EI/DI latches and the run state, and costs 0 cycles on a register and 4 or 8 on (HL) |
| `Execution.ExecBit` | src/cpu.rs:1034-1044 | BIT b,r only sets the flags of `BitTest`; `None` exactly where r cannot be read |
| `Execution.ExecSetRes` | src/cpu.rs:1045-1063 | SET/RES b,r store the operand with bit b set or cleared back into r (a register, or the byte at HL through the bus), keep the flags and change nothing else but the cycles; fails exactly when r cannot be read or written |
| `Execution.ExecShift` | src/cpu.rs:1064-1190 | the eight shift instructions store the shifted value back into r (a register, or the byte at HL through the bus) with its flags and change nothing else but the cycles; fail exactly when r cannot be read or written |
| `Execution.HandleCbOpcode` | src/cpu.rs:1019-1033 | `handle_cb_opcode` fetches the next byte (read_byte's 8 cycles plus 4) and executes its `parse_cb` decoding, keeping the control state; `None` when that byte cannot be read |
| `Execution.SetResOneBit` | src/cpu.rs:1045-1063 | the byte SET/RES write back has bit b set (SET) or cleared (RES) and every other bit of the operand kept |
| `Execution.SwapKeepsValue` | src/cpu.rs:1177-1190 | SWAP leaves its register unchanged and sets only the zero flag |
| `Execution.Group` | src/cpu.rs:174-995 | every instruction falls in one of eight dispatch groups, which follow the source's arm order |
| `Execution.Execute` | src/cpu.rs:174-995 | every arm costs a multiple of 4 up to 36 cycles and keeps the bus well-formed; every arm except DI, EI, RETI, HALT, STOP and POP AF keeps F, IME, the EI/DI latches and the run state |
| `Execution.ExecuteLoads` | src/cpu.rs:175-302 | the 8-bit load arms cost a multiple of 4 up to 36 cycles and keep F, IME, the EI/DI latches and the run state |
| `Execution.ExecuteIndirectLoads` | src/cpu.rs:241-302 | the (C), (HL±) and LDH arms cost a multiple of 4 up to 36 cycles and keep F, IME, the EI/DI latches and the run state |
| `Execution.ExecuteWordLoads` | src/cpu.rs:303-438 | the 16-bit load and stack arms cost a multiple of 4 up to 36 cycles and, except POP AF, keep F, IME, the EI/DI latches and the run state |
| `Execution.ExecuteAlu` | src/cpu.rs:439-606 | the ALU arms cost a multiple of 4 up to 36 cycles and keep F, IME, the EI/DI latches and the run state |
| `Execution.ExecuteIncDec` | src/cpu.rs:607-755 | the increment, decrement and 16-bit add arms cost a multiple of 4 up to 36 cycles and keep F, IME, the EI/DI latches and the run state |
| `Execution.AccumulatorArm` | src/cpu.rs:756-865 | DAA, CPL, CCF, SCF and the rotates of A replace only A and the flags. CPL complements A and sets N and H; CCF complements C and SCF sets it, both clearing N and H |
| `Execution.ExecuteMisc` | src/cpu.rs:756-865 | DAA, CPL, CCF, SCF and the rotates of A are `AccumulatorArm`; HALT only sleeps until an interrupt; DI and EI only set their latch; STOP fails exactly where its padding byte cannot be read and otherwise skips it, sleeps until a button press and clears LCDC bit 7; the other arms keep the control state |
| `Execution.ExecControl` | src/cpu.rs:780-811 | NOP changes nothing, HALT only sleeps until an interrupt, DI and EI only set their latch, STOP is `ExecStop`; each keeps the control state it does not name |
| `Execution.ExecStop` | src/cpu.rs:791-799 | STOP fails exactly where its padding byte cannot be read; otherwise it skips that byte (PC+1, 8 cycles), sleeps until a button press, and changes only LCDC in the PPU, clearing its bit 7 and keeping bits 0..6 |
| `Execution.ExecuteJumps` | src/cpu.rs:866-910 | the jump arms cost a multiple of 4 up to 36 cycles and keep F, IME, the EI/DI latches and the run state |
| `Execution.ExecuteCalls` | src/cpu.rs:911-968 | the call and return arms cost a multiple of 4 up to 36 cycles and keep F, IME, the EI/DI latches and the run state, except RETI, which sets IME |
| `Execution.DoNextInstruction` | src/cpu.rs:152-174 | a step whose opcode cannot be fetched fails; an undefined opcode only advances PC by one at 8 cycles; any other instruction costs 12 cycles plus a multiple of 4 up to 36 |
| `Execution.DoNextInstructionUndefined` | src/cpu.rs:153-163 | when the fetched opcode does not decode, the step is just the fetch |
| `Execution.DoNextInstructionDefined` | src/cpu.rs:153-174 | when the fetched opcode decodes, the step is the fetch, 4 more cycles, then that instruction's arm |
| `Execution.InterruptVector` | src/cpu.rs:143-149 | the interrupt of priority i jumps to 0x40 + 8i |
| `Execution.HandleInterrupts` | src/cpu.rs:126-150 | with nothing pending, nothing changes; otherwise the CPU wakes, IME clears, PC is pushed through the bus after the IF bit is cleared, PC becomes the vector and 8 cycles are charged; it fails exactly when that push panics |
| `Execution.InterruptDispatch` | src/cpu.rs:126-150 | with the stack in RAM, a taken interrupt is the pending one of highest priority, jumps to its vector, and leaves the old PC on top of the stack |
| `Execution.ApplyInterruptLatches` | src/cpu.rs:108-116 | DI's latch clears IME and EI's latch then sets it, and both latches clear |
| `Execution.Step` | src/cpu.rs:89-118 | `step` first updates the interconnect; with cycle debt it only pays 4; a CPU stopped for a button press stays stopped, and one halted with IME clear stays halted |
| `Execution.Dispatch` | src/cpu.rs:99-117 | a step without cycle debt costs 0 (asleep), 8 (an interrupt), an instruction's cost (8 undefined, 12 plus an arm's cost), or an interrupt plus an instruction |
| `Execution.RunIfOn` | src/cpu.rs:104-117 | unless the CPU is on nothing happens; otherwise the EI/DI latches are applied and one instruction runs, at an instruction's cost |
| `Execution.EiDelaysOneInstruction` | src/cpu.rs:108-117 | after EI the next instruction already runs with IME set, so the first interrupt can come only at the step after it |
| `Execution.DiDelaysOneInstruction` | src/cpu.rs:99-117 | after DI an interrupt can still be taken before the next instruction, which runs with IME clear |
| `Execution.HaltWakesOnInterrupt` | src/cpu.rs:99-117 | a CPU halted with IME set wakes on a pending interrupt and runs the handler's first instruction |
| `Execution.StepKeepsCycleInvariant` | src/cpu.rs:89-118 | the cycle debt stays a multiple of 4 between 0 and 56 |
| `Cpu.Cpu.constructor` | src/cpu.rs:59-87 | the new object's view is `Machine.Init` of the interconnect |
| `Cpu.Cpu.SetAf` | src/cpu.rs:1318-1323 | stores AF as `Machine.SetAf` says |
| `Cpu.Cpu.SetBc` | src/cpu.rs:1324-1329 | stores BC as `Machine.SetBc` says |
| `Cpu.Cpu.SetDe` | src/cpu.rs:1330-1335 | stores DE as `Machine.SetDe` says |
| `Cpu.Cpu.SetHl` | src/cpu.rs:1336-1341 | stores HL as `Machine.SetHl` says |
| `Cpu.Cpu.CheckCc` | src/cpu.rs:1250-1258 | cc 0..3 are NZ, Z, NC, C on the object's flags |
| `Cpu.Cpu.AddCycles` | src/cpu.rs:1218-1220 | adds to the cycle count and changes nothing else |
| `Cpu.Cpu.ReadMem` | src/cpu.rs:1259-1262 | refines `Machine.ReadMem` |
| `Cpu.Cpu.WriteMem` | src/cpu.rs:1264-1267 | refines `Machine.WriteMem`, writing through the interconnect |
| `Cpu.Cpu.WriteBus` | src/cpu.rs:1264-1267 | a write that does not panic changes the bus as `Bus.BusWrite` says and no register |
| `Cpu.Cpu.ReadByte` | src/cpu.rs:1284-1289 | refines `Machine.ReadByte` |
| `Cpu.Cpu.ReadNn` | src/cpu.rs:1291-1296 | refines `Machine.ReadNn` |
| `Cpu.Cpu.ReadRegR` | src/cpu.rs:1222-1235 | refines `Machine.ReadRegR` |
| `Cpu.Cpu.SetRegister` | src/cpu.rs:1270-1278 | refines `Machine.SetRegister` |
| `Cpu.Cpu.WriteRegR` | src/cpu.rs:1269-1282 | refines `Machine.WriteRegR` |
| `Cpu.Cpu.PushStack` | src/cpu.rs:1195-1198 | refines `Machine.PushStack` |
| `Cpu.Cpu.PushStackU16` | src/cpu.rs:1199-1203 | refines `Machine.PushStackU16` |
| `Cpu.Cpu.PopStack` | src/cpu.rs:1204-1210 | refines `Machine.PopStack` |
| `Cpu.Cpu.PopStackU16` | src/cpu.rs:1211-1216 | refines `Machine.PopStackU16` |
| `Cpu.Cpu.ExecLdR1R2` | src/cpu.rs:175-182 | updates the object as `Execution.ExecLdR1R2` says |
| `Cpu.Cpu.ExecLdR1N` | src/cpu.rs:183-190 | updates the object as `Execution.ExecLdR1N` says |
| `Cpu.Cpu.ExecLdANnPtr` | src/cpu.rs:191-215 | updates the object as `Execution.ExecLdANnPtr` says |
| `Cpu.Cpu.ExecLdNnPtrA` | src/cpu.rs:216-240 | updates the object as `Execution.ExecLdNnPtrA` says |
| `Cpu.Cpu.ExecLdACPtr` | src/cpu.rs:241-247 | updates the object as `Execution.ExecLdACPtr` says |
| `Cpu.Cpu.LoadHighA` | src/cpu.rs:295-302 | updates the object as `Execution.LoadHighA` says |
| `Cpu.Cpu.ExecLdCPtrA` | src/cpu.rs:248-254 | updates the object as `Execution.ExecLdCPtrA` says |
| `Cpu.Cpu.StoreHighA` | src/cpu.rs:248-254 | updates the object, the interconnect and its peripherals as `Execution.StoreHighA` says |
| `Cpu.Cpu.ExecLdAHlPtrStep` | src/cpu.rs:255-278 | updates the object as `Execution.ExecLdAHlPtrStep` says |
| `Cpu.Cpu.ExecLdHlPtrAStep` | src/cpu.rs:263-287 | updates the object as `Execution.ExecLdHlPtrAStep` says |
| `Cpu.Cpu.ExecLdhNPtrA` | src/cpu.rs:288-294 | updates the object as `Execution.ExecLdhNPtrA` says |
| `Cpu.Cpu.ExecLdhANPtr` | src/cpu.rs:295-302 | updates the object as `Execution.ExecLdhANPtr` says |
| `Cpu.Cpu.ExecLdRrNn` | src/cpu.rs:303-336 | updates the object as `Execution.ExecLdRrNn` says |
| `Cpu.Cpu.ExecLdSpHl` | src/cpu.rs:337-344 | updates the object as `Execution.ExecLdSpHl` says |
| `Cpu.Cpu.ExecLdHlSpN` | src/cpu.rs:345-362 | updates the object as `Execution.ExecLdHlSpN` says |
| `Cpu.Cpu.ExecLdNnSp` | src/cpu.rs:363-374 | updates the object as `Execution.ExecLdNnSp` says |
| `Cpu.Cpu.ExecPushNn` | src/cpu.rs:375-405 | updates the object as `Execution.ExecPushNn` says |
| `Cpu.Cpu.ExecPopNn` | src/cpu.rs:406-438 | updates the object as `Execution.ExecPopNn` says |
| `Cpu.Cpu.FetchOperand` | src/cpu.rs:440-451 | returns the operand as `Execution.FetchOperand` says |
| `Cpu.Cpu.ExecAddN` | src/cpu.rs:439-460 | updates the object as `Execution.ExecAddN` says |
| `Cpu.Cpu.ExecAdcN` | src/cpu.rs:461-483 | updates the object as `Execution.ExecAdcN` says |
| `Cpu.Cpu.ExecSubN` | src/cpu.rs:484-506 | updates the object as `Execution.ExecSubN` says |
| `Cpu.Cpu.ExecSbcN` | src/cpu.rs:507-528 | updates the object as `Execution.ExecSbcN` says |
| `Cpu.Cpu.ExecAndN` | src/cpu.rs:529-548 | updates the object as `Execution.ExecAndN` says |
| `Cpu.Cpu.ExecOrN` | src/cpu.rs:549-568 | updates the object as `Execution.ExecOrN` says |
| `Cpu.Cpu.ExecXorN` | src/cpu.rs:569-588 | updates the object as `Execution.ExecXorN` says |
| `Cpu.Cpu.ExecCpN` | src/cpu.rs:589-606 | updates the object as `Execution.ExecCpN` says |
| `Cpu.Cpu.ExecIncN` | src/cpu.rs:607-619 | updates the object as `Execution.ExecIncN` says |
| `Cpu.Cpu.ExecDecN` | src/cpu.rs:620-633 | updates the object as `Execution.ExecDecN` says |
| `Cpu.Cpu.PairValue` | src/cpu.rs:303-336 | reads pair rr as `Execution.PairValue` does |
| `Cpu.Cpu.SetPair` | src/cpu.rs:303-336 | stores pair rr as `Execution.SetPair` says |
| `Cpu.Cpu.ExecAddHlNn` | src/cpu.rs:634-672 | updates the object as `Execution.ExecAddHlNn` says |
| `Cpu.Cpu.ExecAddSpN` | src/cpu.rs:673-688 | updates the object as `Execution.ExecAddSpN` says |
| `Cpu.Cpu.ExecStepNn` | src/cpu.rs:689-755 | updates the object as `Execution.ExecStepNn` says |
| `Cpu.Cpu.ExecJpNn` | src/cpu.rs:866-872 | updates the object as `Execution.ExecJpNn` says |
| `Cpu.Cpu.ExecJpCcNn` | src/cpu.rs:873-882 | updates the object as `Execution.ExecJpCcNn` says |
| `Cpu.Cpu.ExecJrN` | src/cpu.rs:889-897 | updates the object as `Execution.ExecJrN` says |
| `Cpu.Cpu.ExecJrCcN` | src/cpu.rs:898-910 | updates the object as `Execution.ExecJrCcN` says |
| `Cpu.Cpu.ExecCallNn` | src/cpu.rs:911-920 | updates the object as `Execution.ExecCallNn` says |
| `Cpu.Cpu.ExecCallCcNn` | src/cpu.rs:921-933 | updates the object as `Execution.ExecCallCcNn` says |
| `Cpu.Cpu.ExecRstN` | src/cpu.rs:934-941 | updates the object as `Execution.ExecRstN` says |
| `Cpu.Cpu.ExecRet` | src/cpu.rs:942-949 | updates the object as `Execution.ExecRet` says |
| `Cpu.Cpu.ExecRetCc` | src/cpu.rs:950-959 | updates the object as `Execution.ExecRetCc` says |
| `Cpu.Cpu.ExecReti` | src/cpu.rs:960-968 | updates the object as `Execution.ExecReti` says |
| `Cpu.Cpu.ExecBit` | src/cpu.rs:1034-1044 | updates the object as `Execution.ExecBit` says |
| `Cpu.Cpu.ExecSetRes` | src/cpu.rs:1045-1063 | updates the object as `Execution.ExecSetRes` says |
| `Cpu.Cpu.ExecShift` | src/cpu.rs:1064-1190 | updates the object as `Execution.ExecShift` says |
| `Cpu.Cpu.ExecCb` | src/cpu.rs:1033-1190 | updates the object as `Execution.ExecCb` says |
| `Cpu.Cpu.HandleCbOpcode` | src/cpu.rs:1019-1193 | updates the object as `Execution.HandleCbOpcode` says |
| `Cpu.Cpu.ExecuteLoads` | src/cpu.rs:175-302 | updates the object as `Execution.ExecuteLoads` says |
| `Cpu.Cpu.ExecuteIndirectLoads` | src/cpu.rs:241-302 | updates the object as `Execution.ExecuteIndirectLoads` says |
| `Cpu.Cpu.ExecuteWordLoads` | src/cpu.rs:303-438 | updates the object as `Execution.ExecuteWordLoads` says |
| `Cpu.Cpu.ExecuteAlu` | src/cpu.rs:439-606 | updates the object as `Execution.ExecuteAlu` says |
| `Cpu.Cpu.ExecuteIncDec` | src/cpu.rs:607-755 | updates the object as `Execution.ExecuteIncDec` says |
| `Cpu.Cpu.ExecAccumulatorArm` | src/cpu.rs:756-865 | updates A and the flags as `Execution.AccumulatorArm` says |
| `Cpu.Cpu.ExecControlArm` | src/cpu.rs:780-811 | NOP, HALT, STOP, DI and EI update the object as `Execution.ExecControl` says |
| `Cpu.Cpu.ExecLatchArm` | src/cpu.rs:780-811 | NOP, HALT, DI and EI change only the run state or a latch, as `Execution.ExecControl` says |
| `Cpu.Cpu.ExecStop` | src/cpu.rs:791-799 | STOP as `Execution.ExecStop` says, where its padding byte can be read: skips that byte, sleeps until a button press, turns the LCD off |
| `Cpu.Cpu.ExecuteMisc` | src/cpu.rs:756-865 | updates the object as `Execution.ExecuteMisc` says |
| `Cpu.Cpu.ExecuteJumps` | src/cpu.rs:866-910 | updates the object as `Execution.ExecuteJumps` says |
| `Cpu.Cpu.ExecJpHlPtr` | src/cpu.rs:883-888 | JP (HL) sets PC to HL and changes nothing else |
| `Cpu.Cpu.ExecuteCalls` | src/cpu.rs:911-968 | updates the object as `Execution.ExecuteCalls` says |
| `Cpu.Cpu.Execute` | src/cpu.rs:174-995 | updates the object as `Execution.Execute` says |
| `Cpu.Cpu.DoNextInstruction` | src/cpu.rs:152-1000 | updates the object as `Execution.DoNextInstruction` says |
| `Cpu.Cpu.ExecuteFetched` | src/cpu.rs:172-174 | after a fetch that decodes, adds 4 cycles and runs the arm, ending in the state `Execution.Execute` gives |
| `Cpu.Cpu.TakeInterrupt` | src/cpu.rs:127-130 | asks the interconnect for an interrupt as `Bus.TakeInterrupt` says |
| `Cpu.Cpu.EnterInterrupt` | src/cpu.rs:136-149 | wakes, clears IME, pushes PC and jumps to the vector |
| `Cpu.Cpu.HandleInterrupts` | src/cpu.rs:126-150 | updates the object as `Execution.HandleInterrupts` says |
| `Cpu.Cpu.ApplyInterruptLatches` | src/cpu.rs:108-116 | updates IME and the latches as `Execution.ApplyInterruptLatches` says |
| `Cpu.Cpu.Dispatch` | src/cpu.rs:99-117 | updates the object as `Execution.Dispatch` says |
| `Cpu.Cpu.RunInstruction` | src/cpu.rs:107-117 | with the CPU on, applies the EI/DI latches and runs one instruction, as `Execution.ApplyInterruptLatches` and `Execution.DoNextInstruction` say |
| `Cpu.Cpu.Step` | src/cpu.rs:89-118 | updates the object, the interconnect and its peripherals as `Execution.Step` says |
| `Cpu.Cpu.UpdateInterconnect` | src/cpu.rs:89-91 | the interconnect's update at the start of a step changes the bus as `Bus.BusUpdate` says and no register |
| `Cpu.Cpu.BurnCycles` | src/cpu.rs:93-97 | a step with cycles still owed takes 4 off them and changes nothing else |

## Left out

- The host window (`minifb`), the frame buffers, `pixel_transfer`,
  `draw_background`, `draw_sprites`, `draw_tile`, `create_sprite` and
  `create_window` are not modelled. `Ppu.TileAddressInVram` states where a
  tile is read from, and `Ppu.IsAddrInBgMap` states when a VRAM write redraws
  one.
- Ppu.PpuUpdate: the drawing it leaves out can panic, and the model does not
  capture those panics, so `Ppu.PpuUpdate` and `Ppu.Ppu.Update` never fail.
  `draw_sprites` skips only columns past 160 (src/ppu.rs:274-275), so a sprite
  pixel in column 160 is written at index ly*160+160 (src/ppu.rs:284-286); on
  line 143 that is one past the 160*144 viewport buffer (src/ppu.rs:137).
  `update` reaches it through `pixel_transfer` in its PixelTransfer arm
  (src/ppu.rs:157-160). `create_sprite` subtracts 16 and 8 from OAM bytes as
  `u8` (src/ppu.rs:501-502), which underflows for small positions.
- `Joypad::update` is not defined in src/joypad.rs; it is only called, at
  src/interconnect.rs:231, with the host window. Its result becomes the
  boolean `joypadPressed` passed to `Step`.
- Bus.BusUpdate: the joypad register `keys` is left unchanged across
  `update`, whatever the host window's keys are; only the interrupt flag
  records the press (`Bus.UpdateRequestsInterrupts` states the same).
- Printing (`println!`, `print_registers`, the instruction strings,
  `print_stack`, `print_stack_size`), the console channel (`console_tx`,
  `send_instr_text`, `CpuText`) and `set_print_instruction` are output only and
  are left out. src/console.rs, src/main.rs and src/window.rs are not part of
  this model.
- `CPU_FREQ` is a floating-point constant used only by `main` for timing.
- The `check_bit` helper is defined in src/utils.rs, which is not part of this
  model. `Utils.CheckBit` is written from the test at
  src/interconnect.rs:248-253.
- `cycles` is an `i32` in the source and an unbounded integer here. The
  invariant `Execution.StepKeepsCycleInvariant` keeps it within 0..56, so it
  cannot overflow.
- The source's `pc += 1`, `ly += 1` and `u16`/`u8` additions would panic on
  overflow in a debug build. The model uses the release build's wrap-around.
- The cartridge control-range constants (`CHOOSE_MEMORY_MODE_*`,
  `ENABLE_RAM_BANK_*`, `CHOOSE_ROM_BANK_*`, `CHOOSE_RAM_BANK_*`) are not
  defined in src/memory_map.rs. `Cartridge.Write` takes them as a parameter
  (`ControlRanges`) required to be disjoint and below 0x8000.
- Cartridge.State.Valid: an image shorter than one bank (0x4000 bytes) is
  excluded. The source accepts it and panics on a bank-0 read past its end;
  every image of one bank or more is modelled, with the switchable-bank reads
  that panic (`Cartridge.ReadPanics`).
- `Interconnect::boot` is a plain accessor and is left out.
- `get_button_interrupt` is modelled (`Interconnect.Interconnect.GetButtonInterrupt`),
  but the CPU never calls it, so STOP is never left.
- Execution.Step: a panic inside `step` is modelled as `None`. The
  `Cpu.Cpu` methods require the step not to panic, and nothing is stated about
  a step that does.
