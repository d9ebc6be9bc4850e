/** The opcode decoder (src/instruction.rs): `Parse` maps a primary opcode to
    an instruction, `ParseCb` maps the byte after a 0xCB prefix. Each variant
    carries only the operand-selector bits cut out of the opcode. Opcodes and
    the indices cut out of them are small naturals, so `byte >> 3` is written
    `byte / 8` and `byte & 7` is `byte % 8`. */
module Instruction {

  import opened Wrappers
  import U = Utils

  /** An opcode byte, as the number 0..255 it denotes. */
  type Opcode = b: int | 0 <= b < 256
  /** A register index 0..7: B, C, D, E, H, L, (HL), A. */
  type Reg = r: int | 0 <= r < 8
  /** An ALU operand: a register index, or 8 for the immediate byte. */
  type Operand = n: int | 0 <= n <= 8
  /** A register-pair index 0..3: BC, DE, HL, SP. */
  type Pair = p: int | 0 <= p < 4
  /** A condition index 0..3: NZ, Z, NC, C. */
  type Cond = c: int | 0 <= c < 4
  /** An RST target: a multiple of 8 in 0x00..0x38. */
  type RstTarget = t: int | 0 <= t <= 0x38 && t % 8 == 0

  const IMMEDIATE: Operand := 8

  datatype Instruction =
    | LdR1R2(r1: Reg, r2: Reg)  // LD r1, r2
    | LdR1N(r1: Reg)            // LD r1, n
    | LdANnPtr                  // LD A, (BC) / (DE) / (nn)
    | LdNnPtrA                  // LD (BC) / (DE) / (nn), A
    | LdACPtr                   // LD A, (FF00+C)
    | LdCPtrA                   // LD (FF00+C), A
    | LddAHlPtr                 // LD A, (HL-)
    | LddHlPtrA                 // LD (HL-), A
    | LdiAHlPtr                 // LD A, (HL+)
    | LdiHlPtrA                 // LD (HL+), A
    | LdhNPtrA                  // LDH (n), A
    | LdhANPtr                  // LDH A, (n)
    | LdRrNn                    // LD BC/DE/HL/SP, nn
    | LdSpHl                    // LD SP, HL
    | LdHlSpN                   // LDHL SP, n
    | LdNnSp                    // LD (nn), SP
    | PushNn                    // PUSH AF/BC/DE/HL
    | PopNn                     // POP AF/BC/DE/HL
    | AddN(n: Operand)
    | AdcN(n: Operand)
    | SubN(n: Operand)
    | SbcN(n: Operand)
    | AndN(n: Operand)
    | OrN(n: Operand)
    | XorN(n: Operand)
    | CpN(n: Operand)
    | IncN(r: Reg)
    | DecN(r: Reg)
    | AddHlNn(rr: Pair)
    | AddSpN
    | IncNn(rr: Pair)
    | DecNn(rr: Pair)
    | Daa | Cpl | Ccf | Scf | Nop | Halt | Stop | Di | Ei
    | Rlca | Rla | Rrca | Rra
    | Cb                        // prefix: the next byte is decoded by ParseCb
    | JpNn
    | JpCcNn(cc: Cond)
    | JpHlPtr
    | JrN
    | JrCcN(cc: Cond)
    | CallNn
    | CallCcNn(cc: Cond)
    | RstN(t: RstTarget)
    | Ret
    | RetCc(cc: Cond)
    | Reti

  datatype CbInstruction =
    | BitBR(byte: Reg, r: Reg)
    | ResBR(byte: Reg, r: Reg)
    | SetBR(byte: Reg, r: Reg)
    | RlN(r: Reg)
    | RlcN(r: Reg)
    | RrN(r: Reg)
    | RrcN(r: Reg)
    | SlaN(r: Reg)
    | SraN(r: Reg)
    | SrlN(r: Reg)
    | SwapN(r: Reg)

  /** The eleven primary opcodes the decoder leaves undefined. */
  const UNDEFINED: set<Opcode> := {0xD3, 0xDB, 0xDD, 0xE3, 0xE4, 0xEB, 0xEC, 0xED, 0xF4, 0xFC, 0xFD}

  /** The eight ALU operations, numbered by the eighth of 0x80..0xBF they
      occupy: ADD, ADC, SUB, SBC, AND, XOR, OR, CP. */
  function AluFamily(k: int, n: Operand): Instruction
    requires 0 <= k < 8
  {
    if k == 0 then AddN(n)
    else if k == 1 then AdcN(n)
    else if k == 2 then SubN(n)
    else if k == 3 then SbcN(n)
    else if k == 4 then AndN(n)
    else if k == 5 then XorN(n)
    else if k == 6 then OrN(n)
    else CpN(n)
  }

  /** The primary decoder. The source is one `match` whose arms are tried in
      order; here it is split, at the source's own arm groups and with the
      order kept, into `Parse` (loads and stores), `ParseAlu` (8- and 16-bit
      arithmetic, miscellaneous and rotates) and `ParseControl` (jumps, calls,
      returns and the CB prefix). Its properties are the lemmas below. */
  function Parse(byte: Opcode): (r: Option<Instruction>)
  {
    if 0x40 <= byte <= 0x7F then
      var r1 := byte / 8 % 8;
      var r2 := byte % 8;
      Some(LdR1R2(r1, r2))
    else if (byte == 0x06 || byte == 0x0E || byte == 0x16 || byte == 0x1E || byte == 0x26 || byte == 0x2E || byte == 0x36 || byte == 0x3E) then Some(LdR1N((byte - 0x06) / 8))
    else if (byte == 0x0A || byte == 0x1A || byte == 0xFA) then Some(LdANnPtr)
    else if (byte == 0x02 || byte == 0x12 || byte == 0xEA) then Some(LdNnPtrA)
    else if byte == 0xF2 then Some(LdACPtr)
    else if byte == 0xE2 then Some(LdCPtrA)
    else if byte == 0x3A then Some(LddAHlPtr)
    else if byte == 0x32 then Some(LddHlPtrA)
    else if byte == 0x2A then Some(LdiAHlPtr)
    else if byte == 0x22 then Some(LdiHlPtrA)
    else if byte == 0xE0 then Some(LdhNPtrA)
    else if byte == 0xF0 then Some(LdhANPtr)
    else if (byte == 0x01 || byte == 0x11 || byte == 0x21 || byte == 0x31) then Some(LdRrNn)
    else if byte == 0xF9 then Some(LdSpHl)
    else if byte == 0xF8 then Some(LdHlSpN)
    else if byte == 0x08 then Some(LdNnSp)
    else if (byte == 0xF5 || byte == 0xC5 || byte == 0xD5 || byte == 0xE5) then Some(PushNn)
    else if (byte == 0xF1 || byte == 0xC1 || byte == 0xD1 || byte == 0xE1) then Some(PopNn)
    else ParseAlu(byte)
  }

  function ParseAlu(byte: Opcode): (r: Option<Instruction>)
  {
    if 0x80 <= byte <= 0x87 then Some(AddN(byte % 8))
    else if byte == 0xC6 then Some(AddN(8))
    else if 0x88 <= byte <= 0x8F then Some(AdcN(byte % 8))
    else if byte == 0xCE then Some(AdcN(8))
    else if 0x90 <= byte <= 0x97 then Some(SubN(byte % 8))
    else if byte == 0xD6 then Some(SubN(8))
    else if 0x98 <= byte <= 0x9F then Some(SbcN(byte % 8))
    else if byte == 0xDE then Some(SbcN(8))
    else if 0xA0 <= byte <= 0xA7 then Some(AndN(byte % 8))
    else if byte == 0xE6 then Some(AndN(8))
    else if 0xA8 <= byte <= 0xAF then Some(XorN(byte % 8))
    else if byte == 0xEE then Some(XorN(8))
    else if 0xB0 <= byte <= 0xB7 then Some(OrN(byte % 8))
    else if byte == 0xF6 then Some(OrN(8))
    else if 0xB8 <= byte <= 0xBF then Some(CpN(byte % 8))
    else if byte == 0xFE then Some(CpN(8))
    else if (byte == 0x04 || byte == 0x0C || byte == 0x14 || byte == 0x1C || byte == 0x24 || byte == 0x2C || byte == 0x34 || byte == 0x3C) then Some(IncN((byte - 0x04) / 8))
    else if (byte == 0x05 || byte == 0x0D || byte == 0x15 || byte == 0x1D || byte == 0x25 || byte == 0x2D || byte == 0x35 || byte == 0x3D) then Some(DecN((byte - 0x04) / 8))
    else if (byte == 0x09 || byte == 0x19 || byte == 0x29 || byte == 0x39) then Some(AddHlNn((byte - 0x09) / 16))
    else if byte == 0xE8 then Some(AddSpN)
    else if (byte == 0x03 || byte == 0x13 || byte == 0x23 || byte == 0x33) then Some(IncNn((byte - 0x03) / 16))
    else if (byte == 0x0B || byte == 0x1B || byte == 0x2B || byte == 0x3B) then Some(DecNn((byte - 0x0B) / 16))
    else if byte == 0x27 then Some(Daa)
    else if byte == 0x2F then Some(Cpl)
    else if byte == 0x3F then Some(Ccf)
    else if byte == 0x37 then Some(Scf)
    else if byte == 0x00 then Some(Nop)
    else if byte == 0x76 then Some(Halt)
    else if byte == 0x10 then Some(Stop)
    else if byte == 0xF3 then Some(Di)
    else if byte == 0xFB then Some(Ei)
    else if byte == 0x07 then Some(Rlca)
    else if byte == 0x17 then Some(Rla)
    else if byte == 0x0F then Some(Rrca)
    else if byte == 0x1F then Some(Rra)
    else ParseControl(byte)
  }

  function ParseControl(byte: Opcode): (r: Option<Instruction>)
  {
    if byte == 0xCB then Some(Cb)
    else if byte == 0xC3 then Some(JpNn)
    else if (byte == 0xC2 || byte == 0xCA || byte == 0xD2 || byte == 0xDA) then Some(JpCcNn((byte - 0xC2) / 8))
    else if byte == 0xE9 then Some(JpHlPtr)
    else if byte == 0x18 then Some(JrN)
    else if (byte == 0x20 || byte == 0x28 || byte == 0x30 || byte == 0x38) then Some(JrCcN((byte - 0x20) / 8))
    else if byte == 0xCD then Some(CallNn)
    else if (byte == 0xC4 || byte == 0xCC || byte == 0xD4 || byte == 0xDC) then Some(CallCcNn((byte - 0xC4) / 8))
    else if (byte == 0xC7 || byte == 0xCF || byte == 0xD7 || byte == 0xDF || byte == 0xE7 || byte == 0xEF || byte == 0xF7 || byte == 0xFF) then Some(RstN(byte - 0xC7))
    else if byte == 0xC9 then Some(Ret)
    else if (byte == 0xC0 || byte == 0xC8 || byte == 0xD0 || byte == 0xD8) then Some(RetCc((byte - 0xC0) / 8))
    else if byte == 0xD9 then Some(Reti)
    else None
  }

  /** The CB table is regular: bits 0..2 name the operand, bits 3..5 the
      operation or the bit number, bits 6..7 the block. */
  lemma ParseCbShift(byte: Opcode)
    requires byte < 0x40
    ensures ParseCb(byte) == ShiftFamily(byte / 8, byte % 8)
  {
    U.DivModUnique(byte, 8, byte / 8, byte % 8);
  }

  lemma ParseCbBit(byte: Opcode)
    requires 0x40 <= byte < 0x80
    ensures ParseCb(byte) == BitBR(byte / 8 % 8, byte % 8)
  {
    U.DivModUnique(byte - 0x40, 8, byte / 8 - 8, byte % 8);
    U.DivModUnique(byte / 8, 8, 1, byte / 8 - 8);
  }

  lemma ParseCbRes(byte: Opcode)
    requires 0x80 <= byte < 0xC0
    ensures ParseCb(byte) == ResBR(byte / 8 % 8, byte % 8)
  {
    U.DivModUnique(byte - 0x80, 8, byte / 8 - 16, byte % 8);
    U.DivModUnique(byte / 8, 8, 2, byte / 8 - 16);
  }

  lemma ParseCbSet(byte: Opcode)
    requires 0xC0 <= byte
    ensures ParseCb(byte) == SetBR(byte / 8 % 8, byte % 8)
  {
    U.DivModUnique(byte - 0xC0, 8, byte / 8 - 24, byte % 8);
    U.DivModUnique(byte / 8, 8, 3, byte / 8 - 24);
  }

  /** The rotate/shift family of the CB table, by eighths of 0x00..0x3F:
      RLC, RRC, RL, RR, SLA, SRA, SWAP, SRL. */
  function ShiftFamily(k: int, r: Reg): CbInstruction
    requires 0 <= k < 8
  {
    if k == 0 then RlcN(r)
    else if k == 1 then RrcN(r)
    else if k == 2 then RlN(r)
    else if k == 3 then RrN(r)
    else if k == 4 then SlaN(r)
    else if k == 5 then SraN(r)
    else if k == 6 then SwapN(r)
    else SrlN(r)
  }

  function ParseCb(byte: Opcode): CbInstruction
  {
    if byte <= 0x07 then RlcN(byte - 0x00)
    else if byte <= 0x0F then RrcN(byte - 0x08)
    else if byte <= 0x17 then RlN(byte - 0x10)
    else if byte <= 0x1F then RrN(byte - 0x18)
    else if byte <= 0x27 then SlaN(byte - 0x20)
    else if byte <= 0x2F then SraN(byte - 0x28)
    else if byte <= 0x37 then SwapN(byte - 0x30)
    else if byte <= 0x3F then SrlN(byte - 0x38)
    else if byte <= 0x7F then
      var byte := byte - 0x40;
      BitBR(byte / 8, byte % 8)
    else if byte <= 0xBF then
      var byte := byte - 0x80;
      ResBR(byte / 8, byte % 8)
    else
      var byte := byte - 0xC0;
      SetBR(byte / 8, byte % 8)
  }

  /** The 0x40..0x7F block decodes LD r1, r2 with r1 in bits 3..5, r2 in bits 0..2. */
  lemma ParseLoadBlock(byte: Opcode)
    requires 0x40 <= byte <= 0x7F
    ensures Parse(byte) == Some(LdR1R2(byte / 8 % 8, byte % 8))
  {
  }

  /** 0x76 is an LD, not HALT: the 0x40..0x7F arm shadows the HALT arm. */
  lemma HaltShadowed()
    ensures Parse(0x76) == Some(LdR1R2(6, 6))
  {
  }

  /** Exactly the eleven opcodes of UNDEFINED decode to None. */
  lemma ParseUndefined(byte: Opcode)
    ensures Parse(byte).None? <==> byte in UNDEFINED
  {
    ParseQuarters(byte);
  }

  /** No opcode decodes to HALT. */
  lemma ParseNeverHalt(byte: Opcode)
    ensures Parse(byte) != Some(Halt)
  {
    ParseQuarters(byte);
  }

  /** Both facts above, proved one part of the opcode space at a time. */
  lemma ParseQuarters(byte: Opcode)
    ensures Parse(byte).None? <==> byte in UNDEFINED
    ensures Parse(byte) != Some(Halt)
  {
    if byte < 0x40 {
      ParseFirstQuarter(byte);
    } else if byte < 0x80 {
      ParseLoadBlock(byte);
    } else if byte < 0xC0 {
      ParseAluBlock(byte);
    } else if byte < 0xE0 {
      ParseFourthQuarterLow(byte);
    } else {
      ParseFourthQuarterHigh(byte);
    }
  }

  lemma ParseFirstQuarter(byte: Opcode)
    requires byte < 0x40
    ensures Parse(byte).Some? && Parse(byte) != Some(Halt)
  {
  }

  lemma ParseFourthQuarterLow(byte: Opcode)
    requires 0xC0 <= byte < 0xE0
    ensures Parse(byte).None? <==> byte in {0xD3, 0xDB, 0xDD}
    ensures Parse(byte) != Some(Halt)
  {
  }

  lemma ParseFourthQuarterHigh(byte: Opcode)
    requires 0xE0 <= byte
    ensures Parse(byte).None? <==> byte in {0xE3, 0xE4, 0xEB, 0xEC, 0xED, 0xF4, 0xFC, 0xFD}
    ensures Parse(byte) != Some(Halt)
  {
  }

  /** 0x80..0xBF: the family by eighths (ADD, ADC, SUB, SBC, AND, XOR, OR, CP)
      with the register operand in bits 0..2. */
  lemma ParseAluBlock(byte: Opcode)
    requires 0x80 <= byte <= 0xBF
    ensures Parse(byte) == Some(AluFamily(byte / 8 % 8, byte % 8))
  {
  }

  /** C6, CE, D6, DE, E6, EE, F6, FE: the same families with the immediate operand 8. */
  lemma ParseAluImmediate(byte: Opcode)
    requires 0xC0 <= byte && byte % 8 == 6
    ensures Parse(byte) == Some(AluFamily(byte / 8 % 8, IMMEDIATE))
  {
  }

  /** LD r, n: the register index is bits 3..5. */
  lemma ParseLdR1N(byte: Opcode)
    requires byte < 0x40 && byte % 8 == 6
    ensures Parse(byte) == Some(LdR1N(byte / 8))
  {
  }

  /** INC r: the register index is bits 3..5. */
  lemma ParseIncN(byte: Opcode)
    requires byte < 0x40 && byte % 8 == 4
    ensures Parse(byte) == Some(IncN(byte / 8))
  {
  }

  /** DEC r: the register index is bits 3..5. */
  lemma ParseDecN(byte: Opcode)
    requires byte < 0x40 && byte % 8 == 5
    ensures Parse(byte) == Some(DecN(byte / 8))
  {
  }

  /** ADD HL, rr: the pair index is bits 4..5. */
  lemma ParseAddHlNn(byte: Opcode)
    requires byte < 0x40 && byte % 16 == 9
    ensures Parse(byte) == Some(AddHlNn(byte / 16))
  {
  }

  /** INC rr: the pair index is bits 4..5. */
  lemma ParseIncNn(byte: Opcode)
    requires byte < 0x40 && byte % 16 == 3
    ensures Parse(byte) == Some(IncNn(byte / 16))
  {
  }

  /** DEC rr: the pair index is bits 4..5. */
  lemma ParseDecNn(byte: Opcode)
    requires byte < 0x40 && byte % 16 == 0xB
    ensures Parse(byte) == Some(DecNn(byte / 16))
  {
  }

  /** JR cc: the condition index is bits 3..4. */
  lemma ParseJrCc(byte: Opcode)
    requires 0x20 <= byte < 0x40 && byte % 8 == 0
    ensures Parse(byte) == Some(JrCcN(byte / 8 % 4))
  {
  }

  /** JP cc: the condition index is bits 3..4. */
  lemma ParseJpCc(byte: Opcode)
    requires 0xC0 <= byte < 0xE0 && byte % 8 == 2
    ensures Parse(byte) == Some(JpCcNn(byte / 8 % 4))
  {
  }

  /** CALL cc: the condition index is bits 3..4. */
  lemma ParseCallCc(byte: Opcode)
    requires 0xC0 <= byte < 0xE0 && byte % 8 == 4
    ensures Parse(byte) == Some(CallCcNn(byte / 8 % 4))
  {
  }

  /** RET cc: the condition index is bits 3..4. */
  lemma ParseRetCc(byte: Opcode)
    requires 0xC0 <= byte < 0xE0 && byte % 8 == 0
    ensures Parse(byte) == Some(RetCc(byte / 8 % 4))
  {
  }

  /** RST: the target is bits 3..5 times 8, i.e. byte - 0xC7. */
  lemma ParseRst(byte: Opcode)
    requires 0xC0 <= byte && byte % 8 == 7
    ensures Parse(byte) == Some(RstN(byte % 64 / 8 * 8))
  {
  }

  /** The five arms whose operand is the opcode itself are produced only by
      the opcodes their inner `match` lists, so its `unreachable!()` arm is never reached. */
  lemma ParseLoadOpcodes(byte: Opcode)
    ensures Parse(byte) == Some(LdANnPtr) ==> byte in {0x0A, 0x1A, 0xFA}
    ensures Parse(byte) == Some(LdNnPtrA) ==> byte in {0x02, 0x12, 0xEA}
    ensures Parse(byte) == Some(LdRrNn) ==> byte in {0x01, 0x11, 0x21, 0x31}
  {
  }

  lemma ParseStackOpcodes(byte: Opcode)
    ensures Parse(byte) == Some(PushNn) ==> byte in {0xF5, 0xC5, 0xD5, 0xE5}
    ensures Parse(byte) == Some(PopNn) ==> byte in {0xF1, 0xC1, 0xD1, 0xE1}
  {
  }
}
