/** What `Cpu::step` does (src/cpu.rs), on the value `Machine.State`: burn
    cycle debt, dispatch an interrupt, apply the EI/DI latches, then fetch,
    decode and execute one instruction. Each arm of `do_next_instrution` and
    of `handle_cb_opcode` is one function; the arm's state in these
    functions is the state after the opcode fetch and the 4 extra cycles
    `do_next_instrution` charges. */
module Execution {

  import opened Wrappers
  import opened Utils
  import opened MemoryMap
  import opened Instruction
  import opened Machine
  import A = Alu
  import B = Bus
  import P = Ppu

  /** IME, both interrupt latches, the run state and F are as they were. */
  predicate SameControl(s: State, r: State) {
    && r.f == s.f && r.ime == s.ime && r.run == s.run
    && r.disablingInterrupts == s.disablingInterrupts
    && r.enablingInterrupts == s.enablingInterrupts
  }

  /** Cycles a read_reg_r or write_reg_r of index r costs. */
  function RegCost(r: Reg): nat {
    if r == 6 then 4 else 0
  }

  /** Cycles the operand of an 8-bit ALU arm costs: read_byte for the
      immediate, read_reg_r otherwise. */
  function OperandCost(n: Operand): nat {
    if n == IMMEDIATE then 8 else RegCost(n)
  }

  /** Whether fetching operand n panics: the immediate byte at PC, or the
      byte at HL for n == 6, lies in a ROM bank past the image. */
  predicate OperandPanics(s: State, n: Operand)
    requires s.Valid()
  {
    || (n == IMMEDIATE && B.ReadPanics(s.bus, s.pc))
    || (n == 6 && B.ReadPanics(s.bus, Hl(s)))
  }

  /** The operand of the 8-bit ALU arms: the byte at PC when n == 8, else
      read_reg_r(n). */
  function FetchOperand(s: State, n: Operand): (r: Option<(State, Byte)>)
    requires s.Valid()
    ensures r.None? <==> OperandPanics(s, n)
    ensures r.Some? ==> r.value.0 == s.(cycles := s.cycles + OperandCost(n), pc := if n == IMMEDIATE then WrapAdd(s.pc, 1) else s.pc)
    ensures r.Some? && n == IMMEDIATE ==> Some(r.value.1) == B.BusRead(s.bus, s.pc)
    ensures r.Some? && n == 6 ==> Some(r.value.1) == B.BusRead(s.bus, Hl(s))
    ensures n != IMMEDIATE && n != 6 ==> r == Some((s, Register(s, n)))
  {
    if n == IMMEDIATE then ReadByte(s) else ReadRegR(s, n)
  }

  /** Register pair index 0..3 of ADD HL / INC / DEC: BC, DE, HL, SP. */
  function PairValue(s: State, rr: Pair): Word {
    match rr
    case 0 => Bc(s)
    case 1 => De(s)
    case 2 => Hl(s)
    case _ => s.sp
  }

  function SetPair(s: State, rr: Pair, v: Word): (r: State)
    ensures PairValue(r, rr) == v
    ensures r.a == s.a && r.f == s.f && r.pc == s.pc && r.flags == s.flags && r.cycles == s.cycles
    ensures r.bus == s.bus && SameControl(s, r)
    ensures r == s.(b := r.b, c := r.c, d := r.d, e := r.e, h := r.h, l := r.l, sp := r.sp)
    ensures forall q: Pair :: q != rr ==> PairValue(r, q) == PairValue(s, q)
  {
    match rr
    case 0 => SetBc(s, v)
    case 1 => SetDe(s, v)
    case 2 => SetHl(s, v)
    case _ => s.(sp := v)
  }

  /** r is s with v stored into operand reg by write_reg_r -- into the
      register, or through the bus into the byte at HL -- and with nothing
      else changed but the flags, PC and the cycle count. */
  ghost predicate Stores(s: State, reg: Reg, v: Byte, r: State)
    requires s.Valid()
  {
    if reg == 6 then
      && B.BusWrite(s.bus, Hl(s), v).Some?
      && r == s.(bus := B.BusWrite(s.bus, Hl(s), v).value, flags := r.flags, pc := r.pc, cycles := r.cycles)
    else r == SetRegister(s, reg, v).(flags := r.flags, pc := r.pc, cycles := r.cycles)
  }

  /** write_reg_r of v into `dst` from a state that differs from s only in
      its flags and cycles: the write fails exactly when it is a store
      through HL that panics, and otherwise stores v as Stores says. */
  lemma WriteBack(s: State, t: State, dst: Reg, v: Byte)
    requires s.Valid() && t == s.(flags := t.flags, cycles := t.cycles)
    ensures var w := WriteRegR(t, dst, v);
      && (w.None? <==> dst == 6 && B.WritePanics(s.bus, Hl(s), v))
      && (w.Some? ==> && w.value.Valid() && SameControl(s, w.value) && Stores(s, dst, v, w.value)
                      && w.value.flags == t.flags && w.value.pc == s.pc && w.value.sp == s.sp
                      && w.value.cycles == t.cycles + RegCost(dst))
  {
    if dst != 6 {
      assert SetRegister(t, dst, v) == SetRegister(s, dst, v).(flags := t.flags, cycles := t.cycles);
    }
  }

  /** read_reg_r of `src`, new flags, then write_reg_r of v into `dst`. */
  lemma WriteAfterRead(s: State, src: Reg, dst: Reg, flags: A.Flags, v: Byte)
    requires s.Valid() && ReadRegR(s, src).Some?
    ensures var w := WriteRegR(ReadRegR(s, src).value.0.(flags := flags), dst, v);
      && (w.None? <==> dst == 6 && B.WritePanics(s.bus, Hl(s), v))
      && (w.Some? ==> && w.value.Valid() && SameControl(s, w.value) && Stores(s, dst, v, w.value)
                      && w.value.flags == flags && w.value.pc == s.pc && w.value.sp == s.sp
                      && w.value.cycles == s.cycles + RegCost(src) + RegCost(dst))
  {
    WriteBack(s, ReadRegR(s, src).value.0.(flags := flags), dst, v);
  }

  // Loads.

  function ExecLdR1R2(s: State, r1: Reg, r2: Reg): (r: Option<State>)
    requires s.Valid()
    ensures r.Some? ==> ArmStep(s, r.value)
    ensures r.Some? ==> r.value.Valid() && SameControl(s, r.value)
    ensures r.Some? ==> r.value.cycles == s.cycles + RegCost(r1) + RegCost(r2)
    ensures r1 != 6 ==> (r.Some? <==> ReadRegR(s, r2).Some?)
    ensures r1 != 6 && r.Some? ==> Register(r.value, r1) == ReadRegR(s, r2).value.1
    ensures r.None? <==> ReadRegR(s, r2).None? || (r1 == 6 && B.WritePanics(s.bus, Hl(s), ReadRegR(s, r2).value.1))
    ensures r.Some? ==> Stores(s, r1, ReadRegR(s, r2).value.1, r.value) && r.value.pc == s.pc && r.value.flags == s.flags
  {
    var (s1, v) :- ReadRegR(s, r2);
    WriteAfterRead(s, r2, r1, s1.flags, v);
    WriteRegR(s1.(flags := s1.flags), r1, v)
  }

  function ExecLdR1N(s: State, r1: Reg): (r: Option<State>)
    requires s.Valid()
    ensures r.Some? ==> ArmStep(s, r.value)
    ensures r.Some? ==> r.value.Valid() && SameControl(s, r.value)
    ensures r.Some? ==> r.value.cycles == s.cycles + 8 + RegCost(r1) && r.value.pc == WrapAdd(s.pc, 1)
    ensures B.ReadPanics(s.bus, s.pc) ==> r.None?
    ensures r1 != 6 ==> (r.None? <==> B.ReadPanics(s.bus, s.pc))
    ensures r1 != 6 && r.Some? ==> Some(Register(r.value, r1)) == B.BusRead(s.bus, s.pc)
    ensures r.None? <==> B.ReadPanics(s.bus, s.pc) || (r1 == 6 && B.WritePanics(s.bus, Hl(s), B.BusRead(s.bus, s.pc).value))
    ensures r.Some? ==> Stores(s, r1, B.BusRead(s.bus, s.pc).value, r.value) && r.value.flags == s.flags
  {
    var (s1, v) :- ReadByte(s);
    WriteRegR(s1, r1, v)
  }

  /** The address of LD A,(BC) / LD A,(DE) / LD A,(nn) and of the matching
      stores: BC, DE, or the little-endian word after the opcode; None where
      reading that word panics. */
  function IndirectAddress(s: State, opcode: Opcode): (r: Option<Address>)
    requires s.Valid()
    ensures r.None? <==> opcode != 0x0A && opcode != 0x02 && opcode != 0x1A && opcode != 0x12 && ReadNn(s).None?
  {
    if opcode == 0x0A || opcode == 0x02 then Some(Bc(s))
    else if opcode == 0x1A || opcode == 0x12 then Some(De(s))
    else var p :- ReadNn(s); Some(U8sAsU16(p.1))
  }

  function ExecLdANnPtr(s: State, opcode: Opcode): (r: Option<State>)
    requires s.Valid() && opcode in {0x0A, 0x1A, 0xFA}
    ensures r.None? <==> IndirectAddress(s, opcode).None? || B.ReadPanics(s.bus, IndirectAddress(s, opcode).value)
    ensures r.Some? ==> ArmStep(s, r.value)
    ensures r.Some? ==> r.value.Valid() && SameControl(s, r.value) && r.value.bus == s.bus
    ensures r.Some? ==> Some(r.value.a) == B.BusRead(s.bus, IndirectAddress(s, opcode).value)
    ensures r.Some? ==> r.value.cycles == s.cycles + (if opcode == 0xFA then 20 else 4)
    ensures r.Some? ==> r.value == s.(a := r.value.a, pc := if opcode == 0xFA then WrapAdd(s.pc, 2) else s.pc, cycles := r.value.cycles)
  {
    match opcode
    case 0x0A =>
      var (s1, v) :- ReadMem(s, Bc(s));
      Some(s1.(a := v))
    case 0x1A =>
      var (s1, v) :- ReadMem(s, De(s));
      Some(s1.(a := v))
    case _ =>
      var (s1, nn) :- ReadNn(s);
      var (s2, v) :- ReadMem(s1, U8sAsU16(nn));
      Some(s2.(a := v))
  }

  function ExecLdNnPtrA(s: State, opcode: Opcode): (r: Option<State>)
    requires s.Valid() && opcode in {0x02, 0x12, 0xEA}
    ensures r.None? <==> IndirectAddress(s, opcode).None? || B.WritePanics(s.bus, IndirectAddress(s, opcode).value, s.a)
    ensures r.Some? ==> ArmStep(s, r.value)
    ensures r.Some? ==> r.value.Valid() && SameControl(s, r.value) && r.value.a == s.a
    ensures r.Some? ==> r.value.bus == B.BusWrite(s.bus, IndirectAddress(s, opcode).value, s.a).value
    ensures r.Some? ==> r.value.cycles == s.cycles + (if opcode == 0xEA then 20 else 4)
    ensures r.Some? ==> r.value == s.(bus := r.value.bus, pc := if opcode == 0xEA then WrapAdd(s.pc, 2) else s.pc, cycles := r.value.cycles)
  {
    match opcode
    case 0x02 => WriteMem(s, Bc(s), s.a)
    case 0x12 => WriteMem(s, De(s), s.a)
    case _ =>
      var (s1, nn) :- ReadNn(s);
      WriteMem(s1, U8sAsU16(nn), s1.a)
  }

  /** LD A,(FF00+C): the high page never panics on a read. */
  function ExecLdACPtr(s: State): (r: State)
    requires s.Valid()
    ensures ArmStep(s, r)
    ensures r.Valid() && SameControl(s, r) && r.cycles == s.cycles + 4
    ensures Some(r.a) == B.BusRead(s.bus, 0xFF00 + s.c)
    ensures r == s.(a := r.a, cycles := s.cycles + 4)
  {
    LoadHighA(s, s.c)
  }

  /** A := the byte at FF00+n, the read both LDH A,(n) and LD A,(C) end
      with; no address of that page panics. */
  function LoadHighA(s: State, n: Byte): (r: State)
    requires s.Valid()
    ensures r.Valid() && r == s.(a := r.a, cycles := s.cycles + 4)
    ensures Some(r.a) == B.BusRead(s.bus, 0xFF00 + n)
  {
    var p := ReadMem(s, 0xFF00 + n);
    assert p.Some?;
    p.value.0.(a := p.value.1)
  }

  /** LD (FF00+C),A. */
  function ExecLdCPtrA(s: State): (r: Option<State>)
    requires s.Valid()
    ensures r.Some? ==> ArmStep(s, r.value)
    ensures r.None? <==> B.WritePanics(s.bus, 0xFF00 + s.c, s.a)
    ensures r.Some? ==> r.value.Valid() && SameControl(s, r.value) && r.value.cycles == s.cycles + 4
    ensures r.Some? ==> r.value.bus == B.BusWrite(s.bus, 0xFF00 + s.c, s.a).value
    ensures r.Some? ==> r.value == s.(bus := r.value.bus, cycles := s.cycles + 4)
  {
    StoreHighA(s, s.c)
  }

  /** The byte at FF00+n := A, the write both LDH (n),A and LD (C),A end
      with. */
  function StoreHighA(s: State, n: Byte): (r: Option<State>)
    requires s.Valid()
    ensures r.None? <==> B.WritePanics(s.bus, 0xFF00 + n, s.a)
    ensures r.Some? ==> r.value.Valid() && r.value == s.(cycles := s.cycles + 4, bus := r.value.bus)
    ensures r.Some? ==> r.value.bus == B.BusWrite(s.bus, 0xFF00 + n, s.a).value
  {
    WriteMem(s, 0xFF00 + n, s.a)
  }

  /** LDD A,(HL) and LDI A,(HL): load, then HL moves by `step`. */
  function ExecLdAHlPtrStep(s: State, step: int): (r: Option<State>)
    requires s.Valid() && (step == -1 || step == 1)
    ensures r.None? <==> B.ReadPanics(s.bus, Hl(s))
    ensures r.Some? ==> ArmStep(s, r.value)
    ensures r.Some? ==> r.value.Valid() && SameControl(s, r.value) && r.value.cycles == s.cycles + 4 && r.value.bus == s.bus
    ensures r.Some? ==> Some(r.value.a) == B.BusRead(s.bus, Hl(s)) && Hl(r.value) == WrapAdd(Hl(s), step)
    ensures r.Some? ==> r.value == s.(a := r.value.a, h := r.value.h, l := r.value.l, cycles := s.cycles + 4)
  {
    var address := Hl(s);
    var (s1, v) :- ReadMem(s, address);
    Some(SetHl(s1.(a := v), WrapAdd(address, step)))
  }

  /** LDD (HL),A and LDI (HL),A: store, then HL moves by `step`. */
  function ExecLdHlPtrAStep(s: State, step: int): (r: Option<State>)
    requires s.Valid() && (step == -1 || step == 1)
    ensures r.Some? ==> ArmStep(s, r.value)
    ensures r.None? <==> B.WritePanics(s.bus, Hl(s), s.a)
    ensures r.Some? ==> r.value.Valid() && SameControl(s, r.value) && r.value.cycles == s.cycles + 4
    ensures r.Some? ==> r.value.bus == B.BusWrite(s.bus, Hl(s), s.a).value && Hl(r.value) == WrapAdd(Hl(s), step)
    ensures r.Some? ==> r.value == s.(bus := r.value.bus, h := r.value.h, l := r.value.l, cycles := s.cycles + 4)
  {
    var address := Hl(s);
    var s1 :- WriteMem(s, address, s.a);
    Some(SetHl(s1, WrapAdd(address, step)))
  }

  /** LDH (n),A: the store goes to FF00 + the byte after the opcode. */
  function ExecLdhNPtrA(s: State): (r: Option<State>)
    requires s.Valid()
    ensures r.Some? ==> ArmStep(s, r.value)
    ensures B.ReadPanics(s.bus, s.pc) ==> r.None?
    ensures !B.ReadPanics(s.bus, s.pc) ==>
      var address := 0xFF00 + B.BusRead(s.bus, s.pc).value;
      && (r.None? <==> B.WritePanics(s.bus, address, s.a))
      && (r.Some? ==> r.value.bus == B.BusWrite(s.bus, address, s.a).value)
    ensures r.Some? ==> r.value.Valid() && SameControl(s, r.value) && r.value.cycles == s.cycles + 12
    ensures r.Some? ==> r.value == s.(bus := r.value.bus, pc := WrapAdd(s.pc, 1), cycles := s.cycles + 12)
  {
    var (s1, n) :- ReadByte(s);
    StoreHighA(s1, n)
  }

  /** LDH A,(n): only the operand fetch can panic. */
  function ExecLdhANPtr(s: State): (r: Option<State>)
    requires s.Valid()
    ensures r.None? <==> B.ReadPanics(s.bus, s.pc)
    ensures r.Some? ==> ArmStep(s, r.value)
    ensures r.Some? ==> r.value.Valid() && SameControl(s, r.value) && r.value.cycles == s.cycles + 12 && r.value.pc == WrapAdd(s.pc, 1)
    ensures r.Some? ==> Some(r.value.a) == B.BusRead(s.bus, 0xFF00 + B.BusRead(s.bus, s.pc).value)
    ensures r.Some? ==> r.value == s.(a := r.value.a, pc := WrapAdd(s.pc, 1), cycles := s.cycles + 12)
  {
    var (s1, n) :- ReadByte(s);
    Some(LoadHighA(s1, n))
  }

  /** LD rr,nn: 0x01 BC, 0x11 DE, 0x21 HL, 0x31 SP. */
  function ExecLdRrNn(s: State, opcode: Opcode): (r: Option<State>)
    requires s.Valid() && opcode in {0x01, 0x11, 0x21, 0x31}
    ensures r.None? <==> ReadNn(s).None?
    ensures r.Some? ==> ArmStep(s, r.value)
    ensures r.Some? ==> r.value.Valid() && SameControl(s, r.value) && r.value.cycles == s.cycles + 16 && r.value.pc == WrapAdd(s.pc, 2)
    ensures r.Some? ==> PairValue(r.value, opcode / 16) == U8sAsU16(ReadNn(s).value.1)
    ensures r.Some? ==> forall q: Pair :: q != opcode / 16 ==> PairValue(r.value, q) == PairValue(s, q)
    ensures r.Some? ==> r.value == s.(b := r.value.b, c := r.value.c, d := r.value.d, e := r.value.e,
                                       h := r.value.h, l := r.value.l, sp := r.value.sp,
                                       pc := WrapAdd(s.pc, 2), cycles := s.cycles + 16)
  {
    var (s1, nn) :- ReadNn(s);
    var value := U8sAsU16(nn);
    match opcode
    case 0x01 => Some(SetBc(s1, value))
    case 0x11 => Some(SetDe(s1, value))
    case 0x21 => Some(SetHl(s1, value))
    case _ => Some(s1.(sp := value))
  }

  function ExecLdSpHl(s: State): (r: State)
    requires s.Valid()
    ensures ArmStep(s, r)
    ensures r == s.(sp := Hl(s), cycles := s.cycles + 4)
  {
    s.(sp := Hl(s), cycles := s.cycles + 4)
  }

  /** LDHL SP,n: HL := SP + (i8)n with the flags of ADD SP,n; SP is kept. */
  function ExecLdHlSpN(s: State): (r: Option<State>)
    requires s.Valid()
    ensures r.None? <==> B.ReadPanics(s.bus, s.pc)
    ensures r.Some? ==> ArmStep(s, r.value)
    ensures r.Some? ==> r.value.Valid() && SameControl(s, r.value) && r.value.cycles == s.cycles + 12 && r.value.sp == s.sp
    ensures r.Some? ==> (Hl(r.value), r.value.flags) == A.AddSpSigned(s.sp, B.BusRead(s.bus, s.pc).value)
    ensures r.Some? ==> Hl(r.value) == (s.sp + SignedByte(B.BusRead(s.bus, s.pc).value)) % 0x1_0000
    ensures r.Some? ==> r.value == s.(h := r.value.h, l := r.value.l, flags := r.value.flags,
                                       pc := WrapAdd(s.pc, 1), cycles := s.cycles + 12)
  {
    var (s1, n) :- ReadByte(s);
    var (result, flags) := A.AddSpSigned(s1.sp, n);
    Some(SetHl(s1, result).(flags := flags, cycles := s1.cycles + 4))
  }

  /** LD (nn),SP as written: SP := nn, and nothing is stored. */
  function ExecLdNnSp(s: State): (r: Option<State>)
    requires s.Valid()
    ensures r.None? <==> ReadNn(s).None?
    ensures r.Some? ==> ArmStep(s, r.value)
    ensures r.Some? ==> r.value == s.(sp := U8sAsU16(ReadNn(s).value.1), pc := WrapAdd(s.pc, 2), cycles := s.cycles + 24)
  {
    var (s1, nn) :- ReadNn(s);
    Some(s1.(sp := U8sAsU16(nn), cycles := s1.cycles + 8))
  }

  /** The pair PUSH saves: 0xF5 AF, 0xC5 BC, 0xD5 DE, 0xE5 HL. */
  function PushedPair(s: State, opcode: Opcode): Word
    requires opcode in {0xF5, 0xC5, 0xD5, 0xE5}
  {
    match opcode
    case 0xF5 => Af(s)
    case 0xC5 => Bc(s)
    case 0xD5 => De(s)
    case _ => Hl(s)
  }

  function ExecPushNn(s: State, opcode: Opcode): (r: Option<State>)
    requires s.Valid() && opcode in {0xF5, 0xC5, 0xD5, 0xE5}
    ensures r.Some? ==> ArmStep(s, r.value)
    ensures r.Some? ==> r.value.Valid() && SameControl(s, r.value)
    ensures r.None? <==> PushPanics(s.bus, s.sp, PushedPair(s, opcode))
    ensures r.Some? ==> r.value == s.(sp := WrapAdd(s.sp, -2), cycles := s.cycles + 20, bus := PushedBus(s.bus, s.sp, PushedPair(s, opcode)))
  {
    var t :- match opcode
      case 0xF5 => PushStackU16(s, Af(s))
      case 0xC5 => PushStackU16(s, Bc(s))
      case 0xD5 => PushStackU16(s, De(s))
      case _ => PushStackU16(s, Hl(s));
    Some(t.(cycles := t.cycles + 12))
  }

  /** PUSH saves its pair where POP finds it, when SP and SP - 1 are work
      or high RAM. */
  lemma PushNnPops(s: State, opcode: Opcode)
    requires s.Valid() && opcode in {0xF5, 0xC5, 0xD5, 0xE5}
    requires B.IsRam(s.sp) && B.IsRam(WrapAdd(s.sp, -1))
    ensures ExecPushNn(s, opcode).Some?
    ensures PopStackU16(ExecPushNn(s, opcode).value).Some?
    ensures PopStackU16(ExecPushNn(s, opcode).value).value.1 == PushedPair(s, opcode)
  {
    PushPopRoundTrip(s, PushedPair(s, opcode));
  }

  /** POP: 0xF1 AF (the only write of F), 0xC1 BC, 0xD1 DE, 0xE1 HL. The
      flags the CPU tests are fields of their own, so POP AF leaves them. */
  function ExecPopNn(s: State, opcode: Opcode): (r: Option<State>)
    requires s.Valid() && opcode in {0xF1, 0xC1, 0xD1, 0xE1}
    ensures r.None? <==> PopStackU16(s).None?
    ensures r.Some? ==> ArmStep(s, r.value)
    ensures r.Some? ==> r.value.Valid() && r.value.cycles == s.cycles + 16 && r.value.sp == WrapAdd(s.sp, 2) && r.value.bus == s.bus
    ensures r.Some? && opcode != 0xF1 ==> SameControl(s, r.value) && r.value.a == s.a
    ensures r.Some? && opcode == 0xF1 ==> Af(r.value) == PopStackU16(s).value.1
    ensures r.Some? && opcode == 0xF1 ==> SameControl(s.(f := r.value.f), r.value)
    ensures r.Some? && opcode != 0xF1 ==> PairValue(r.value, (opcode - 0xC1) / 16) == PopStackU16(s).value.1
    ensures r.Some? ==> r.value.pc == s.pc && r.value.flags == s.flags
    ensures r.Some? && opcode == 0xF1 ==>
      r.value == s.(a := r.value.a, f := r.value.f, sp := WrapAdd(s.sp, 2), cycles := s.cycles + 16)
    ensures r.Some? && opcode != 0xF1 ==>
      && r.value == s.(b := r.value.b, c := r.value.c, d := r.value.d, e := r.value.e, h := r.value.h, l := r.value.l,
                       sp := WrapAdd(s.sp, 2), cycles := s.cycles + 16)
      && forall q: Pair :: q < 3 && q != (opcode - 0xC1) / 16 ==> PairValue(r.value, q) == PairValue(s, q)
  {
    var (s1, value) :- PopStackU16(s);
    var s2 := match opcode
      case 0xF1 => SetAf(s1, value)
      case 0xC1 => SetBc(s1, value)
      case 0xD1 => SetDe(s1, value)
      case _ => SetHl(s1, value);
    Some(s2.(cycles := s2.cycles + 8))
  }

  // 8-bit arithmetic and logic.

  /** After an ALU arm only A, the flags and what fetching the operand
      changed (PC, the cycle count) differ. */
  ghost predicate AluStep(s: State, n: Operand, r: State)
    requires s.Valid()
  {
    FetchOperand(s, n).Some? && r == FetchOperand(s, n).value.0.(a := r.a, flags := r.flags)
  }

  function ExecAddN(s: State, n: Operand): (r: Option<State>)
    requires s.Valid()
    ensures r.None? <==> OperandPanics(s, n)
    ensures r.Some? ==> ArmStep(s, r.value) && AluStep(s, n, r.value)
    ensures r.Some? ==> r.value.a == (s.a + FetchOperand(s, n).value.1) % 0x100
    ensures r.Some? ==> r.value.flags.z == (r.value.a == 0) && !r.value.flags.n
    ensures r.Some? ==> r.value.flags.h == (s.a % 16 + FetchOperand(s, n).value.1 % 16 > 0xF)
    ensures r.Some? ==> r.value.flags.c == (s.a + FetchOperand(s, n).value.1 > 0xFF)
  {
    var (s1, v) :- FetchOperand(s, n);
    var (a, flags) := A.Add(s1.a, v);
    Some(s1.(a := a, flags := flags))
  }

  function ExecAdcN(s: State, n: Operand): (r: Option<State>)
    requires s.Valid()
    ensures r.None? <==> OperandPanics(s, n)
    ensures r.Some? ==> ArmStep(s, r.value) && AluStep(s, n, r.value)
    ensures r.Some? ==> (r.value.a, r.value.flags) == A.Adc(s.a, FetchOperand(s, n).value.1, s.flags.c)
  {
    var (s1, v) :- FetchOperand(s, n);
    var (a, flags) := A.Adc(s1.a, v, s1.flags.c);
    Some(s1.(a := a, flags := flags))
  }

  function ExecSubN(s: State, n: Operand): (r: Option<State>)
    requires s.Valid()
    ensures r.None? <==> OperandPanics(s, n)
    ensures r.Some? ==> ArmStep(s, r.value) && AluStep(s, n, r.value)
    ensures r.Some? ==> r.value.a == (s.a - FetchOperand(s, n).value.1) % 0x100
    ensures r.Some? ==> r.value.flags.z == (s.a == FetchOperand(s, n).value.1) && r.value.flags.n
    ensures r.Some? ==> r.value.flags.h == (s.a % 16 < FetchOperand(s, n).value.1 % 16)
    ensures r.Some? ==> r.value.flags.c == (s.a < FetchOperand(s, n).value.1)
  {
    var (s1, v) :- FetchOperand(s, n);
    var (a, flags) := A.Sub(s1.a, v);
    Some(s1.(a := a, flags := flags))
  }

  /** SBC as written: the flags of A - n - carry, and A is not written. */
  function ExecSbcN(s: State, n: Operand): (r: Option<State>)
    requires s.Valid()
    ensures r.None? <==> OperandPanics(s, n)
    ensures r.Some? ==> ArmStep(s, r.value) && AluStep(s, n, r.value) && r.value.a == s.a
    ensures r.Some? ==> (r.value.flags.z <==> (s.a - FetchOperand(s, n).value.1 - A.Bit(s.flags.c)) % 0x100 == 0)
    ensures r.Some? ==> r.value.flags.n && (r.value.flags.c <==> s.a < FetchOperand(s, n).value.1 + A.Bit(s.flags.c))
    ensures r.Some? ==> (r.value.flags.h <==> s.a % 16 < FetchOperand(s, n).value.1 % 16 + A.Bit(s.flags.c))
  {
    var (s1, v) :- FetchOperand(s, n);
    assert s1.a == s.a && s1.flags == s.flags;
    Some(s1.(flags := A.SbcFlags(s.a, v, s.flags.c)))
  }

  function ExecAndN(s: State, n: Operand): (r: Option<State>)
    requires s.Valid()
    ensures r.None? <==> OperandPanics(s, n)
    ensures r.Some? ==> ArmStep(s, r.value) && AluStep(s, n, r.value)
    ensures r.Some? ==> forall i :: 0 <= i < 8 ==>
      (CheckBit(r.value.a, i) <==> CheckBit(s.a, i) && CheckBit(FetchOperand(s, n).value.1, i))
    ensures r.Some? ==> r.value.flags == A.Flags(r.value.a == 0, false, true, false)
  {
    var (s1, v) :- FetchOperand(s, n);
    var (a, flags) := A.AndA(s1.a, v);
    Some(s1.(a := a, flags := flags))
  }

  function ExecOrN(s: State, n: Operand): (r: Option<State>)
    requires s.Valid()
    ensures r.None? <==> OperandPanics(s, n)
    ensures r.Some? ==> ArmStep(s, r.value) && AluStep(s, n, r.value)
    ensures r.Some? ==> forall i :: 0 <= i < 8 ==>
      (CheckBit(r.value.a, i) <==> CheckBit(s.a, i) || CheckBit(FetchOperand(s, n).value.1, i))
    ensures r.Some? ==> r.value.flags == A.Flags(r.value.a == 0, false, false, false)
  {
    var (s1, v) :- FetchOperand(s, n);
    var (a, flags) := A.OrA(s1.a, v);
    Some(s1.(a := a, flags := flags))
  }

  function ExecXorN(s: State, n: Operand): (r: Option<State>)
    requires s.Valid()
    ensures r.None? <==> OperandPanics(s, n)
    ensures r.Some? ==> ArmStep(s, r.value) && AluStep(s, n, r.value)
    ensures r.Some? ==> forall i :: 0 <= i < 8 ==>
      (CheckBit(r.value.a, i) <==> CheckBit(s.a, i) != CheckBit(FetchOperand(s, n).value.1, i))
    ensures r.Some? ==> r.value.flags == A.Flags(r.value.a == 0, false, false, false)
  {
    var (s1, v) :- FetchOperand(s, n);
    var (a, flags) := A.XorA(s1.a, v);
    Some(s1.(a := a, flags := flags))
  }

  /** CP: the flags of SUB, and A is kept. */
  function ExecCpN(s: State, n: Operand): (r: Option<State>)
    requires s.Valid()
    ensures r.None? <==> OperandPanics(s, n)
    ensures r.Some? ==> ArmStep(s, r.value) && AluStep(s, n, r.value) && r.value.a == s.a
    ensures r.Some? ==> r.value.flags == A.Sub(s.a, FetchOperand(s, n).value.1).1
  {
    var (s1, v) :- FetchOperand(s, n);
    Some(s1.(flags := A.Cp(s1.a, v)))
  }

  /** INC r: Z, N, H from the increment, C kept; for (HL) the byte is read
      and written back through the bus. */
  function ExecIncN(s: State, reg: Reg): (r: Option<State>)
    requires s.Valid()
    ensures ReadRegR(s, reg).None? ==> r.None?
    ensures r.Some? ==> ArmStep(s, r.value)
    ensures r.Some? ==> r.value.Valid() && SameControl(s, r.value) && r.value.cycles == s.cycles + 2 * RegCost(reg)
    ensures r.Some? ==> var v := ReadRegR(s, reg).value.1;
      r.value.flags == A.Flags(v == 0xFF, false, v % 16 == 0xF, s.flags.c)
    ensures reg != 6 ==> r.Some? && Register(r.value, reg) == (Register(s, reg) + 1) % 0x100
    ensures r.None? <==> ReadRegR(s, reg).None? || (reg == 6 && B.WritePanics(s.bus, Hl(s), (ReadRegR(s, reg).value.1 + 1) % 0x100))
    ensures r.Some? ==> Stores(s, reg, (ReadRegR(s, reg).value.1 + 1) % 0x100, r.value) && r.value.pc == s.pc
  {
    var (s1, v) :- ReadRegR(s, reg);
    var (result, flags) := A.Inc(v, s1.flags.c);
    WriteAfterRead(s, reg, reg, flags, result);
    WriteRegR(s1.(flags := flags), reg, result)
  }

  /** DEC r: Z, N, H from the decrement, C kept. */
  function ExecDecN(s: State, reg: Reg): (r: Option<State>)
    requires s.Valid()
    ensures ReadRegR(s, reg).None? ==> r.None?
    ensures r.Some? ==> ArmStep(s, r.value)
    ensures r.Some? ==> r.value.Valid() && SameControl(s, r.value) && r.value.cycles == s.cycles + 2 * RegCost(reg)
    ensures r.Some? ==> var v := ReadRegR(s, reg).value.1;
      r.value.flags == A.Flags(v == 1, true, v % 16 == 0, s.flags.c)
    ensures reg != 6 ==> r.Some? && Register(r.value, reg) == (Register(s, reg) - 1) % 0x100
    ensures r.None? <==> ReadRegR(s, reg).None? || (reg == 6 && B.WritePanics(s.bus, Hl(s), (ReadRegR(s, reg).value.1 - 1) % 0x100))
    ensures r.Some? ==> Stores(s, reg, (ReadRegR(s, reg).value.1 - 1) % 0x100, r.value) && r.value.pc == s.pc
  {
    var (s1, v) :- ReadRegR(s, reg);
    var (result, flags) := A.Dec(v, s1.flags.c);
    WriteAfterRead(s, reg, reg, flags, result);
    WriteRegR(s1.(flags := flags), reg, result)
  }

  // 16-bit arithmetic.

  /** ADD HL,rr: Z kept, carries out of bits 11 and 15. */
  function ExecAddHlNn(s: State, rr: Pair): (r: State)
    requires s.Valid()
    ensures ArmStep(s, r)
    ensures r.Valid() && SameControl(s, r) && r.cycles == s.cycles + 4 && r.pc == s.pc && r.bus == s.bus
    ensures var hl, nn := Hl(s), PairValue(s, rr);
      && Hl(r) == (hl + nn) % 0x1_0000
      && r.flags == A.Flags(s.flags.z, false, hl % 0x1000 + nn % 0x1000 > 0xFFF, hl + nn > 0xFFFF)
    ensures r == s.(h := r.h, l := r.l, flags := r.flags, cycles := s.cycles + 4)
  {
    var nn := PairValue(s, rr);
    var (result, flags) := A.AddHl(Hl(s), nn, s.flags.z);
    SetHl(s, result).(flags := flags, cycles := s.cycles + 4)
  }

  /** ADD SP,n with the sign-extended byte after the opcode. */
  function ExecAddSpN(s: State): (r: Option<State>)
    requires s.Valid()
    ensures r.None? <==> B.ReadPanics(s.bus, s.pc)
    ensures r.Some? ==> ArmStep(s, r.value)
    ensures r.Some? ==> r.value.Valid() && SameControl(s, r.value) && r.value.cycles == s.cycles + 16 && r.value.pc == WrapAdd(s.pc, 1)
    ensures r.Some? ==> (r.value.sp, r.value.flags) == A.AddSpSigned(s.sp, B.BusRead(s.bus, s.pc).value)
    ensures r.Some? ==> r.value.sp == (s.sp + SignedByte(B.BusRead(s.bus, s.pc).value)) % 0x1_0000
    ensures r.Some? ==> Hl(r.value) == Hl(s) && r.value.a == s.a
    ensures r.Some? ==> r.value == s.(sp := r.value.sp, flags := r.value.flags, pc := WrapAdd(s.pc, 1), cycles := s.cycles + 16)
  {
    var (s1, n) :- ReadByte(s);
    var (result, flags) := A.AddSpSigned(s1.sp, n);
    Some(s1.(sp := result, flags := flags, cycles := s1.cycles + 8))
  }

  /** INC rr / DEC rr: the pair moves by `step`, wrapping; no flag changes. */
  function ExecStepNn(s: State, rr: Pair, step: int): (r: State)
    requires s.Valid() && (step == 1 || step == -1)
    ensures ArmStep(s, r)
    ensures r.Valid() && SameControl(s, r) && r.cycles == s.cycles + 4 && r.flags == s.flags
    ensures PairValue(r, rr) == WrapAdd(PairValue(s, rr), step)
    ensures forall q: Pair :: q != rr ==> PairValue(r, q) == PairValue(s, q)
    ensures r == s.(b := r.b, c := r.c, d := r.d, e := r.e, h := r.h, l := r.l, sp := r.sp, cycles := s.cycles + 4)
  {
    SetPair(s, rr, WrapAdd(PairValue(s, rr), step)).(cycles := s.cycles + 4)
  }

  // Jumps, calls and returns.

  /** JP nn. */
  function ExecJpNn(s: State): (r: Option<State>)
    requires s.Valid()
    ensures r.None? <==> B.ReadPanics(s.bus, s.pc) || B.ReadPanics(s.bus, WrapAdd(s.pc, 1))
    ensures r.Some? ==> ArmStep(s, r.value)
    ensures r.Some? ==> r.value == s.(pc := r.value.pc, cycles := s.cycles + 16)
    ensures r.Some? ==> r.value.pc == 0x100 * B.BusRead(s.bus, WrapAdd(s.pc, 1)).value + B.BusRead(s.bus, s.pc).value
  {
    var (s1, nn) :- ReadNn(s);
    Some(s1.(pc := U8sAsU16(nn)))
  }

  /** JP cc,nn: the operand is read whether or not the jump is taken. */
  function ExecJpCcNn(s: State, cc: Cond): (r: Option<State>)
    requires s.Valid()
    ensures r.None? <==> ReadNn(s).None?
    ensures r.Some? ==> ArmStep(s, r.value)
    ensures r.Some? ==> r.value == s.(pc := r.value.pc, cycles := s.cycles + 16)
    ensures r.Some? ==> r.value.pc == if CheckCc(s, cc) then U8sAsU16(ReadNn(s).value.1) else WrapAdd(s.pc, 2)
  {
    var (s1, nn) :- ReadNn(s);
    if CheckCc(s1, cc) then Some(s1.(pc := U8sAsU16(nn))) else Some(s1)
  }

  /** The target of a relative jump whose displacement is at `s.pc`. */
  function RelativeTarget(s: State): (r: Word)
    requires s.Valid() && !B.ReadPanics(s.bus, s.pc)
    ensures r == (WrapAdd(s.pc, 1) + SignedByte(B.BusRead(s.bus, s.pc).value)) % 0x1_0000
  {
    var (s1, n) := ReadByte(s).value;
    A.SignedSum(s1.pc, n);
    WrapAdd(s1.pc, A.SignExtend(n))
  }

  /** JR n: PC moves by the signed displacement, counted from the byte
      after it. */
  function ExecJrN(s: State): (r: Option<State>)
    requires s.Valid()
    ensures r.None? <==> B.ReadPanics(s.bus, s.pc)
    ensures r.Some? ==> ArmStep(s, r.value)
    ensures r.Some? ==> r.value == s.(pc := RelativeTarget(s), cycles := s.cycles + 12)
  {
    var (s1, n) :- ReadByte(s);
    var s2 := s1.(pc := WrapAdd(s1.pc, A.SignExtend(n)));
    Some(s2.(cycles := s2.cycles + 4))
  }

  function ExecJrCcN(s: State, cc: Cond): (r: Option<State>)
    requires s.Valid()
    ensures r.None? <==> B.ReadPanics(s.bus, s.pc)
    ensures r.Some? ==> ArmStep(s, r.value)
    ensures r.Some? ==> r.value == s.(pc := if CheckCc(s, cc) then RelativeTarget(s) else WrapAdd(s.pc, 1), cycles := s.cycles + 12)
  {
    var (s1, n) :- ReadByte(s);
    var s2 := if CheckCc(s1, cc) then s1.(pc := WrapAdd(s1.pc, A.SignExtend(n))) else s1;
    Some(s2.(cycles := s2.cycles + 4))
  }

  /** CALL nn: the address after the operand is pushed, then PC := nn. */
  function ExecCallNn(s: State): (r: Option<State>)
    requires s.Valid()
    ensures r.None? <==> ReadNn(s).None? || PushPanics(s.bus, s.sp, WrapAdd(s.pc, 2))
    ensures r.Some? ==> ArmStep(s, r.value)
    ensures r.Some? ==> r.value.Valid()
    ensures r.Some? ==> r.value == s.(sp := WrapAdd(s.sp, -2), pc := U8sAsU16(ReadNn(s).value.1), cycles := s.cycles + 32,
                                      bus := PushedBus(s.bus, s.sp, WrapAdd(s.pc, 2)))
  {
    var (s1, nn) :- ReadNn(s);
    var s2 :- PushStackU16(s1, s1.pc);
    Some(s2.(pc := U8sAsU16(nn), cycles := s2.cycles + 8))
  }

  /** CALL cc,nn: 8 cycles more when the call is taken. */
  function ExecCallCcNn(s: State, cc: Cond): (r: Option<State>)
    requires s.Valid()
    ensures r.Some? ==> ArmStep(s, r.value)
    ensures !CheckCc(s, cc) ==> (r.None? <==> ReadNn(s).None?)
    ensures !CheckCc(s, cc) && r.Some? ==> r.value == s.(pc := WrapAdd(s.pc, 2), cycles := s.cycles + 24)
    ensures CheckCc(s, cc) ==> r == ExecCallNn(s)
  {
    var (s1, nn) :- ReadNn(s);
    if CheckCc(s1, cc) then
      var s2 :- PushStackU16(s1, s1.pc);
      Some(s2.(pc := U8sAsU16(nn), cycles := s2.cycles + 8))
    else
      Some(s1.(cycles := s1.cycles + 8))
  }

  /** RST t: push PC, jump to t. */
  function ExecRstN(s: State, t: RstTarget): (r: Option<State>)
    requires s.Valid()
    ensures r.Some? ==> ArmStep(s, r.value)
    ensures r.Some? ==> r.value.Valid()
    ensures r.None? <==> PushPanics(s.bus, s.sp, s.pc)
    ensures r.Some? ==> r.value == s.(sp := WrapAdd(s.sp, -2), pc := t, cycles := s.cycles + 36, bus := PushedBus(s.bus, s.sp, s.pc))
  {
    var s1 :- PushStackU16(s, s.pc);
    Some(s1.(pc := t, cycles := s1.cycles + 28))
  }

  /** RST saves the address after it where RET finds it, when
      SP and SP - 1 are work or high RAM. */
  lemma RstNPops(s: State, t: RstTarget)
    requires s.Valid() && B.IsRam(s.sp) && B.IsRam(WrapAdd(s.sp, -1))
    ensures ExecRstN(s, t).Some?
    ensures ExecRet(ExecRstN(s, t).value).Some?
    ensures ExecRet(ExecRstN(s, t).value).value.pc == s.pc
  {
    PushPopRoundTrip(s, s.pc);
  }

  /** RET: PC := the popped word. */
  function ExecRet(s: State): (r: Option<State>)
    requires s.Valid()
    ensures r.None? <==> PopStackU16(s).None?
    ensures r.Some? ==> ArmStep(s, r.value)
    ensures r.Some? ==> r.value == s.(sp := WrapAdd(s.sp, 2), pc := PopStackU16(s).value.1, cycles := s.cycles + 12)
  {
    var (s1, address) :- PopStackU16(s);
    Some(s1.(pc := address, cycles := s1.cycles + 4))
  }

  /** RET cc: pops only when the condition holds. */
  function ExecRetCc(s: State, cc: Cond): (r: Option<State>)
    requires s.Valid()
    ensures r.Some? ==> ArmStep(s, r.value)
    ensures !CheckCc(s, cc) ==> r == Some(s.(cycles := s.cycles + 4))
    ensures CheckCc(s, cc) ==> r == ExecRet(s)
  {
    var s1 :- if CheckCc(s, cc) then var (s2, address) :- PopStackU16(s); Some(s2.(pc := address)) else Some(s);
    Some(s1.(cycles := s1.cycles + 4))
  }

  /** RETI: RET, and IME is set at once (no latch). */
  function ExecReti(s: State): (r: Option<State>)
    requires s.Valid()
    ensures r.None? <==> ExecRet(s).None?
    ensures r.Some? ==> ArmStep(s, r.value)
    ensures r.Some? ==> r.value == ExecRet(s).value.(ime := true, cycles := s.cycles + 16)
  {
    var (s1, address) :- PopStackU16(s);
    Some(s1.(pc := address, ime := true, cycles := s1.cycles + 8))
  }

  /** A CALL returns to the instruction after it: RET after CALL nn restores
      SP and lands on the address after the operand, when the operand can be
      read and SP and SP - 1 are work or high RAM. */
  lemma CallThenRet(s: State)
    requires s.Valid() && B.IsRam(s.sp) && B.IsRam(WrapAdd(s.sp, -1))
    requires !B.ReadPanics(s.bus, s.pc) && !B.ReadPanics(s.bus, WrapAdd(s.pc, 1))
    ensures ExecCallNn(s).Some?
    ensures var t := ExecCallNn(s).value;
      ExecRet(t) == Some(s.(pc := WrapAdd(s.pc, 2), cycles := s.cycles + 44, bus := t.bus))
  {
    var s1 := ReadNn(s).value.0;
    PushPopRoundTrip(s1, s1.pc);
  }

  // The CB table.

  /** Cycles a CB instruction costs after its opcode fetch: BIT only reads
      its operand, the others read and write it. */
  function CbCost(inst: CbInstruction): nat {
    if inst.BitBR? then RegCost(inst.r) else 2 * RegCost(inst.r)
  }

  /** The value and flags of the rotate and shift family. */
  function CbShift(inst: CbInstruction, v: Byte, carry: bool): (r: (Byte, A.Flags))
    requires !(inst.BitBR? || inst.SetBR? || inst.ResBR?)
  {
    match inst
    case RlN(_) => A.Rl(v, carry)
    case RlcN(_) => A.Rlc(v)
    case SlaN(_) => A.Sla(v)
    case RrcN(_) => A.Rrc(v)
    case SraN(_) => A.Sra(v)
    case SrlN(_) => A.Srl(v)
    case RrN(_) => A.Rr(v, carry)
    case SwapN(_) => A.Swap(v)
  }

  /** One arm of handle_cb_opcode's `match`. */
  function ExecCb(s: State, inst: CbInstruction): (r: Option<State>)
    requires s.Valid()
    ensures r.Some? ==> ArmStep(s, r.value)
    ensures r.Some? ==> r.value.Valid() && SameControl(s, r.value)
    ensures r.Some? ==> r.value.cycles == s.cycles + CbCost(inst) && r.value.pc == s.pc && r.value.sp == s.sp
  {
    match inst
    case BitBR(b, reg) => ExecBit(s, b, reg)
    case SetBR(b, reg) => ExecSetRes(s, b, reg, true)
    case ResBR(b, reg) => ExecSetRes(s, b, reg, false)
    case _ => ExecShift(s, inst)
  }

  /** BIT b,r: Z is the complement of bit b, N clear, H set, C kept; the
      operand is only read. */
  function ExecBit(s: State, b: Reg, reg: Reg): (r: Option<State>)
    requires s.Valid()
    ensures r.None? <==> ReadRegR(s, reg).None?
    ensures r.Some? ==> ArmStep(s, r.value)
    ensures r.Some? ==> r.value == s.(cycles := s.cycles + RegCost(reg),
                    flags := A.Flags(!CheckBit(ReadRegR(s, reg).value.1, b), false, true, s.flags.c))
  {
    var (s1, v) :- ReadRegR(s, reg);
    Some(s1.(flags := A.BitTest(b, v, s1.flags.c)))
  }

  /** SET b,r (`setting`) and RES b,r: bit b of the operand is set or cleared
      and written back; no flag changes. */
  function ExecSetRes(s: State, b: Reg, reg: Reg, setting: bool): (r: Option<State>)
    requires s.Valid()
    ensures r.Some? ==> ArmStep(s, r.value)
    ensures r.Some? ==> r.value.Valid() && SameControl(s, r.value) && r.value.flags == s.flags
    ensures r.Some? ==> r.value.cycles == s.cycles + 2 * RegCost(reg) && r.value.pc == s.pc && r.value.sp == s.sp
    ensures ReadRegR(s, reg).None? ==> r.None?
    ensures reg != 6 ==> r.Some? && Register(r.value, reg) == if setting then SetBit(Register(s, reg), b) else ClearBit(Register(s, reg), b)
    ensures r.None? <==> ReadRegR(s, reg).None? || (reg == 6 && B.WritePanics(s.bus, Hl(s), SetResByte(ReadRegR(s, reg).value.1, b, setting)))
    ensures r.Some? ==> Stores(s, reg, SetResByte(ReadRegR(s, reg).value.1, b, setting), r.value)
  {
    var (s1, v) :- ReadRegR(s, reg);
    WriteAfterRead(s, reg, reg, s1.flags, SetResByte(v, b, setting));
    WriteRegR(s1.(flags := s1.flags), reg, SetResByte(v, b, setting))
  }

  /** The byte SET b (`setting`) or RES b writes back: v with bit b set or
      cleared and every other bit kept. */
  function SetResByte(v: Byte, b: Reg, setting: bool): Byte {
    if setting then SetBit(v, b) else ClearBit(v, b)
  }

  /** The rotates and shifts: the operand is replaced and the flags are
      those of the operation. */
  function ExecShift(s: State, inst: CbInstruction): (r: Option<State>)
    requires s.Valid() && !(inst.BitBR? || inst.SetBR? || inst.ResBR?)
    ensures r.Some? ==> ArmStep(s, r.value)
    ensures r.Some? ==> r.value.Valid() && SameControl(s, r.value)
    ensures r.Some? ==> r.value.cycles == s.cycles + 2 * RegCost(inst.r) && r.value.pc == s.pc && r.value.sp == s.sp
    ensures ReadRegR(s, inst.r).None? ==> r.None?
    ensures r.Some? ==> r.value.flags == CbShift(inst, ReadRegR(s, inst.r).value.1, s.flags.c).1
    ensures inst.r != 6 ==> r.Some? && Register(r.value, inst.r) == CbShift(inst, Register(s, inst.r), s.flags.c).0
    ensures r.None? <==> ReadRegR(s, inst.r).None? || (inst.r == 6 && B.WritePanics(s.bus, Hl(s), CbShift(inst, ReadRegR(s, inst.r).value.1, s.flags.c).0))
    ensures r.Some? ==> Stores(s, inst.r, CbShift(inst, ReadRegR(s, inst.r).value.1, s.flags.c).0, r.value)
  {
    var (s1, v) :- ReadRegR(s, inst.r);
    var (result, flags) := CbShift(inst, v, s1.flags.c);
    WriteAfterRead(s, inst.r, inst.r, flags, result);
    WriteRegR(s1.(flags := flags), inst.r, result)
  }

  /** Cpu::handle_cb_opcode: fetch the second byte, 4 cycles, decode with
      ParseCb, execute. */
  function HandleCbOpcode(s: State): (r: Option<State>)
    requires s.Valid()
    ensures r.Some? ==> ArmStep(s, r.value)
    ensures r.Some? ==> r.value.Valid() && SameControl(s, r.value)
    ensures B.ReadPanics(s.bus, s.pc) ==> r.None?
    ensures !B.ReadPanics(s.bus, s.pc) ==>
      r == ExecCb(s.(pc := WrapAdd(s.pc, 1), cycles := s.cycles + 12), ParseCb(B.BusRead(s.bus, s.pc).value))
  {
    var (s1, opcode) :- ReadByte(s);
    ExecCb(s1.(cycles := s1.cycles + 4), ParseCb(opcode))
  }

  /** SET b and RES b change bit b of the operand they write back -- a
      register or the byte at HL -- and no other bit. */
  lemma SetResOneBit(v: Byte, b: Reg, setting: bool, j: nat)
    requires j < 8
    ensures CheckBit(SetResByte(v, b, setting), j) == if j == b then setting else CheckBit(v, j)
  {
    SetClearBits(v, b, j);
  }

  /** SWAP as written exchanges nothing: `u8::swap_bytes` is the identity,
      so only the flags change. */
  lemma SwapKeepsValue(s: State, reg: Reg)
    requires s.Valid() && reg != 6
    ensures ExecShift(s, SwapN(reg)) == Some(s.(flags := A.Flags(Register(s, reg) == 0, false, false, false)))
  {
  }

  // Decode and dispatch.

  /** IME, the latches or the run state are changed only by these. */
  predicate ChangesControl(instr: Instruction) {
    instr.Di? || instr.Ei? || instr.Reti? || instr.Halt? || instr.Stop?
  }

  /** What every arm promises: the bus invariant, and a cycle cost that is
      a multiple of 4 no greater than 36. */
  ghost predicate ArmStep(s: State, r: State) {
    r.Valid() && ArmCost(r.cycles - s.cycles)
  }

  predicate ArmCost(d: int) {
    d == 0 || d == 4 || d == 8 || d == 12 || d == 16 || d == 20 || d == 24 || d == 28 || d == 32 || d == 36
  }

  /** Except for the arms that change them and POP AF, F, IME, the latches
      and the run state are kept. */
  predicate KeepsControl(s: State, opcode: Opcode, instr: Instruction, r: State) {
    !ChangesControl(instr) && !(instr.PopNn? && opcode == 0xF1) ==> SameControl(s, r)
  }

  /** The arms in groups of a few, in the source's order. */
  function Group(instr: Instruction): (g: nat)
    ensures g < 8
  {
    match instr
    case LdR1R2(_, _) | LdR1N(_) | LdANnPtr | LdNnPtrA | LdACPtr | LdCPtrA => 0
    case LddAHlPtr | LddHlPtrA | LdiAHlPtr | LdiHlPtrA | LdhNPtrA | LdhANPtr => 1
    case LdRrNn | LdSpHl | LdHlSpN | LdNnSp | PushNn | PopNn => 2
    case AddN(_) | AdcN(_) | SubN(_) | SbcN(_) | AndN(_) | OrN(_) | XorN(_) | CpN(_) => 3
    case IncN(_) | DecN(_) | AddHlNn(_) | AddSpN | IncNn(_) | DecNn(_) => 4
    case Daa | Cpl | Ccf | Scf | Nop | Halt | Stop | Di | Ei | Rlca | Rla | Rrca | Rra => 5
    case Cb | JpNn | JpCcNn(_) | JpHlPtr | JrN | JrCcN(_) => 6
    case CallNn | CallCcNn(_) | RstN(_) | Ret | RetCc(_) | Reti => 7
  }

  /** The 4 extra cycles of do_next_instrution are charged before this; it
      is one arm of its `match`, and `opcode` is the byte `instr` was
      decoded from. */
  function Execute(s: State, opcode: Opcode, instr: Instruction): (r: Option<State>)
    requires s.Valid() && Parse(opcode) == Some(instr)
    ensures r.Some? ==> ArmStep(s, r.value) && KeepsControl(s, opcode, instr, r.value)
  {
    match Group(instr)
    case 0 => ExecuteLoads(s, opcode, instr)
    case 1 => ExecuteIndirectLoads(s, instr)
    case 2 => ExecuteWordLoads(s, opcode, instr)
    case 3 => ExecuteAlu(s, instr)
    case 4 => ExecuteIncDec(s, instr)
    case 5 => ExecuteMisc(s, instr)
    case 6 => ExecuteJumps(s, instr)
    case _ => ExecuteCalls(s, instr)
  }

  function ExecuteLoads(s: State, opcode: Opcode, instr: Instruction): (r: Option<State>)
    requires s.Valid() && Parse(opcode) == Some(instr) && Group(instr) == 0
    ensures r.Some? ==> ArmStep(s, r.value) && KeepsControl(s, opcode, instr, r.value)
  {
    ParseLoadOpcodes(opcode);
    match instr
    case LdR1R2(r1, r2) => ExecLdR1R2(s, r1, r2)
    case LdR1N(r1) => ExecLdR1N(s, r1)
    case LdANnPtr => ExecLdANnPtr(s, opcode)
    case LdNnPtrA => ExecLdNnPtrA(s, opcode)
    case LdACPtr => Some(ExecLdACPtr(s))
    case LdCPtrA => ExecLdCPtrA(s)
  }

  function ExecuteIndirectLoads(s: State, instr: Instruction): (r: Option<State>)
    requires s.Valid() && Group(instr) == 1
    ensures r.Some? ==> ArmStep(s, r.value) && KeepsControl(s, 0, instr, r.value)
  {
    match instr
    case LddAHlPtr => ExecLdAHlPtrStep(s, -1)
    case LddHlPtrA => ExecLdHlPtrAStep(s, -1)
    case LdiAHlPtr => ExecLdAHlPtrStep(s, 1)
    case LdiHlPtrA => ExecLdHlPtrAStep(s, 1)
    case LdhNPtrA => ExecLdhNPtrA(s)
    case LdhANPtr => ExecLdhANPtr(s)
  }

  function ExecuteWordLoads(s: State, opcode: Opcode, instr: Instruction): (r: Option<State>)
    requires s.Valid() && Parse(opcode) == Some(instr) && Group(instr) == 2
    ensures r.Some? ==> ArmStep(s, r.value) && KeepsControl(s, opcode, instr, r.value)
  {
    ParseLoadOpcodes(opcode);
    ParseStackOpcodes(opcode);
    match instr
    case LdRrNn => ExecLdRrNn(s, opcode)
    case LdSpHl => Some(ExecLdSpHl(s))
    case LdHlSpN => ExecLdHlSpN(s)
    case LdNnSp => ExecLdNnSp(s)
    case PushNn => ExecPushNn(s, opcode)
    case PopNn => ExecPopNn(s, opcode)
  }

  function ExecuteAlu(s: State, instr: Instruction): (r: Option<State>)
    requires s.Valid() && Group(instr) == 3
    ensures r.Some? ==> ArmStep(s, r.value) && KeepsControl(s, 0, instr, r.value)
  {
    match instr
    case AddN(n) => ExecAddN(s, n)
    case AdcN(n) => ExecAdcN(s, n)
    case SubN(n) => ExecSubN(s, n)
    case SbcN(n) => ExecSbcN(s, n)
    case AndN(n) => ExecAndN(s, n)
    case OrN(n) => ExecOrN(s, n)
    case XorN(n) => ExecXorN(s, n)
    case CpN(n) => ExecCpN(s, n)
  }

  function ExecuteIncDec(s: State, instr: Instruction): (r: Option<State>)
    requires s.Valid() && Group(instr) == 4
    ensures r.Some? ==> ArmStep(s, r.value) && KeepsControl(s, 0, instr, r.value)
  {
    match instr
    case IncN(reg) => ExecIncN(s, reg)
    case DecN(reg) => ExecDecN(s, reg)
    case AddHlNn(rr) => Some(ExecAddHlNn(s, rr))
    case AddSpN => ExecAddSpN(s)
    case IncNn(rr) => Some(ExecStepNn(s, rr, 1))
    case DecNn(rr) => Some(ExecStepNn(s, rr, -1))
  }

  /** The arms of the miscellaneous group that change only A and the flags. */
  predicate IsAccumulatorArm(instr: Instruction) {
    instr.Daa? || instr.Cpl? || instr.Ccf? || instr.Scf? || instr.Rlca? || instr.Rla? || instr.Rrca? || instr.Rra?
  }

  /** DAA, CPL, CCF, SCF and the rotates of A: A and the flags are
      replaced, nothing else changes and nothing can fail. */
  function AccumulatorArm(s: State, instr: Instruction): (r: State)
    requires IsAccumulatorArm(instr)
    ensures r == s.(a := r.a, flags := r.flags)
    ensures instr == Cpl ==> r == s.(a := Not(s.a), flags := s.flags.(n := true, h := true))
    ensures instr == Ccf ==> r == s.(flags := s.flags.(c := !s.flags.c, n := false, h := false))
    ensures instr == Scf ==> r == s.(flags := s.flags.(c := true, n := false, h := false))
  {
    match instr
    case Daa =>
      var (a, flags) := A.Daa(s.a, s.flags);
      s.(a := a, flags := flags)
    case Cpl => s.(a := Not(s.a), flags := s.flags.(h := true, n := true))
    case Ccf => s.(flags := s.flags.(c := !s.flags.c, n := false, h := false))
    case Scf => s.(flags := s.flags.(c := true, n := false, h := false))
    case Rlca =>
      var (a, flags) := A.Rlca(s.a);
      s.(a := a, flags := flags)
    case Rla =>
      var (a, flags) := A.Rla(s.a, s.flags.c);
      s.(a := a, flags := flags)
    case Rrca =>
      var (a, flags) := A.Rrca(s.a);
      s.(a := a, flags := flags)
    case Rra =>
      var (a, flags) := A.Rra(s.a, s.flags.c);
      s.(a := a, flags := flags)
  }

  /** STOP: the padding byte after it is read and skipped, the CPU sleeps
      until a button press and the LCD is turned off. */
  function ExecStop(s: State): (r: Option<State>)
    requires s.Valid()
    ensures r.None? <==> B.ReadPanics(s.bus, s.pc)
    ensures r.Some? ==> r.value == s.(pc := WrapAdd(s.pc, 1), cycles := s.cycles + 8, run := OffUntilButtonPress,
                                      bus := s.bus.(ppu := r.value.bus.ppu))
    ensures r.Some? ==> r.value.bus.ppu == s.bus.ppu.(LCD_control := r.value.bus.ppu.LCD_control)
    ensures r.Some? ==> !CheckBit(r.value.bus.ppu.LCD_control, 7)
    ensures r.Some? ==> forall j :: 0 <= j < 7 ==> CheckBit(r.value.bus.ppu.LCD_control, j) == CheckBit(s.bus.ppu.LCD_control, j)
  {
    var (s1, _) :- ReadByte(s);
    Some(s1.(run := OffUntilButtonPress, bus := s1.bus.(ppu := P.PpuTurnLcdOff(s1.bus.ppu))))
  }

  /** DAA, CPL, CCF, SCF, NOP, HALT, STOP, DI, EI and the rotates of A. */
  function ExecuteMisc(s: State, instr: Instruction): (r: Option<State>)
    requires s.Valid() && Group(instr) == 5
    ensures r.Some? ==> ArmStep(s, r.value) && KeepsControl(s, 0, instr, r.value)
    ensures IsAccumulatorArm(instr) ==> r == Some(AccumulatorArm(s, instr))
    ensures instr == Halt ==> r == Some(s.(run := OffUntilInterrupt))
    ensures instr == Di ==> r == Some(s.(disablingInterrupts := true))
    ensures instr == Ei ==> r == Some(s.(enablingInterrupts := true))
    ensures instr == Stop ==> (r.None? <==> B.ReadPanics(s.bus, s.pc))
    ensures instr == Stop && r.Some? ==> r.value.run == OffUntilButtonPress && r.value.pc == WrapAdd(s.pc, 1)
    ensures instr == Stop && r.Some? ==> !CheckBit(r.value.bus.ppu.LCD_control, 7)
  {
    if IsAccumulatorArm(instr) then Some(AccumulatorArm(s, instr))
    else ExecControl(s, instr)
  }

  /** NOP, HALT, STOP, DI and EI: the arms of group 5 that leave A alone. */
  function ExecControl(s: State, instr: Instruction): (r: Option<State>)
    requires s.Valid() && Group(instr) == 5 && !IsAccumulatorArm(instr)
    ensures r.Some? ==> ArmStep(s, r.value) && KeepsControl(s, 0, instr, r.value)
    ensures instr == Nop ==> r == Some(s)
    ensures instr == Halt ==> r == Some(s.(run := OffUntilInterrupt))
    ensures instr == Di ==> r == Some(s.(disablingInterrupts := true))
    ensures instr == Ei ==> r == Some(s.(enablingInterrupts := true))
    ensures instr == Stop ==> r == ExecStop(s)
  {
    if instr.Halt? then Some(s.(run := OffUntilInterrupt))
    else if instr.Stop? then ExecStop(s)
    else if instr.Di? then Some(s.(disablingInterrupts := true))
    else if instr.Ei? then Some(s.(enablingInterrupts := true))
    else assert instr.Nop?; Some(s)
  }

  function ExecuteJumps(s: State, instr: Instruction): (r: Option<State>)
    requires s.Valid() && Group(instr) == 6
    ensures r.Some? ==> ArmStep(s, r.value) && KeepsControl(s, 0, instr, r.value)
  {
    match instr
    case Cb => HandleCbOpcode(s)
    case JpNn => ExecJpNn(s)
    case JpCcNn(cc) => ExecJpCcNn(s, cc)
    case JpHlPtr => Some(s.(pc := Hl(s)))
    case JrN => ExecJrN(s)
    case JrCcN(cc) => ExecJrCcN(s, cc)
  }

  function ExecuteCalls(s: State, instr: Instruction): (r: Option<State>)
    requires s.Valid() && Group(instr) == 7
    ensures r.Some? ==> ArmStep(s, r.value) && KeepsControl(s, 0, instr, r.value)
    ensures instr == Reti && r.Some? ==> r.value.ime
  {
    match instr
    case CallNn => ExecCallNn(s)
    case CallCcNn(cc) => ExecCallCcNn(s, cc)
    case RstN(t) => ExecRstN(s, t)
    case Ret => ExecRet(s)
    case RetCc(cc) => ExecRetCc(s, cc)
    case Reti => ExecReti(s)
  }

  /** Cpu::do_next_instrution: fetch the opcode; an undefined one costs the
      fetch and nothing else; otherwise 4 more cycles and its arm. */
  function DoNextInstruction(s: State): (r: Option<State>)
    requires s.Valid()
    ensures B.ReadPanics(s.bus, s.pc) ==> r.None?
    ensures r.Some? ==> r.value.Valid()
    ensures r.Some? ==> r.value.cycles - s.cycles == 8 || ArmCost(r.value.cycles - s.cycles - 12)
    ensures !B.ReadPanics(s.bus, s.pc) && B.BusRead(s.bus, s.pc).value in UNDEFINED ==>
      r == Some(s.(pc := WrapAdd(s.pc, 1), cycles := s.cycles + 8))
  {
    var (s1, opcode) :- ReadByte(s);
    ParseUndefined(opcode);
    match Parse(opcode)
    case None => Some(s1)
    case Some(instr) => Execute(s1.(cycles := s1.cycles + 4), opcode, instr)
  }

  /** do_next_instrution on an undefined opcode stops after the fetch. */
  lemma DoNextInstructionUndefined(s: State, s1: State, opcode: Opcode)
    requires s.Valid() && ReadByte(s) == Some((s1, opcode)) && Parse(opcode).None?
    ensures DoNextInstruction(s) == Some(s1)
  {
  }

  /** do_next_instrution on a defined opcode costs 4 more after the fetch
      and runs its arm. */
  lemma DoNextInstructionDefined(s: State, s1: State, opcode: Opcode, instr: Instruction)
    requires s.Valid() && ReadByte(s) == Some((s1, opcode)) && Parse(opcode) == Some(instr)
    ensures DoNextInstruction(s) == Execute(s1.(cycles := s1.cycles + 4), opcode, instr)
  {
  }

  // Interrupts and the step.

  /** The vector of each source: 0x40, 0x48, 0x50, 0x58, 0x60. */
  function InterruptVector(i: B.Interrupt): (r: Word)
    ensures r == 0x40 + 8 * i.Index()
  {
    match i
    case VBlankInterrupt => 0x40
    case LcdStatusInterrupt => 0x48
    case TimerOverflowInterrupt => 0x50
    case SerialTransferInterrupt => 0x58
    case JoypadInterrupt => 0x60
  }

  /** Cpu::handle_interrupts: take the first pending enabled interrupt, if
      any; then the CPU is on, IME is cleared, PC is pushed and the vector
      is loaded. */
  function HandleInterrupts(s: State): (r: Option<State>)
    requires s.Valid()
    ensures r.Some? ==> r.value.Valid()
    ensures B.TakeInterrupt(s.bus).1.None? ==> r == Some(s)
    ensures r.Some? ==> r.value.cycles == s.cycles || r.value.cycles == s.cycles + 8
    ensures var (bus, i) := B.TakeInterrupt(s.bus);
      i.Some? ==> (r.None? <==> PushPanics(bus, s.sp, s.pc))
    ensures var (bus, i) := B.TakeInterrupt(s.bus);
      i.Some? && r.Some? ==>
        r.value == s.(bus := PushedBus(bus, s.sp, s.pc), run := On, ime := false, sp := WrapAdd(s.sp, -2),
                      pc := InterruptVector(i.value), cycles := s.cycles + 8)
  {
    var (bus, interrupt) := B.TakeInterrupt(s.bus);
    match interrupt
    case None => Some(s.(bus := bus))
    case Some(i) =>
      var s1 := s.(bus := bus, run := On, ime := false);
      var s2 :- PushStackU16(s1, s1.pc);
      Some(s2.(pc := InterruptVector(i)))
  }

  /** A pending enabled interrupt is dispatched to its vector with the
      interrupted PC on the stack, when the stack is in work or high RAM. */
  lemma InterruptDispatch(s: State)
    requires s.Valid() && B.IsRam(s.sp) && B.IsRam(WrapAdd(s.sp, -1))
    requires B.TakeInterrupt(s.bus).1.Some?
    ensures HandleInterrupts(s).Some?
    ensures var t, i := HandleInterrupts(s).value, B.TakeInterrupt(s.bus).1.value;
      && B.Pending(s.bus.interruptFlag, s.bus.interruptEnable, i.Index())
      && t.pc == 0x40 + 8 * i.Index() && !t.ime && t.run == On
      && PopStackU16(t).Some? && PopStackU16(t).value.1 == s.pc
  {
    var (bus, i) := B.TakeInterrupt(s.bus);
    B.TakeInterruptSpec(s.bus, i.value.Index());
    var s1 := s.(bus := bus, run := On, ime := false);
    PushPopRoundTrip(s1, s1.pc);
  }

  /** The latches of DI and EI take effect here, EI's last. */
  function ApplyInterruptLatches(s: State): (r: State)
    ensures r == s.(disablingInterrupts := false, enablingInterrupts := false,
                    ime := s.enablingInterrupts || (s.ime && !s.disablingInterrupts))
  {
    var s1 := if s.disablingInterrupts then s.(disablingInterrupts := false, ime := false) else s;
    if s1.enablingInterrupts then s1.(enablingInterrupts := false, ime := true) else s1
  }

  /** The cycle debt is a multiple of 4 no greater than 56, which the
      source's i32 holds. */
  predicate CycleInvariant(s: State) {
    0 <= s.cycles <= 56 && s.cycles % 4 == 0
  }

  /** Cpu::step. `joypadPressed` is what the host window reports to the
      joypad during Interconnect::update. */
  function Step(s: State, joypadPressed: bool): (r: Option<State>)
    requires s.Valid()
    ensures r.Some? ==> r.value.Valid()
    ensures s.cycles > 0 ==> r == Some(s.(bus := B.BusUpdate(s.bus, joypadPressed), cycles := s.cycles - 4))
    ensures s.cycles <= 0 ==> r == Dispatch(s.(bus := B.BusUpdate(s.bus, joypadPressed)))
    ensures s.run == OffUntilButtonPress ==> r.Some? && r.value.run == OffUntilButtonPress
    ensures s.run == OffUntilInterrupt && !s.ime ==> r.Some? && r.value.run == OffUntilInterrupt
  {
    var s1 := s.(bus := B.BusUpdate(s.bus, joypadPressed));
    if s1.cycles > 0 then Some(s1.(cycles := s1.cycles - 4)) else Dispatch(s1)
  }

  /** The part of Cpu::step after the cycle check: an interrupt when IME is
      set and the CPU is not waiting for a button; then, if the CPU is on,
      the latches and one instruction. It charges nothing, 8 for the
      interrupt, an instruction's cost, or both. */
  function Dispatch(s: State): (r: Option<State>)
    requires s.Valid()
    ensures r.Some? ==> r.value.Valid()
    ensures r.Some? ==> DispatchCost(r.value.cycles - s.cycles)
  {
    var s2 :- if s.ime && (s.run == On || s.run == OffUntilInterrupt) then HandleInterrupts(s) else Some(s);
    RunIfOn(s2)
  }

  /** The rest of Dispatch once interrupts are handled: nothing unless the
      CPU is on, and then the EI/DI latches and one instruction. */
  function RunIfOn(s: State): (r: Option<State>)
    requires s.Valid()
    ensures s.run != On ==> r == Some(s)
    ensures s.run == On ==> r == DoNextInstruction(ApplyInterruptLatches(s))
    ensures r.Some? ==> r.value.Valid() && (r.value.cycles == s.cycles || InstructionCost(r.value.cycles - s.cycles))
  {
    if s.run != On then Some(s) else DoNextInstruction(ApplyInterruptLatches(s))
  }

  /** EI takes effect one instruction late: with its latch set, the poll
      for interrupts in this step still sees IME clear, and the next
      instruction runs with IME set. */
  lemma EiDelaysOneInstruction(s: State)
    requires s.Valid() && s.run == On && !s.ime && s.enablingInterrupts && !s.disablingInterrupts
    ensures Dispatch(s) == DoNextInstruction(s.(ime := true, enablingInterrupts := false))
  {
  }

  /** DI takes effect one instruction late too: an interrupt pending in this
      step is still taken, and the latch is applied only if it is not. */
  lemma DiDelaysOneInstruction(s: State)
    requires s.Valid() && s.run == On && s.ime && s.disablingInterrupts && !s.enablingInterrupts
    requires B.IsRam(s.sp) && B.IsRam(WrapAdd(s.sp, -1))
    ensures HandleInterrupts(s).Some?
    ensures B.TakeInterrupt(s.bus).1.None? ==>
      Dispatch(s) == DoNextInstruction(s.(ime := false, disablingInterrupts := false))
    ensures B.TakeInterrupt(s.bus).1.Some? ==>
      Dispatch(s) == DoNextInstruction(HandleInterrupts(s).value.(disablingInterrupts := false))
  {
    if B.TakeInterrupt(s.bus).1.Some? {
      InterruptDispatch(s);
    }
  }

  /** A HALTed CPU with IME set wakes at the first pending enabled
      interrupt: it is dispatched and the handler's first instruction runs
      in the same step. */
  lemma HaltWakesOnInterrupt(s: State)
    requires s.Valid() && s.run == OffUntilInterrupt && s.ime
    requires B.IsRam(s.sp) && B.IsRam(WrapAdd(s.sp, -1))
    requires B.TakeInterrupt(s.bus).1.Some?
    ensures HandleInterrupts(s).Some? && HandleInterrupts(s).value.run == On
    ensures Dispatch(s) == DoNextInstruction(ApplyInterruptLatches(HandleInterrupts(s).value))
  {
    InterruptDispatch(s);
  }

  predicate InstructionCost(d: int) {
    d == 8 || ArmCost(d - 12)
  }

  predicate DispatchCost(d: int) {
    d == 0 || d == 8 || InstructionCost(d) || InstructionCost(d - 8)
  }

  /** The cycle debt stays a multiple of 4 between 0 and 56: a step either
      burns 4 of it or, with none left, adds at most 8 for an interrupt
      and 48 for an instruction. */
  lemma StepKeepsCycleInvariant(s: State, joypadPressed: bool)
    requires s.Valid() && CycleInvariant(s) && Step(s, joypadPressed).Some?
    ensures CycleInvariant(Step(s, joypadPressed).value)
  {
    CycleArithmetic(s.cycles, Step(s, joypadPressed).value.cycles);
  }

  lemma CycleArithmetic(c: int, t: int)
    requires 0 <= c <= 56 && c % 4 == 0
    requires c > 0 ==> t == c - 4
    requires c <= 0 ==> DispatchCost(t - c)
    ensures 0 <= t <= 56 && t % 4 == 0
  {
  }
}
