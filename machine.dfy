/** The CPU of src/cpu.rs as a value: its registers, flags, interrupt latches,
    cycle debt and run state together with the bus, and one function per
    helper and per instruction arm saying what it does to that state. Reads
    and writes through the bus can panic in the source; here they yield
    None. The `Cpu`
    class in cpu.dfy is proved to behave as these functions say. u16
    arithmetic wraps modulo 2^16, as in a release build. */
module Machine {

  import opened Wrappers
  import opened Utils
  import opened MemoryMap
  import opened Instruction
  import A = Alu
  import B = Bus
  import P = Ppu

  /** CpuState. */
  datatype RunState = On | OffUntilInterrupt | OffUntilButtonPress

  /** Every field of `Cpu` except the debug ones, with the interconnect as
      its value. */
  datatype State = State(
    a: Byte, b: Byte, c: Byte, d: Byte, e: Byte, f: Byte, h: Byte, l: Byte,
    sp: Word, pc: Word,
    flags: A.Flags,
    ime: bool, disablingInterrupts: bool, enablingInterrupts: bool,
    cycles: int,
    run: RunState,
    bus: B.BusState)
  {
    ghost predicate Valid() {
      bus.Valid()
    }
  }

  /** Cpu::new: every register, flag and latch cleared, no cycle debt, on. */
  function Init(bus: B.BusState): (s: State)
    requires bus.Valid()
    ensures s.Valid() && s.run == On && s.cycles == 0 && s.pc == 0 && s.sp == 0
    ensures !s.ime && !s.disablingInterrupts && !s.enablingInterrupts && s.bus == bus
  {
    State(0, 0, 0, 0, 0, 0, 0, 0, 0, 0, A.Flags(false, false, false, false),
          false, false, false, 0, On, bus)
  }

  // Register pairs.

  /** `u8s_as_u16`: the first byte is the high one. */
  function U8sAsU16(v: (Byte, Byte)): (r: Word)
    ensures r / 0x100 == v.0 && r % 0x100 == v.1
  {
    v.0 * 0x100 + v.1
  }

  /** `u16_as_u8s`: (high byte, low byte); `>> 8` and `& 0xFF` are a
      quotient and a remainder. It undoes U8sAsU16, whose ensures say that
      U8sAsU16 undoes it. */
  function U16AsU8s(v: Word): (r: (Byte, Byte))
    ensures U8sAsU16(r) == v
  {
    (v / 0x100, v % 0x100)
  }

  /** Packing and unpacking are inverse in both directions. */
  lemma PairRoundTrip(v: Word, p: (Byte, Byte))
    ensures U8sAsU16(U16AsU8s(v)) == v
    ensures U16AsU8s(U8sAsU16(p)) == p
  {
    var w := U8sAsU16(p);
    assert w / 0x100 == p.0 && w % 0x100 == p.1;
  }

  function Af(s: State): Word { U8sAsU16((s.a, s.f)) }
  function Bc(s: State): Word { U8sAsU16((s.b, s.c)) }
  function De(s: State): Word { U8sAsU16((s.d, s.e)) }
  function Hl(s: State): Word { U8sAsU16((s.h, s.l)) }

  function SetAf(s: State, v: Word): State { var (hi, lo) := U16AsU8s(v); s.(a := hi, f := lo) }
  function SetBc(s: State, v: Word): State { var (hi, lo) := U16AsU8s(v); s.(b := hi, c := lo) }
  function SetDe(s: State, v: Word): State { var (hi, lo) := U16AsU8s(v); s.(d := hi, e := lo) }
  function SetHl(s: State, v: Word): State { var (hi, lo) := U16AsU8s(v); s.(h := hi, l := lo) }

  /** A pair reads back what was stored into it, storing a pair's own value
      changes nothing, and each setter touches only its two registers. */
  lemma PairAccessors(s: State, v: Word)
    ensures Af(SetAf(s, v)) == v && Bc(SetBc(s, v)) == v && De(SetDe(s, v)) == v && Hl(SetHl(s, v)) == v
    ensures SetAf(s, Af(s)) == s && SetBc(s, Bc(s)) == s && SetDe(s, De(s)) == s && SetHl(s, Hl(s)) == s
    ensures SetBc(s, v) == s.(b := SetBc(s, v).b, c := SetBc(s, v).c)
    ensures SetHl(s, v) == s.(h := SetHl(s, v).h, l := SetHl(s, v).l)
    ensures SetAf(s, v) == s.(a := SetAf(s, v).a, f := SetAf(s, v).f)
    ensures SetDe(s, v) == s.(d := SetDe(s, v).d, e := SetDe(s, v).e)
  {
    PairRoundTrip(v, (s.a, s.f));
    PairRoundTrip(v, (s.b, s.c));
    PairRoundTrip(v, (s.d, s.e));
    PairRoundTrip(v, (s.h, s.l));
  }

  /** `wrapping_add`/`wrapping_sub` of a small amount on a u16. */
  function WrapAdd(v: Word, n: int): (r: Word)
    ensures r == (v + n) % 0x1_0000
  {
    (v + n) % 0x1_0000
  }

  /** Two small wrapping steps are one. */
  lemma WrapAddTwice(v: Word, m: int, n: int)
    requires -2 <= m <= 2 && -2 <= n <= 2
    ensures WrapAdd(WrapAdd(v, m), n) == WrapAdd(v, m + n)
  {
    var x := v + m;
    var y := if x < 0 then x + 0x1_0000 else if x >= 0x1_0000 then x - 0x1_0000 else x;
    assert WrapAdd(v, m) == y;
    var z := y + n;
    assert WrapAdd(y, n) == if z < 0 then z + 0x1_0000 else if z >= 0x1_0000 then z - 0x1_0000 else z;
  }

  // Bus access and the cycle count.

  /** Cpu::read_mem: 4 cycles, then the bus read; None where the bus
      panics. */
  function ReadMem(s: State, address: Address): (r: Option<(State, Byte)>)
    requires s.Valid()
    ensures r.None? <==> B.ReadPanics(s.bus, address)
    ensures r.Some? ==> r.value.0 == s.(cycles := s.cycles + 4) && Some(r.value.1) == B.BusRead(s.bus, address)
  {
    var v :- B.BusRead(s.bus, address);
    Some((s.(cycles := s.cycles + 4), v))
  }

  /** Cpu::write_mem: 4 cycles, then the bus write; None where the bus
      panics. */
  function WriteMem(s: State, address: Address, value: Byte): (r: Option<State>)
    requires s.Valid()
    ensures r.None? <==> B.WritePanics(s.bus, address, value)
    ensures r.Some? ==> r.value.Valid()
    ensures r.Some? ==> r.value == s.(cycles := s.cycles + 4, bus := B.BusWrite(s.bus, address, value).value)
  {
    var bus :- B.BusWrite(s.bus, address, value);
    Some(s.(cycles := s.cycles + 4, bus := bus))
  }

  /** Cpu::read_byte: 4 cycles of its own, then read_mem at PC (4 more),
      then PC advances. */
  function ReadByte(s: State): (r: Option<(State, Byte)>)
    requires s.Valid()
    ensures r.None? <==> B.ReadPanics(s.bus, s.pc)
    ensures r.Some? ==> r.value.0 == s.(cycles := s.cycles + 8, pc := WrapAdd(s.pc, 1))
    ensures r.Some? ==> Some(r.value.1) == B.BusRead(s.bus, s.pc)
  {
    var s1 := s.(cycles := s.cycles + 4);
    var (s2, v) :- ReadMem(s1, s1.pc);
    Some((s2.(pc := WrapAdd(s2.pc, 1)), v))
  }

  /** Cpu::read_nn: two bytes at PC, returned as (second, first), so that
      U8sAsU16 of the result is the little-endian word. */
  function ReadNn(s: State): (r: Option<(State, (Byte, Byte))>)
    requires s.Valid()
    ensures r.None? <==> B.ReadPanics(s.bus, s.pc) || B.ReadPanics(s.bus, WrapAdd(s.pc, 1))
    ensures r.Some? ==> r.value.0 == s.(cycles := s.cycles + 16, pc := WrapAdd(s.pc, 2))
    ensures r.Some? ==> U8sAsU16(r.value.1) == 0x100 * B.BusRead(s.bus, WrapAdd(s.pc, 1)).value + B.BusRead(s.bus, s.pc).value
  {
    var (s1, first) :- ReadByte(s);
    var (s2, second) :- ReadByte(s1);
    Some((s2, (second, first)))
  }

  // The register file.

  /** Registers 0..7 other than 6: B, C, D, E, H, L, A. */
  function Register(s: State, r: Reg): Byte
    requires r != 6
  {
    match r
    case 0 => s.b
    case 1 => s.c
    case 2 => s.d
    case 3 => s.e
    case 4 => s.h
    case 5 => s.l
    case _ => s.a
  }

  function SetRegister(s: State, r: Reg, v: Byte): (t: State)
    requires r != 6
    ensures Register(t, r) == v
    ensures forall q: Reg :: q != 6 && q != r ==> Register(t, q) == Register(s, q)
    ensures t.(b := s.b, c := s.c, d := s.d, e := s.e, h := s.h, l := s.l, a := s.a) == s
  {
    match r
    case 0 => s.(b := v)
    case 1 => s.(c := v)
    case 2 => s.(d := v)
    case 3 => s.(e := v)
    case 4 => s.(h := v)
    case 5 => s.(l := v)
    case _ => s.(a := v)
  }

  /** Cpu::read_reg_r: index 6 is the byte at HL, read through the bus for
      4 cycles; the others are registers and cost nothing. */
  function ReadRegR(s: State, r: Reg): (res: Option<(State, Byte)>)
    requires s.Valid()
    ensures r != 6 ==> res == Some((s, Register(s, r)))
    ensures r == 6 ==> res == ReadMem(s, Hl(s))
  {
    if r == 6 then ReadMem(s, Hl(s)) else Some((s, Register(s, r)))
  }

  /** Cpu::write_reg_r: index 6 writes the byte at HL through the bus for 4
      cycles; a register write cannot fail. */
  function WriteRegR(s: State, r: Reg, v: Byte): (res: Option<State>)
    requires s.Valid()
    ensures r != 6 ==> res == Some(SetRegister(s, r, v))
    ensures r == 6 ==> res == WriteMem(s, Hl(s), v)
    ensures res.Some? ==> res.value.Valid()
  {
    if r == 6 then WriteMem(s, Hl(s), v) else Some(SetRegister(s, r, v))
  }

  /** What write_reg_r stores, read_reg_r returns: for (HL) as long as HL
      points into work or high RAM. */
  lemma RegisterRoundTrip(s: State, r: Reg, v: Byte)
    requires s.Valid() && (r == 6 ==> B.IsRam(Hl(s)))
    ensures WriteRegR(s, r, v).Some?
    ensures ReadRegR(WriteRegR(s, r, v).value, r).Some?
    ensures ReadRegR(WriteRegR(s, r, v).value, r).value.1 == v
  {
    if r == 6 {
      B.RamWriteRead(s.bus, Hl(s), v, Hl(s));
    }
  }

  /** Cpu::check_cc: NZ, Z, NC, C. */
  function CheckCc(s: State, cc: Cond): (r: bool)
    ensures r <==> (if cc < 2 then s.flags.z else s.flags.c) == (cc % 2 == 1)
  {
    match cc
    case 0 => !s.flags.z
    case 1 => s.flags.z
    case 2 => !s.flags.c
    case _ => s.flags.c
  }

  // The stack.

  /** Cpu::push_stack: the byte goes to SP, then SP moves down. */
  function PushStack(s: State, v: Byte): (r: Option<State>)
    requires s.Valid()
    ensures r.None? <==> B.WritePanics(s.bus, s.sp, v)
    ensures r.Some? ==> r.value.Valid()
    ensures r.Some? ==> r.value == s.(sp := WrapAdd(s.sp, -1), cycles := s.cycles + 4, bus := B.BusWrite(s.bus, s.sp, v).value)
  {
    var s1 :- WriteMem(s, s.sp, v);
    Some(s1.(sp := WrapAdd(s1.sp, -1)))
  }

  /** Whether push_stack_u16 of v at stack pointer sp panics: the write of
      the high byte at sp, or the write of the low byte at sp - 1 after it. */
  predicate PushPanics(b: B.BusState, sp: Word, v: Word)
    requires b.Valid()
  {
    || B.WritePanics(b, sp, v / 0x100)
    || B.WritePanics(B.BusWrite(b, sp, v / 0x100).value, WrapAdd(sp, -1), v % 0x100)
  }

  /** The bus after push_stack_u16 of v at stack pointer sp: the high byte
      written at sp, then the low byte at sp - 1, wherever they point. */
  function PushedBus(b: B.BusState, sp: Word, v: Word): (r: B.BusState)
    requires b.Valid() && !PushPanics(b, sp, v)
    ensures r.Valid()
  {
    B.BusWrite(B.BusWrite(b, sp, v / 0x100).value, WrapAdd(sp, -1), v % 0x100).value
  }

  /** Cpu::push_stack_u16: the high byte first, so it lands at the higher
      address. Only SP, the cycle count and the bus change. */
  function PushStackU16(s: State, v: Word): (r: Option<State>)
    requires s.Valid()
    ensures r.None? <==> PushPanics(s.bus, s.sp, v)
    ensures r.Some? ==> r.value.Valid()
    ensures r.Some? ==> r.value == s.(sp := WrapAdd(s.sp, -2), cycles := s.cycles + 8, bus := PushedBus(s.bus, s.sp, v))
  {
    var (first, second) := U16AsU8s(v);
    var s1 :- PushStack(s, first);
    WrapAddTwice(s.sp, -1, -1);
    PushStack(s1, second)
  }

  /** Cpu::pop_stack: SP moves up first, then the byte there is read. */
  function PopStack(s: State): (r: Option<(State, Byte)>)
    requires s.Valid()
    ensures r.None? <==> B.ReadPanics(s.bus, WrapAdd(s.sp, 1))
    ensures r.Some? ==> r.value.0 == s.(sp := WrapAdd(s.sp, 1), cycles := s.cycles + 4)
    ensures r.Some? ==> Some(r.value.1) == B.BusRead(s.bus, WrapAdd(s.sp, 1))
  {
    var s1 := s.(sp := WrapAdd(s.sp, 1));
    ReadMem(s1, s1.sp)
  }

  /** Cpu::pop_stack_u16: the low byte comes off first. */
  function PopStackU16(s: State): (r: Option<(State, Word)>)
    requires s.Valid()
    ensures r.None? <==> B.ReadPanics(s.bus, WrapAdd(s.sp, 1)) || B.ReadPanics(s.bus, WrapAdd(s.sp, 2))
    ensures r.Some? ==> r.value.0 == s.(sp := WrapAdd(s.sp, 2), cycles := s.cycles + 8)
    ensures r.Some? ==> r.value.1 == U8sAsU16((B.BusRead(s.bus, WrapAdd(s.sp, 2)).value, B.BusRead(s.bus, WrapAdd(s.sp, 1)).value))
  {
    var (s1, second) :- PopStack(s);
    WrapAddTwice(s.sp, 1, 1);
    var (s2, first) :- PopStack(s1);
    Some((s2, U8sAsU16((first, second))))
  }

  /** After pushing v, SP is two lower and the two bytes of v sit just
      above it, the high byte higher, when SP and SP - 1 are work or high
      RAM. */
  lemma PushStackU16Contents(s: State, v: Word)
    requires s.Valid() && B.IsRam(s.sp) && B.IsRam(WrapAdd(s.sp, -1))
    ensures PushStackU16(s, v).Some?
    ensures var t := PushStackU16(s, v).value;
      && t.sp == WrapAdd(s.sp, -2)
      && B.BusRead(t.bus, WrapAdd(s.sp, -1)) == Some(U16AsU8s(v).1)
      && B.BusRead(t.bus, s.sp) == Some(U16AsU8s(v).0)
  {
    var (first, second) := U16AsU8s(v);
    var low := WrapAdd(s.sp, -1);
    B.RamWriteRead(s.bus, s.sp, first, s.sp);
    var s1 := PushStack(s, first).value;
    B.RamWriteRead(s1.bus, low, second, s.sp);
    WrapAddTwice(s.sp, -1, -1);
  }

  /** A pushed word pops back, and SP returns to where it was, when SP and
      SP - 1 are work or high RAM. */
  lemma PushPopRoundTrip(s: State, v: Word)
    requires s.Valid() && B.IsRam(s.sp) && B.IsRam(WrapAdd(s.sp, -1))
    ensures PushStackU16(s, v).Some?
    ensures var t := PushStackU16(s, v).value;
      PopStackU16(t) == Some((s.(cycles := s.cycles + 16, bus := t.bus), v))
  {
    PushStackU16Contents(s, v);
    PopAfterPush(s, PushStackU16(s, v).value, v);
  }

  /** The pop half of the round trip, from what the push left behind. */
  lemma PopAfterPush(s: State, t: State, v: Word)
    requires s.Valid() && t.Valid()
    requires t == s.(sp := WrapAdd(s.sp, -2), cycles := s.cycles + 8, bus := t.bus)
    requires B.BusRead(t.bus, WrapAdd(s.sp, -1)) == Some(U16AsU8s(v).1)
    requires B.BusRead(t.bus, s.sp) == Some(U16AsU8s(v).0)
    ensures PopStackU16(t) == Some((s.(cycles := s.cycles + 16, bus := t.bus), v))
  {
    WrapAddTwice(s.sp, -2, 1);
    WrapAddTwice(s.sp, -2, 2);
    assert WrapAdd(t.sp, 1) == WrapAdd(s.sp, -1) && WrapAdd(t.sp, 2) == s.sp;
    var p := U16AsU8s(v);
    assert PopStackU16(t).Some?;
    assert PopStackU16(t).value.1 == U8sAsU16((p.0, p.1));
  }
}
