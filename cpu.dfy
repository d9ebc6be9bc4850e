/** The `Cpu` object of src/cpu.rs: registers, flags, interrupt latches,
    cycle debt and run state as fields updated in place, and the
    interconnect it owns. Every method is proved to leave the object in the
    state the matching function of modules Machine and Execution computes
    from the state it started in; the properties of the CPU are proved
    about those functions. Where the source can panic (a write the bus
    refuses, a read of a ROM bank past the image) the method requires the
    function's result to be defined. */
module Cpu {

  import opened Wrappers
  import opened Utils
  import opened MemoryMap
  import opened Instruction
  import opened Machine
  import opened Execution
  import A = Alu
  import B = Bus
  import I = Interconnect

  class Cpu {
    var regA: Byte
    var regB: Byte
    var regC: Byte
    var regD: Byte
    var regE: Byte
    var regF: Byte
    var regH: Byte
    var regL: Byte
    var regSp: Word
    var regPc: Word
    var flagZ: bool
    var flagN: bool
    var flagH: bool
    var flagC: bool
    var flagIme: bool
    var flagDisablingInterrupts: bool
    var flagEnablingInterrupts: bool
    const interconnect: I.Interconnect
    var cycles: int
    var cpuState: RunState
    /** What the interconnect holds, as a value. */
    ghost var bus: B.BusState

    ghost predicate Valid()
      reads this, interconnect.Repr()
      ensures Valid() ==> View().Valid()
    {
      interconnect.Valid() && bus == interconnect.View()
    }

    /** The whole machine as a value. */
    ghost function View(): State
      reads this
    {
      State(regA, regB, regC, regD, regE, regF, regH, regL, regSp, regPc,
            A.Flags(flagZ, flagN, flagH, flagC),
            flagIme, flagDisablingInterrupts, flagEnablingInterrupts,
            cycles, cpuState, bus)
    }

    /** Cpu::new. */
    constructor(interconnect: I.Interconnect)
      requires interconnect.Valid()
      ensures Valid() && View() == Init(old(interconnect.View()))
    {
      regA, regB, regC, regD, regE, regF, regH, regL := 0, 0, 0, 0, 0, 0, 0, 0;
      regSp, regPc := 0, 0;
      flagZ, flagN, flagH, flagC := false, false, false, false;
      flagIme, flagDisablingInterrupts, flagEnablingInterrupts := false, false, false;
      this.interconnect := interconnect;
      cycles := 0;
      cpuState := On;
      bus := interconnect.View();
    }

    // Register pairs.

    function Af(): Word reads this { U8sAsU16((regA, regF)) }
    function Bc(): Word reads this { U8sAsU16((regB, regC)) }
    function De(): Word reads this { U8sAsU16((regD, regE)) }
    function Hl(): Word reads this { U8sAsU16((regH, regL)) }

    method SetAf(v: Word)
      modifies this
      ensures View() == Machine.SetAf(old(View()), v)
    {
      regA, regF := U16AsU8s(v).0, U16AsU8s(v).1;
    }

    method SetBc(v: Word)
      modifies this
      ensures View() == Machine.SetBc(old(View()), v)
    {
      regB, regC := U16AsU8s(v).0, U16AsU8s(v).1;
    }

    method SetDe(v: Word)
      modifies this
      ensures View() == Machine.SetDe(old(View()), v)
    {
      regD, regE := U16AsU8s(v).0, U16AsU8s(v).1;
    }

    method SetHl(v: Word)
      modifies this
      ensures View() == Machine.SetHl(old(View()), v)
    {
      regH, regL := U16AsU8s(v).0, U16AsU8s(v).1;
    }

    /** Cpu::check_cc. */
    function CheckCc(cc: Cond): (r: bool)
      reads this
      ensures r <==> (if cc < 2 then flagZ else flagC) == (cc % 2 == 1)
    {
      match cc
      case 0 => !flagZ
      case 1 => flagZ
      case 2 => !flagC
      case _ => flagC
    }

    // Bus access.

    method AddCycles(amount: int)
      modifies this
      ensures old(Valid()) ==> Valid()
      ensures View() == old(View()).(cycles := old(cycles) + amount)
    {
      cycles := cycles + amount;
    }

    method ReadMem(address: Address) returns (v: Byte)
      requires Valid() && Machine.ReadMem(View(), address).Some?
      modifies this
      ensures Valid() && Some((View(), v)) == Machine.ReadMem(old(View()), address)
    {
      AddCycles(4);
      v := interconnect.ReadMem(address);
    }

    method WriteMem(address: Address, value: Byte)
      requires Valid() && Machine.WriteMem(View(), address, value).Some?
      modifies this, interconnect.Repr()
      ensures Valid() && View() == Machine.WriteMem(old(View()), address, value).value
    {
      cycles := cycles + 4;
      WriteBus(address, value);
    }

    /** The interconnect's write, mirrored into the `bus` snapshot. */
    method WriteBus(address: Address, value: Byte)
      requires Valid() && !B.WritePanics(bus, address, value)
      modifies this, interconnect.Repr()
      ensures Valid() && View() == old(View()).(bus := B.BusWrite(old(bus), address, value).value)
    {
      interconnect.WriteMem(address, value);
      bus := interconnect.View();
    }

    method ReadByte() returns (v: Byte)
      requires Valid() && Machine.ReadByte(View()).Some?
      modifies this
      ensures Valid() && Some((View(), v)) == Machine.ReadByte(old(View()))
    {
      AddCycles(4);
      v := ReadMem(regPc);
      regPc := WrapAdd(regPc, 1);
    }

    method ReadNn() returns (nn: (Byte, Byte))
      requires Valid() && Machine.ReadNn(View()).Some?
      modifies this
      ensures Valid() && Some((View(), nn)) == Machine.ReadNn(old(View()))
    {
      var first := ReadByte();
      var second := ReadByte();
      nn := (second, first);
    }

    // The register file.

    method ReadRegR(r: Reg) returns (v: Byte)
      requires Valid() && Machine.ReadRegR(View(), r).Some?
      modifies this
      ensures Valid() && Some((View(), v)) == Machine.ReadRegR(old(View()), r)
    {
      match r
      case 0 => v := regB;
      case 1 => v := regC;
      case 2 => v := regD;
      case 3 => v := regE;
      case 4 => v := regH;
      case 5 => v := regL;
      case 6 => v := ReadMem(Hl());
      case _ => v := regA;
    }

    /** The register half of write_reg_r. */
    method SetRegister(r: Reg, value: Byte)
      requires r != 6
      modifies this
      ensures View() == Machine.SetRegister(old(View()), r, value)
    {
      match r
      case 0 => regB := value;
      case 1 => regC := value;
      case 2 => regD := value;
      case 3 => regE := value;
      case 4 => regH := value;
      case 5 => regL := value;
      case _ => regA := value;
    }

    method WriteRegR(r: Reg, value: Byte)
      requires Valid() && Machine.WriteRegR(View(), r, value).Some?
      modifies this, interconnect.Repr()
      ensures Valid() && View() == Machine.WriteRegR(old(View()), r, value).value
    {
      if r == 6 {
        WriteMem(Hl(), value);
      } else {
        SetRegister(r, value);
      }
    }

    // The stack.

    method PushStack(value: Byte)
      requires Valid() && Machine.PushStack(View(), value).Some?
      modifies this, interconnect.Repr()
      ensures Valid() && View() == Machine.PushStack(old(View()), value).value
    {
      WriteMem(regSp, value);
      regSp := WrapAdd(regSp, -1);
    }

    method PushStackU16(value: Word)
      requires Valid() && Machine.PushStackU16(View(), value).Some?
      modifies this, interconnect.Repr()
      ensures Valid() && View() == Machine.PushStackU16(old(View()), value).value
    {
      var (first, second) := U16AsU8s(value);
      PushStack(first);
      PushStack(second);
    }

    method PopStack() returns (v: Byte)
      requires Valid() && Machine.PopStack(View()).Some?
      modifies this
      ensures Valid() && Some((View(), v)) == Machine.PopStack(old(View()))
    {
      regSp := WrapAdd(regSp, 1);
      v := ReadMem(regSp);
    }

    method PopStackU16() returns (v: Word)
      requires Valid() && Machine.PopStackU16(View()).Some?
      modifies this
      ensures Valid() && Some((View(), v)) == Machine.PopStackU16(old(View()))
    {
      var second := PopStack();
      var first := PopStack();
      v := U8sAsU16((first, second));
    }

    method SetFlags(f: A.Flags)
      modifies this
      ensures View() == old(View()).(flags := f)
    {
      flagZ, flagN, flagH, flagC := f.z, f.n, f.h, f.c;
    }

    // The arms of do_next_instrution; each starts after the opcode fetch
    // and the 4 cycles charged before the `match`.

    method ExecLdR1R2(r1: Reg, r2: Reg)
      requires Valid() && Execution.ExecLdR1R2(View(), r1, r2).Some?
      modifies this, interconnect.Repr()
      ensures Valid() && View() == Execution.ExecLdR1R2(old(View()), r1, r2).value
    {
      var value := ReadRegR(r2);
      WriteRegR(r1, value);
    }

    method ExecLdR1N(r1: Reg)
      requires Valid() && Execution.ExecLdR1N(View(), r1).Some?
      modifies this, interconnect.Repr()
      ensures Valid() && View() == Execution.ExecLdR1N(old(View()), r1).value
    {
      var value := ReadByte();
      WriteRegR(r1, value);
    }

    method ExecLdANnPtr(opcode: Opcode)
      requires Valid() && opcode in {0x0A, 0x1A, 0xFA} && Execution.ExecLdANnPtr(View(), opcode).Some?
      modifies this
      ensures Valid() && View() == Execution.ExecLdANnPtr(old(View()), opcode).value
    {
      var value;
      if opcode == 0x0A {
        value := ReadMem(Bc());
      } else if opcode == 0x1A {
        value := ReadMem(De());
      } else {
        var nn := ReadNn();
        value := ReadMem(U8sAsU16(nn));
      }
      regA := value;
    }

    method ExecLdNnPtrA(opcode: Opcode)
      requires Valid() && opcode in {0x02, 0x12, 0xEA} && Execution.ExecLdNnPtrA(View(), opcode).Some?
      modifies this, interconnect.Repr()
      ensures Valid() && View() == Execution.ExecLdNnPtrA(old(View()), opcode).value
    {
      if opcode == 0x02 {
        WriteMem(Bc(), regA);
      } else if opcode == 0x12 {
        WriteMem(De(), regA);
      } else {
        var nn := ReadNn();
        WriteMem(U8sAsU16(nn), regA);
      }
    }

    method ExecLdACPtr()
      requires Valid()
      modifies this
      ensures Valid() && View() == Execution.ExecLdACPtr(old(View()))
    {
      LoadHighA(regC);
    }

    method LoadHighA(n: Byte)
      requires Valid()
      modifies this
      ensures Valid() && View() == Execution.LoadHighA(old(View()), n)
    {
      regA := ReadMem(0xFF00 + n as int);
    }

    method ExecLdCPtrA()
      requires Valid() && Execution.ExecLdCPtrA(View()).Some?
      modifies this, interconnect.Repr()
      ensures Valid() && View() == Execution.ExecLdCPtrA(old(View())).value
    {
      StoreHighA(regC);
    }

    method StoreHighA(n: Byte)
      requires Valid() && Execution.StoreHighA(View(), n).Some?
      modifies this, interconnect.Repr()
      ensures Valid() && View() == Execution.StoreHighA(old(View()), n).value
    {
      WriteMem(0xFF00 + n as int, regA);
    }

    method ExecLdAHlPtrStep(step: int)
      requires Valid() && (step == -1 || step == 1) && Execution.ExecLdAHlPtrStep(View(), step).Some?
      modifies this
      ensures Valid() && View() == Execution.ExecLdAHlPtrStep(old(View()), step).value
    {
      var address := Hl();
      regA := ReadMem(address);
      SetHl(WrapAdd(address, step));
    }

    method ExecLdHlPtrAStep(step: int)
      requires Valid() && (step == -1 || step == 1) && Execution.ExecLdHlPtrAStep(View(), step).Some?
      modifies this, interconnect.Repr()
      ensures Valid() && View() == Execution.ExecLdHlPtrAStep(old(View()), step).value
    {
      var address := Hl();
      WriteMem(address, regA);
      SetHl(WrapAdd(address, step));
    }

    method ExecLdhNPtrA()
      requires Valid() && Execution.ExecLdhNPtrA(View()).Some?
      modifies this, interconnect.Repr()
      ensures Valid() && View() == Execution.ExecLdhNPtrA(old(View())).value
    {
      var n := ReadByte();
      StoreHighA(n);
    }

    method ExecLdhANPtr()
      requires Valid() && Execution.ExecLdhANPtr(View()).Some?
      modifies this
      ensures Valid() && View() == Execution.ExecLdhANPtr(old(View())).value
    {
      var n := ReadByte();
      LoadHighA(n);
    }

    method ExecLdRrNn(opcode: Opcode)
      requires Valid() && opcode in {0x01, 0x11, 0x21, 0x31} && Execution.ExecLdRrNn(View(), opcode).Some?
      modifies this
      ensures Valid() && View() == Execution.ExecLdRrNn(old(View()), opcode).value
    {
      var nn := ReadNn();
      var value := U8sAsU16(nn);
      if opcode == 0x01 {
        SetBc(value);
      } else if opcode == 0x11 {
        SetDe(value);
      } else if opcode == 0x21 {
        SetHl(value);
      } else {
        regSp := value;
      }
    }

    method ExecLdSpHl()
      requires Valid()
      modifies this
      ensures Valid() && View() == Execution.ExecLdSpHl(old(View()))
    {
      regSp := Hl();
      AddCycles(4);
    }

    method ExecLdHlSpN()
      requires Valid() && Execution.ExecLdHlSpN(View()).Some?
      modifies this
      ensures Valid() && View() == Execution.ExecLdHlSpN(old(View())).value
    {
      var n := ReadByte();
      var (result, flags) := A.AddSpSigned(regSp, n);
      SetHl(result);
      SetFlags(flags);
      AddCycles(4);
    }

    method ExecLdNnSp()
      requires Valid() && Execution.ExecLdNnSp(View()).Some?
      modifies this
      ensures Valid() && View() == Execution.ExecLdNnSp(old(View())).value
    {
      var nn := ReadNn();
      regSp := U8sAsU16(nn);
      AddCycles(8);
    }

    method ExecPushNn(opcode: Opcode)
      requires Valid() && opcode in {0xF5, 0xC5, 0xD5, 0xE5} && Execution.ExecPushNn(View(), opcode).Some?
      modifies this, interconnect.Repr()
      ensures Valid() && View() == Execution.ExecPushNn(old(View()), opcode).value
    {
      var value := if opcode == 0xF5 then Af() else if opcode == 0xC5 then Bc() else if opcode == 0xD5 then De() else Hl();
      PushStackU16(value);
      AddCycles(12);
    }

    method ExecPopNn(opcode: Opcode)
      requires Valid() && opcode in {0xF1, 0xC1, 0xD1, 0xE1} && Execution.ExecPopNn(View(), opcode).Some?
      modifies this
      ensures Valid() && View() == Execution.ExecPopNn(old(View()), opcode).value
    {
      var value := PopStackU16();
      if opcode == 0xF1 {
        SetAf(value);
      } else if opcode == 0xC1 {
        SetBc(value);
      } else if opcode == 0xD1 {
        SetDe(value);
      } else {
        SetHl(value);
      }
      AddCycles(8);
    }

    // 8-bit arithmetic and logic.

    /** The operand of an ALU arm: the byte after the opcode, or register n. */
    method FetchOperand(n: Operand) returns (v: Byte)
      requires Valid() && Execution.FetchOperand(View(), n).Some?
      modifies this
      ensures Valid() && Some((View(), v)) == Execution.FetchOperand(old(View()), n)
    {
      if n == IMMEDIATE {
        v := ReadByte();
      } else {
        v := ReadRegR(n);
      }
    }

    method ExecAddN(n: Operand)
      requires Valid() && Execution.ExecAddN(View(), n).Some?
      modifies this
      ensures Valid() && View() == Execution.ExecAddN(old(View()), n).value
    {
      var v := FetchOperand(n);
      var (result, flags) := A.Add(regA, v);
      regA := result;
      SetFlags(flags);
    }

    method ExecAdcN(n: Operand)
      requires Valid() && Execution.ExecAdcN(View(), n).Some?
      modifies this
      ensures Valid() && View() == Execution.ExecAdcN(old(View()), n).value
    {
      var v := FetchOperand(n);
      var (result, flags) := A.Adc(regA, v, flagC);
      regA := result;
      SetFlags(flags);
    }

    method ExecSubN(n: Operand)
      requires Valid() && Execution.ExecSubN(View(), n).Some?
      modifies this
      ensures Valid() && View() == Execution.ExecSubN(old(View()), n).value
    {
      var v := FetchOperand(n);
      var (result, flags) := A.Sub(regA, v);
      regA := result;
      SetFlags(flags);
    }

    method ExecAndN(n: Operand)
      requires Valid() && Execution.ExecAndN(View(), n).Some?
      modifies this
      ensures Valid() && View() == Execution.ExecAndN(old(View()), n).value
    {
      var v := FetchOperand(n);
      var (result, flags) := A.AndA(regA, v);
      regA := result;
      SetFlags(flags);
    }

    method ExecOrN(n: Operand)
      requires Valid() && Execution.ExecOrN(View(), n).Some?
      modifies this
      ensures Valid() && View() == Execution.ExecOrN(old(View()), n).value
    {
      var v := FetchOperand(n);
      var (result, flags) := A.OrA(regA, v);
      regA := result;
      SetFlags(flags);
    }

    method ExecXorN(n: Operand)
      requires Valid() && Execution.ExecXorN(View(), n).Some?
      modifies this
      ensures Valid() && View() == Execution.ExecXorN(old(View()), n).value
    {
      var v := FetchOperand(n);
      var (result, flags) := A.XorA(regA, v);
      regA := result;
      SetFlags(flags);
    }

    method ExecSbcN(n: Operand)
      requires Valid() && Execution.ExecSbcN(View(), n).Some?
      modifies this
      ensures Valid() && View() == Execution.ExecSbcN(old(View()), n).value
    {
      var v := FetchOperand(n);
      SetFlags(A.SbcFlags(regA, v, flagC));
    }

    method ExecCpN(n: Operand)
      requires Valid() && Execution.ExecCpN(View(), n).Some?
      modifies this
      ensures Valid() && View() == Execution.ExecCpN(old(View()), n).value
    {
      var v := FetchOperand(n);
      SetFlags(A.Cp(regA, v));
    }

    method ExecIncN(reg: Reg)
      requires Valid() && Execution.ExecIncN(View(), reg).Some?
      modifies this, interconnect.Repr()
      ensures Valid() && View() == Execution.ExecIncN(old(View()), reg).value
    {
      var v := ReadRegR(reg);
      var (result, flags) := A.Inc(v, flagC);
      SetFlags(flags);
      WriteRegR(reg, result);
    }

    method ExecDecN(reg: Reg)
      requires Valid() && Execution.ExecDecN(View(), reg).Some?
      modifies this, interconnect.Repr()
      ensures Valid() && View() == Execution.ExecDecN(old(View()), reg).value
    {
      var v := ReadRegR(reg);
      var (result, flags) := A.Dec(v, flagC);
      SetFlags(flags);
      WriteRegR(reg, result);
    }

    // 16-bit arithmetic.

    /** Register pair 0..3 of ADD HL and INC/DEC: BC, DE, HL, SP. */
    function PairValue(rr: Pair): (r: Word)
      reads this
      ensures r == Execution.PairValue(View(), rr)
    {
      match rr
      case 0 => Bc()
      case 1 => De()
      case 2 => Hl()
      case _ => regSp
    }

    method SetPair(rr: Pair, v: Word)
      modifies this
      ensures View() == Execution.SetPair(old(View()), rr, v)
    {
      match rr
      case 0 => SetBc(v);
      case 1 => SetDe(v);
      case 2 => SetHl(v);
      case _ => regSp := v;
    }

    method ExecAddHlNn(rr: Pair)
      requires Valid()
      modifies this
      ensures Valid() && View() == Execution.ExecAddHlNn(old(View()), rr)
    {
      var (result, flags) := A.AddHl(Hl(), PairValue(rr), flagZ);
      SetHl(result);
      SetFlags(flags);
      AddCycles(4);
    }

    method ExecAddSpN()
      requires Valid() && Execution.ExecAddSpN(View()).Some?
      modifies this
      ensures Valid() && View() == Execution.ExecAddSpN(old(View())).value
    {
      var n := ReadByte();
      var (result, flags) := A.AddSpSigned(regSp, n);
      regSp := result;
      SetFlags(flags);
      AddCycles(8);
    }

    method ExecStepNn(rr: Pair, step: int)
      requires Valid() && (step == 1 || step == -1)
      modifies this
      ensures Valid() && View() == Execution.ExecStepNn(old(View()), rr, step)
    {
      SetPair(rr, WrapAdd(PairValue(rr), step));
      AddCycles(4);
    }

    // Jumps, calls and returns.

    method ExecJpNn()
      requires Valid() && Execution.ExecJpNn(View()).Some?
      modifies this
      ensures Valid() && View() == Execution.ExecJpNn(old(View())).value
    {
      var nn := ReadNn();
      regPc := U8sAsU16(nn);
    }

    method ExecJpCcNn(cc: Cond)
      requires Valid() && Execution.ExecJpCcNn(View(), cc).Some?
      modifies this
      ensures Valid() && View() == Execution.ExecJpCcNn(old(View()), cc).value
    {
      var nn := ReadNn();
      if CheckCc(cc) {
        regPc := U8sAsU16(nn);
      }
    }

    method ExecJrN()
      requires Valid() && Execution.ExecJrN(View()).Some?
      modifies this
      ensures Valid() && View() == Execution.ExecJrN(old(View())).value
    {
      var n := ReadByte();
      regPc := WrapAdd(regPc, A.SignExtend(n));
      AddCycles(4);
    }

    method ExecJrCcN(cc: Cond)
      requires Valid() && Execution.ExecJrCcN(View(), cc).Some?
      modifies this
      ensures Valid() && View() == Execution.ExecJrCcN(old(View()), cc).value
    {
      var n := ReadByte();
      if CheckCc(cc) {
        regPc := WrapAdd(regPc, A.SignExtend(n));
      }
      AddCycles(4);
    }

    /** Push PC and jump: the common part of CALL, RST and an interrupt. */
    method PushPcAndJump(target: Word)
      requires Valid() && Machine.PushStackU16(View(), regPc).Some?
      modifies this, interconnect.Repr()
      ensures Valid() && View() == Machine.PushStackU16(old(View()), old(regPc)).value.(pc := target)
    {
      PushStackU16(regPc);
      regPc := target;
    }

    method ExecCallNn()
      requires Valid() && Execution.ExecCallNn(View()).Some?
      modifies this, interconnect.Repr()
      ensures Valid() && View() == Execution.ExecCallNn(old(View())).value
    {
      var nn := ReadNn();
      PushPcAndJump(U8sAsU16(nn));
      AddCycles(8);
    }

    method ExecCallCcNn(cc: Cond)
      requires Valid() && Execution.ExecCallCcNn(View(), cc).Some?
      modifies this, interconnect.Repr()
      ensures Valid() && View() == Execution.ExecCallCcNn(old(View()), cc).value
    {
      var nn := ReadNn();
      if CheckCc(cc) {
        PushPcAndJump(U8sAsU16(nn));
      }
      AddCycles(8);
    }

    method ExecRstN(t: RstTarget)
      requires Valid() && Execution.ExecRstN(View(), t).Some?
      modifies this, interconnect.Repr()
      ensures Valid() && View() == Execution.ExecRstN(old(View()), t).value
    {
      PushPcAndJump(t);
      AddCycles(28);
    }

    method ExecRet()
      requires Valid() && Execution.ExecRet(View()).Some?
      modifies this
      ensures Valid() && View() == Execution.ExecRet(old(View())).value
    {
      var address := PopStackU16();
      regPc := address;
      AddCycles(4);
    }

    method ExecRetCc(cc: Cond)
      requires Valid() && Execution.ExecRetCc(View(), cc).Some?
      modifies this
      ensures Valid() && View() == Execution.ExecRetCc(old(View()), cc).value
    {
      if CheckCc(cc) {
        var address := PopStackU16();
        regPc := address;
      }
      AddCycles(4);
    }

    method ExecReti()
      requires Valid() && Execution.ExecReti(View()).Some?
      modifies this
      ensures Valid() && View() == Execution.ExecReti(old(View())).value
    {
      var address := PopStackU16();
      regPc := address;
      flagIme := true;
      AddCycles(8);
    }

    // The CB table.

    method ExecBit(b: Reg, reg: Reg)
      requires Valid() && Execution.ExecBit(View(), b, reg).Some?
      modifies this
      ensures Valid() && View() == Execution.ExecBit(old(View()), b, reg).value
    {
      var v := ReadRegR(reg);
      SetFlags(A.BitTest(b, v, flagC));
    }

    method ExecSetRes(b: Reg, reg: Reg, setting: bool)
      requires Valid() && Execution.ExecSetRes(View(), b, reg, setting).Some?
      modifies this, interconnect.Repr()
      ensures Valid() && View() == Execution.ExecSetRes(old(View()), b, reg, setting).value
    {
      var v := ReadRegR(reg);
      WriteRegR(reg, if setting then SetBit(v, b) else ClearBit(v, b));
    }

    method ExecShift(inst: CbInstruction)
      requires Valid() && !(inst.BitBR? || inst.SetBR? || inst.ResBR?)
      requires Execution.ExecShift(View(), inst).Some?
      modifies this, interconnect.Repr()
      ensures Valid() && View() == Execution.ExecShift(old(View()), inst).value
    {
      var v := ReadRegR(inst.r);
      var (result, flags) := CbShift(inst, v, flagC);
      SetFlags(flags);
      WriteRegR(inst.r, result);
    }

    method ExecCb(inst: CbInstruction)
      requires Valid() && Execution.ExecCb(View(), inst).Some?
      modifies this, interconnect.Repr()
      ensures Valid() && View() == Execution.ExecCb(old(View()), inst).value
    {
      match inst
      case BitBR(b, reg) => ExecBit(b, reg);
      case SetBR(b, reg) => ExecSetRes(b, reg, true);
      case ResBR(b, reg) => ExecSetRes(b, reg, false);
      case _ => ExecShift(inst);
    }

    method HandleCbOpcode()
      requires Valid() && Execution.HandleCbOpcode(View()).Some?
      modifies this, interconnect.Repr()
      ensures Valid() && View() == Execution.HandleCbOpcode(old(View())).value
    {
      ghost var s := View();
      var opcode := ReadByte();
      AddCycles(4);
      assert Execution.HandleCbOpcode(s) == Execution.ExecCb(View(), ParseCb(opcode));
      ExecCb(ParseCb(opcode));
    }

    // Decode and dispatch, in the groups of Execution.Group.

    method ExecuteLoads(opcode: Opcode, instr: Instruction)
      requires Valid() && Parse(opcode) == Some(instr) && Group(instr) == 0
      requires Execution.ExecuteLoads(View(), opcode, instr).Some?
      modifies this, interconnect.Repr()
      ensures Valid() && View() == Execution.ExecuteLoads(old(View()), opcode, instr).value
    {
      ParseLoadOpcodes(opcode);
      if instr.LdR1R2? {
        ExecLdR1R2(instr.r1, instr.r2);
      } else if instr.LdR1N? {
        ExecLdR1N(instr.r1);
      } else if instr.LdANnPtr? {
        ExecLdANnPtr(opcode);
      } else if instr.LdNnPtrA? {
        ExecLdNnPtrA(opcode);
      } else if instr.LdACPtr? {
        ExecLdACPtr();
      } else {
        assert instr.LdCPtrA?;
        ExecLdCPtrA();
      }
    }

    method ExecuteIndirectLoads(instr: Instruction)
      requires Valid() && Group(instr) == 1 && Execution.ExecuteIndirectLoads(View(), instr).Some?
      modifies this, interconnect.Repr()
      ensures Valid() && View() == Execution.ExecuteIndirectLoads(old(View()), instr).value
    {
      if instr.LddAHlPtr? {
        ExecLdAHlPtrStep(-1);
      } else if instr.LddHlPtrA? {
        ExecLdHlPtrAStep(-1);
      } else if instr.LdiAHlPtr? {
        ExecLdAHlPtrStep(1);
      } else if instr.LdiHlPtrA? {
        ExecLdHlPtrAStep(1);
      } else if instr.LdhNPtrA? {
        ExecLdhNPtrA();
      } else {
        assert instr.LdhANPtr?;
        ExecLdhANPtr();
      }
    }

    method ExecuteWordLoads(opcode: Opcode, instr: Instruction)
      requires Valid() && Parse(opcode) == Some(instr) && Group(instr) == 2
      requires Execution.ExecuteWordLoads(View(), opcode, instr).Some?
      modifies this, interconnect.Repr()
      ensures Valid() && View() == Execution.ExecuteWordLoads(old(View()), opcode, instr).value
    {
      ParseLoadOpcodes(opcode);
      ParseStackOpcodes(opcode);
      if instr.LdRrNn? {
        ExecLdRrNn(opcode);
      } else if instr.LdSpHl? {
        ExecLdSpHl();
      } else if instr.LdHlSpN? {
        ExecLdHlSpN();
      } else if instr.LdNnSp? {
        ExecLdNnSp();
      } else if instr.PushNn? {
        ExecPushNn(opcode);
      } else {
        assert instr.PopNn?;
        ExecPopNn(opcode);
      }
    }

    method ExecuteAlu(instr: Instruction)
      requires Valid() && Group(instr) == 3 && Execution.ExecuteAlu(View(), instr).Some?
      modifies this
      ensures Valid() && View() == Execution.ExecuteAlu(old(View()), instr).value
    {
      if instr.AddN? {
        ExecAddN(instr.n);
      } else if instr.AdcN? {
        ExecAdcN(instr.n);
      } else if instr.SubN? {
        ExecSubN(instr.n);
      } else if instr.SbcN? {
        ExecSbcN(instr.n);
      } else if instr.AndN? {
        ExecAndN(instr.n);
      } else if instr.OrN? {
        ExecOrN(instr.n);
      } else if instr.XorN? {
        ExecXorN(instr.n);
      } else {
        assert instr.CpN?;
        ExecCpN(instr.n);
      }
    }

    method ExecuteIncDec(instr: Instruction)
      requires Valid() && Group(instr) == 4 && Execution.ExecuteIncDec(View(), instr).Some?
      modifies this, interconnect.Repr()
      ensures Valid() && View() == Execution.ExecuteIncDec(old(View()), instr).value
    {
      if instr.IncN? {
        ExecIncN(instr.r);
      } else if instr.DecN? {
        ExecDecN(instr.r);
      } else if instr.AddHlNn? {
        ExecAddHlNn(instr.rr);
      } else if instr.AddSpN? {
        ExecAddSpN();
      } else if instr.IncNn? {
        ExecStepNn(instr.rr, 1);
      } else {
        assert instr.DecNn?;
        ExecStepNn(instr.rr, -1);
      }
    }

    /** JP (HL). */
    method ExecJpHlPtr()
      requires Valid()
      modifies this
      ensures Valid() && View() == old(View()).(pc := Hl())
    {
      regPc := Hl();
    }

    method ExecuteJumps(instr: Instruction)
      requires Valid() && Group(instr) == 6 && Execution.ExecuteJumps(View(), instr).Some?
      modifies this, interconnect.Repr()
      ensures Valid() && View() == Execution.ExecuteJumps(old(View()), instr).value
    {
      if instr.JpNn? {
        ExecJpNn();
      } else if instr.JpCcNn? {
        ExecJpCcNn(instr.cc);
      } else if instr.JpHlPtr? {
        ExecJpHlPtr();
      } else if instr.JrN? {
        ExecJrN();
      } else if instr.JrCcN? {
        ExecJrCcN(instr.cc);
      } else {
        assert instr.Cb?;
        HandleCbOpcode();
      }
    }

    method ExecuteCalls(instr: Instruction)
      requires Valid() && Group(instr) == 7 && Execution.ExecuteCalls(View(), instr).Some?
      modifies this, interconnect.Repr()
      ensures Valid() && View() == Execution.ExecuteCalls(old(View()), instr).value
    {
      if instr.CallNn? {
        ExecCallNn();
      } else if instr.CallCcNn? {
        ExecCallCcNn(instr.cc);
      } else if instr.RstN? {
        ExecRstN(instr.t);
      } else if instr.Ret? {
        ExecRet();
      } else if instr.RetCc? {
        ExecRetCc(instr.cc);
      } else {
        assert instr.Reti?;
        ExecReti();
      }
    }

    /** STOP: the byte after it is skipped, the CPU waits for a button and
        the LCD is turned off. */
    method ExecStop()
      requires Valid() && Execution.ExecStop(View()).Some?
      modifies this, interconnect.ppu
      ensures Valid() && View() == Execution.ExecStop(old(View())).value
    {
      var _ := ReadByte();
      cpuState := OffUntilButtonPress;
      interconnect.ppu.TurnLcdOff();
      bus := interconnect.View();
    }

    /** The flags as one value. */
    function Flags(): (r: A.Flags)
      reads this
      ensures r == View().flags
    {
      A.Flags(flagZ, flagN, flagH, flagC)
    }

    /** A and the flags at once, as the accumulator arms leave them. */
    method SetAccumulator(result: (Byte, A.Flags))
      modifies this
      ensures View() == old(View()).(a := result.0, flags := result.1)
    {
      regA := result.0;
      SetFlags(result.1);
    }

    method ExecAccumulatorArm(instr: Instruction)
      requires Valid() && IsAccumulatorArm(instr)
      modifies this
      ensures Valid() && View() == Execution.AccumulatorArm(old(View()), instr)
    {
      match instr
      case Daa => SetAccumulator(A.Daa(regA, Flags()));
      case Cpl => SetAccumulator((Not(regA), Flags().(h := true, n := true)));
      case Ccf => SetFlags(Flags().(c := !flagC, n := false, h := false));
      case Scf => SetFlags(Flags().(c := true, n := false, h := false));
      case Rlca => SetAccumulator(A.Rlca(regA));
      case Rla => SetAccumulator(A.Rla(regA, flagC));
      case Rrca => SetAccumulator(A.Rrca(regA));
      case Rra => SetAccumulator(A.Rra(regA, flagC));
    }

    method ExecControlArm(instr: Instruction)
      requires Valid() && Group(instr) == 5 && !IsAccumulatorArm(instr)
      requires Execution.ExecControl(View(), instr).Some?
      modifies this, interconnect.ppu
      ensures Valid() && View() == Execution.ExecControl(old(View()), instr).value
    {
      if instr.Stop? {
        ExecStop();
      } else {
        ExecLatchArm(instr);
      }
    }

    /** NOP, HALT, DI and EI, which change no more than the run state and
        the interrupt latches. */
    method ExecLatchArm(instr: Instruction)
      requires Valid() && Group(instr) == 5 && !IsAccumulatorArm(instr) && !instr.Stop?
      modifies this
      ensures Valid() && Some(View()) == Execution.ExecControl(old(View()), instr)
    {
      if instr.Halt? {
        cpuState := OffUntilInterrupt;
      } else if instr.Di? {
        flagDisablingInterrupts := true;
      } else if instr.Ei? {
        flagEnablingInterrupts := true;
      } else {
        assert instr == Nop;
      }
    }

    method ExecuteMisc(instr: Instruction)
      requires Valid() && Group(instr) == 5 && Execution.ExecuteMisc(View(), instr).Some?
      modifies this, interconnect.ppu
      ensures Valid() && View() == Execution.ExecuteMisc(old(View()), instr).value
    {
      if IsAccumulatorArm(instr) {
        ExecAccumulatorArm(instr);
      } else {
        ExecControlArm(instr);
      }
    }

    /** One arm of do_next_instrution's `match`, after the 4 cycles charged
        before it. */
    method Execute(opcode: Opcode, instr: Instruction)
      requires Valid() && Parse(opcode) == Some(instr) && Execution.Execute(View(), opcode, instr).Some?
      modifies this, interconnect.Repr()
      ensures Valid() && View() == Execution.Execute(old(View()), opcode, instr).value
    {
      match Group(instr)
      case 0 => ExecuteLoads(opcode, instr);
      case 1 => ExecuteIndirectLoads(instr);
      case 2 => ExecuteWordLoads(opcode, instr);
      case 3 => ExecuteAlu(instr);
      case 4 => ExecuteIncDec(instr);
      case 5 => ExecuteMisc(instr);
      case 6 => ExecuteJumps(instr);
      case _ => ExecuteCalls(instr);
    }

    /** The 4 cycles do_next_instrution charges after the fetch, then the
        arm of the decoded opcode. */
    method ExecuteFetched(ghost s1: State, opcode: Opcode, instr: Instruction)
      requires Valid() && View() == s1 && Parse(opcode) == Some(instr)
      requires Execution.Execute(s1.(cycles := s1.cycles + 4), opcode, instr).Some?
      modifies this, interconnect.Repr()
      ensures Valid() && View() == Execution.Execute(s1.(cycles := s1.cycles + 4), opcode, instr).value
    {
      assert cycles == s1.cycles;
      AddCycles(4);
      assert View() == s1.(cycles := s1.cycles + 4);
      Execute(opcode, instr);
    }

    /** Cpu::do_next_instrution. */
    method DoNextInstruction()
      requires Valid() && Execution.DoNextInstruction(View()).Some?
      modifies this, interconnect.Repr()
      ensures Valid() && View() == Execution.DoNextInstruction(old(View())).value
    {
      ghost var s0 := View();
      var opcode := ReadByte();
      ghost var s1 := View();
      match Parse(opcode)
      case None =>
        Execution.DoNextInstructionUndefined(s0, s1, opcode);
      case Some(instr) =>
        Execution.DoNextInstructionDefined(s0, s1, opcode, instr);
        ExecuteFetched(s1, opcode, instr);
    }

    // Interrupts and the step.

    /** Interconnect::get_interrupt, seen from the CPU. */
    method TakeInterrupt() returns (interrupt: Option<B.Interrupt>)
      requires Valid()
      modifies this, interconnect
      ensures Valid()
      ensures (View(), interrupt) == (old(View()).(bus := B.TakeInterrupt(old(bus)).0), B.TakeInterrupt(old(bus)).1)
    {
      interrupt := interconnect.GetInterrupt();
      bus := interconnect.View();
    }

    method WakeWithInterruptsOff()
      modifies this
      ensures View() == old(View()).(run := On, ime := false)
    {
      cpuState := On;
      flagIme := false;
    }

    /** The CPU is on, IME is cleared, PC is pushed and the vector of `i`
        is loaded. */
    method EnterInterrupt(i: B.Interrupt)
      requires Valid() && Machine.PushStackU16(View().(run := On, ime := false), regPc).Some?
      modifies this, interconnect.Repr()
      ensures Valid()
      ensures View() == Machine.PushStackU16(old(View()).(run := On, ime := false), old(regPc)).value.(pc := InterruptVector(i))
    {
      WakeWithInterruptsOff();
      PushPcAndJump(InterruptVector(i));
    }

    /** Cpu::handle_interrupts. */
    method HandleInterrupts()
      requires Valid() && Execution.HandleInterrupts(View()).Some?
      modifies this, interconnect.Repr()
      ensures Valid() && View() == Execution.HandleInterrupts(old(View())).value
    {
      var interrupt := TakeInterrupt();
      match interrupt
      case None =>
      case Some(i) => EnterInterrupt(i);
    }

    /** The DI and EI latches, as Cpu::step applies them. */
    method ApplyInterruptLatches()
      modifies this
      ensures View() == Execution.ApplyInterruptLatches(old(View()))
    {
      if flagDisablingInterrupts {
        flagDisablingInterrupts := false;
        flagIme := false;
      }
      if flagEnablingInterrupts {
        flagEnablingInterrupts := false;
        flagIme := true;
      }
    }

    /** Cpu::step after the cycle check. */
    method Dispatch()
      requires Valid() && Execution.Dispatch(View()).Some?
      modifies this, interconnect.Repr()
      ensures Valid() && View() == Execution.Dispatch(old(View())).value
    {
      if flagIme && (cpuState == On || cpuState == OffUntilInterrupt) {
        HandleInterrupts();
      }
      if cpuState == On {
        RunInstruction();
      }
    }

    /** The CPU is on: the EI/DI latches, then one instruction. */
    method RunInstruction()
      requires Valid() && Execution.DoNextInstruction(Execution.ApplyInterruptLatches(View())).Some?
      modifies this, interconnect.Repr()
      ensures Valid() && View() == Execution.DoNextInstruction(Execution.ApplyInterruptLatches(old(View()))).value
    {
      ApplyInterruptLatches();
      DoNextInstruction();
    }

    /** Cycles still owed by the last instruction: 4 of them pass. */
    method BurnCycles()
      requires Valid()
      modifies this
      ensures Valid() && View() == old(View()).(cycles := old(cycles) - 4)
    {
      cycles := cycles - 4;
    }

    /** The interconnect's update at the start of Cpu::step. */
    method UpdateInterconnect(joypadPressed: bool)
      requires Valid()
      modifies this, interconnect, interconnect.ppu
      ensures Valid() && View() == old(View()).(bus := B.BusUpdate(old(View()).bus, joypadPressed))
    {
      interconnect.Update(joypadPressed);
      bus := interconnect.View();
    }

    /** Cpu::step: the interconnect first, then either 4 cycles of debt are
        burned or the next interrupt and instruction run. */
    method Step(joypadPressed: bool)
      requires Valid() && Execution.Step(View(), joypadPressed).Some?
      modifies this, interconnect.Repr()
      ensures Valid() && View() == Execution.Step(old(View()), joypadPressed).value
    {
      UpdateInterconnect(joypadPressed);
      if cycles > 0 {
        BurnCycles();
      } else {
        Dispatch();
      }
    }
  }
}
