/** The sound register file (src/sound_subsystem.rs): seven plain byte
    registers that the bus reads and writes; no sound is produced. */
module SoundSubsystem {

  import opened Wrappers
  import opened MemoryMap
  import opened Utils

  const NR11_ADDRESS: Address := 0xFF11
  const NR12_ADDRESS: Address := 0xFF12
  const NR13_ADDRESS: Address := 0xFF13
  const NR14_ADDRESS: Address := 0xFF14
  const NR50_ADDRESS: Address := 0xFF24
  const NR51_ADDRESS: Address := 0xFF25
  const NR52_ADDRESS: Address := 0xFF26

  /** The addresses the sound subsystem answers at. */
  predicate IsSoundRegister(address: Address) {
    address == NR11_ADDRESS || address == NR12_ADDRESS || address == NR13_ADDRESS
    || address == NR14_ADDRESS || address == NR50_ADDRESS || address == NR51_ADDRESS
    || address == NR52_ADDRESS
  }

  datatype Registers = Registers(
    NR11: Byte, NR12: Byte, NR13: Byte, NR14: Byte,
    NR50: Byte, NR51: Byte, NR52: Byte)

  /** SoundSubsystem::new: every register 0. */
  const REGISTERS_AT_RESET := Registers(0, 0, 0, 0, 0, 0, 0)

  /** SoundSubsystem::read: the register at `address`, None elsewhere. */
  function SoundRead(s: Registers, address: Address): (r: Option<Byte>)
    ensures r.Some? <==> IsSoundRegister(address)
  {
    match address
    case 0xFF11 => Some(s.NR11)
    case 0xFF12 => Some(s.NR12)
    case 0xFF13 => Some(s.NR13)
    case 0xFF14 => Some(s.NR14)
    case 0xFF24 => Some(s.NR50)
    case 0xFF25 => Some(s.NR51)
    case 0xFF26 => Some(s.NR52)
    case _ => None
  }

  /** SoundSubsystem::write: stores the value into the addressed register;
      the flag says whether the address was one of the seven. */
  function SoundWrite(s: Registers, address: Address, value: Byte): (r: (Registers, bool))
    ensures r.1 <==> IsSoundRegister(address)
    ensures !r.1 ==> r.0 == s
  {
    match address
    case 0xFF11 => (s.(NR11 := value), true)
    case 0xFF12 => (s.(NR12 := value), true)
    case 0xFF13 => (s.(NR13 := value), true)
    case 0xFF14 => (s.(NR14 := value), true)
    case 0xFF24 => (s.(NR50 := value), true)
    case 0xFF25 => (s.(NR51 := value), true)
    case 0xFF26 => (s.(NR52 := value), true)
    case _ => (s, false)
  }

  /** Every register reads 0 after reset. */
  lemma ResetReadsZero(address: Address)
    requires IsSoundRegister(address)
    ensures SoundRead(REGISTERS_AT_RESET, address) == Some(0)
  {
  }

  /** A write to a sound register is read back at the same address. */
  lemma WriteThenRead(s: Registers, address: Address, value: Byte)
    requires IsSoundRegister(address)
    ensures SoundRead(SoundWrite(s, address, value).0, address) == Some(value)
  {
  }

  /** A write stores into the addressed register only: every other address
      reads as before. */
  lemma WriteOnlyAddressed(s: Registers, address: Address, value: Byte, other: Address)
    requires other != address
    ensures SoundRead(SoundWrite(s, address, value).0, other) == SoundRead(s, other)
  {
  }

  class SoundSubsystem {
    var NR11: Byte
    var NR12: Byte
    var NR13: Byte
    var NR14: Byte
    var NR50: Byte
    var NR51: Byte
    var NR52: Byte

    function View(): Registers
      reads this
    {
      Registers(NR11, NR12, NR13, NR14, NR50, NR51, NR52)
    }

    constructor()
      ensures View() == REGISTERS_AT_RESET
    {
      NR11, NR12, NR13, NR14 := 0, 0, 0, 0;
      NR50, NR51, NR52 := 0, 0, 0;
    }

    method Read(address: Address) returns (r: Option<Byte>)
      ensures r == SoundRead(View(), address)
    {
      match address
      case 0xFF11 => r := Some(NR11);
      case 0xFF12 => r := Some(NR12);
      case 0xFF13 => r := Some(NR13);
      case 0xFF14 => r := Some(NR14);
      case 0xFF24 => r := Some(NR50);
      case 0xFF25 => r := Some(NR51);
      case 0xFF26 => r := Some(NR52);
      case _ => r := None;
    }

    method Write(address: Address, value: Byte) returns (handled: bool)
      modifies this
      ensures (View(), handled) == SoundWrite(old(View()), address, value)
    {
      handled := true;
      match address
      case 0xFF11 => NR11 := value;
      case 0xFF12 => NR12 := value;
      case 0xFF13 => NR13 := value;
      case 0xFF14 => NR14 := value;
      case 0xFF24 => NR50 := value;
      case 0xFF25 => NR51 := value;
      case 0xFF26 => NR52 := value;
      case _ => handled := false;
    }
  }
}
