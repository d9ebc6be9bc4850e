/** The fixed partition of the 16-bit address space (src/memory_map.rs).
    Every region is half-open [START, END), except the single interrupt-enable
    register at 0xFFFF. */
module MemoryMap {

  import opened Wrappers

  /** A 16-bit address, as the number it denotes. */
  type Address = a: int | 0 <= a < 0x1_0000

  const ROM_BANK0_START: Address := 0x0000
  const ROM_BANK0_END: Address := 0x4000
  const ROM_BANK0_LENGTH: Address := ROM_BANK0_END - ROM_BANK0_START

  const SWITCH_ROM_BANK_START: Address := 0x4000
  const SWITCH_ROM_BANK_END: Address := 0x8000
  const SWITCH_ROM_BANK_LENGTH: Address := SWITCH_ROM_BANK_END - SWITCH_ROM_BANK_START

  const VRAM_START: Address := 0x8000
  const VRAM_END: Address := 0xA000
  const VRAM_LENGTH: Address := VRAM_END - VRAM_START

  const SWITCH_RAM_BANK_START: Address := 0xA000
  const SWITCH_RAM_BANK_END: Address := 0xC000
  const SWITCH_RAM_BANK_LENGTH: Address := SWITCH_RAM_BANK_END - SWITCH_RAM_BANK_START

  const INTERNAL_RAM_START: Address := 0xC000
  const INTERNAL_RAM_END: Address := 0xE000
  const INTERNAL_RAM_LENGTH: Address := INTERNAL_RAM_END - INTERNAL_RAM_START

  // E000-FE00 reads and writes the same bytes as C000-DE00.
  const ECHO_RAM_START: Address := 0xE000
  const ECHO_RAM_END: Address := 0xFE00
  const ECHO_RAM_LENGTH: Address := ECHO_RAM_END - ECHO_RAM_START

  const SPRITE_MEM_START: Address := 0xFE00
  const SPRITE_MEM_END: Address := 0xFEA0
  const SPRITE_MEM_LENGTH: Address := SPRITE_MEM_END - SPRITE_MEM_START

  const IO_PORTS_START: Address := 0xFF00
  const IO_PORTS_END: Address := 0xFF4C
  const IO_PORTS_LENGTH: Address := IO_PORTS_END - IO_PORTS_START

  const INTERNAL_RAM2_START: Address := 0xFF80
  const INTERNAL_RAM2_END: Address := 0xFFFF
  const INTERNAL_RAM2_LENGTH: Address := INTERNAL_RAM2_END - INTERNAL_RAM2_START

  const INTERRUPT_REGISTER: Address := 0xFFFF

  /** The named regions, in address order. */
  datatype Region =
    | RomBank0 | SwitchRomBank | Vram | SwitchRamBank | InternalRam
    | EchoRam | SpriteMem | IoPorts | InternalRam2 | InterruptRegister

  function Start(r: Region): Address {
    match r
    case RomBank0 => ROM_BANK0_START
    case SwitchRomBank => SWITCH_ROM_BANK_START
    case Vram => VRAM_START
    case SwitchRamBank => SWITCH_RAM_BANK_START
    case InternalRam => INTERNAL_RAM_START
    case EchoRam => ECHO_RAM_START
    case SpriteMem => SPRITE_MEM_START
    case IoPorts => IO_PORTS_START
    case InternalRam2 => INTERNAL_RAM2_START
    case InterruptRegister => INTERRUPT_REGISTER
  }

  /** One past the last address of a region; the interrupt register is the
      single address 0xFFFF, whose end does not fit in 16 bits. */
  function End(r: Region): Address
    requires r != InterruptRegister
  {
    match r
    case RomBank0 => ROM_BANK0_END
    case SwitchRomBank => SWITCH_ROM_BANK_END
    case Vram => VRAM_END
    case SwitchRamBank => SWITCH_RAM_BANK_END
    case InternalRam => INTERNAL_RAM_END
    case EchoRam => ECHO_RAM_END
    case SpriteMem => SPRITE_MEM_END
    case IoPorts => IO_PORTS_END
    case InternalRam2 => INTERNAL_RAM2_END
  }

  predicate InRegion(address: Address, r: Region) {
    if r == InterruptRegister then address == INTERRUPT_REGISTER
    else Start(r) <= address < End(r)
  }

  /** The region an address belongs to, or None for the two unnamed gaps. */
  function RegionOf(address: Address): (r: Option<Region>)
    ensures r.Some? ==> InRegion(address, r.value)
    ensures r.None? <==> (0xFEA0 <= address < 0xFF00 || 0xFF4C <= address < 0xFF80)
  {
    if address < ROM_BANK0_END then Some(RomBank0)
    else if address < SWITCH_ROM_BANK_END then Some(SwitchRomBank)
    else if address < VRAM_END then Some(Vram)
    else if address < SWITCH_RAM_BANK_END then Some(SwitchRamBank)
    else if address < INTERNAL_RAM_END then Some(InternalRam)
    else if address < ECHO_RAM_END then Some(EchoRam)
    else if address < SPRITE_MEM_END then Some(SpriteMem)
    else if address < IO_PORTS_START then None
    else if address < IO_PORTS_END then Some(IoPorts)
    else if address < INTERNAL_RAM2_START then None
    else if address < INTERNAL_RAM2_END then Some(InternalRam2)
    else Some(InterruptRegister)
  }

  /** No address lies in two regions. */
  lemma {:induction false} RegionsDisjoint(address: Address, p: Region, q: Region)
    requires InRegion(address, p) && InRegion(address, q)
    ensures p == q
  {
  }

  /** Consecutive regions are adjacent: each END is the next START. */
  lemma Adjacent()
    ensures ROM_BANK0_END == SWITCH_ROM_BANK_START
    ensures SWITCH_ROM_BANK_END == VRAM_START
    ensures VRAM_END == SWITCH_RAM_BANK_START
    ensures SWITCH_RAM_BANK_END == INTERNAL_RAM_START
    ensures INTERNAL_RAM_END == ECHO_RAM_START
    ensures ECHO_RAM_END == SPRITE_MEM_START
    ensures INTERNAL_RAM2_END == INTERRUPT_REGISTER == 0xFFFF
  {
  }

  lemma Lengths()
    ensures ROM_BANK0_LENGTH == SWITCH_ROM_BANK_LENGTH == 0x4000
    ensures VRAM_LENGTH == 0x2000 && SWITCH_RAM_BANK_LENGTH == 0x2000
    ensures INTERNAL_RAM_LENGTH == 0x2000 && ECHO_RAM_LENGTH == 0x1E00
    ensures SPRITE_MEM_LENGTH == 0xA0 && IO_PORTS_LENGTH == 0x4C
    ensures INTERNAL_RAM2_LENGTH == 0x7F
  {
  }

  /** The echo window is shorter than work RAM, so every echo offset is a
      work-RAM index; and the interrupt register is not part of high RAM. */
  lemma EchoIndexesInternalRam(address: Address)
    requires InRegion(address, EchoRam)
    ensures address - ECHO_RAM_START < INTERNAL_RAM_LENGTH
    ensures InRegion(address - ECHO_RAM_START + INTERNAL_RAM_START, InternalRam)
    ensures !InRegion(INTERRUPT_REGISTER, InternalRam2)
  {
  }
}
