/** The memory bus of src/interconnect.rs as a value: what every address
    reads, what every write does, the DMA copy, the choice of the pending
    interrupt and the per-cycle update. The `Interconnect` class in
    interconnect.dfy is proved to behave as these functions say. */
module Bus {

  import opened Wrappers
  import opened MemoryMap
  import opened Utils
  import C = Cartridge
  import P = Ppu
  import S = SoundSubsystem
  import T = Timer
  import J = Joypad

  /** The interrupt sources; the index is the priority, lowest first. */
  datatype Interrupt =
    | VBlankInterrupt | LcdStatusInterrupt | TimerOverflowInterrupt
    | SerialTransferInterrupt | JoypadInterrupt
  {
    function Index(): (i: nat)
      ensures i < 5
    {
      match this
      case VBlankInterrupt => 0
      case LcdStatusInterrupt => 1
      case TimerOverflowInterrupt => 2
      case SerialTransferInterrupt => 3
      case JoypadInterrupt => 4
    }
  }

  /** `Interrupt::from_u8`. */
  function InterruptOf(i: nat): (r: Interrupt)
    requires i < 5
    ensures r.Index() == i
  {
    match i
    case 0 => VBlankInterrupt
    case 1 => LcdStatusInterrupt
    case 2 => TimerOverflowInterrupt
    case 3 => SerialTransferInterrupt
    case _ => JoypadInterrupt
  }

  const DMA_ADDRESS: Address := 0xFF46
  const BOOT_OFF_ADDRESS: Address := 0xFF50
  const INTERRUPT_FLAG_ADDRESS: Address := 0xFF0F
  /** Bytes copied by one DMA transfer, 0..=0x9F. */
  const DMA_LENGTH: nat := 0xA0
  /** PPU cycles charged for a DMA transfer. */
  const DMA_CYCLES: int := 200

  /** Everything the interconnect owns: the boot image, the cartridge, the
      two RAMs, the peripherals, IF, IE and the boot flag. */
  datatype BusState = BusState(
    boot: seq<Byte>,
    cartridge: C.State,
    internalRam2: seq<Byte>,
    internalRam: seq<Byte>,
    ppu: P.PpuState,
    sound: S.Registers,
    timer: Byte,
    keys: Byte,
    interruptFlag: Byte,
    interruptEnable: Byte,
    booting: bool)
  {
    /** Memories of their fixed sizes. The boot image may have any length:
        a boot-overlay read past its end is a panic (ReadPanics). */
    ghost predicate Valid() {
      && cartridge.Valid() && ppu.Valid()
      && |internalRam| == INTERNAL_RAM_LENGTH && |internalRam2| == INTERNAL_RAM2_LENGTH
    }
  }

  /** Interconnect::new. */
  function Init(boot: seq<Byte>, cartridge: C.State): (b: BusState)
    requires cartridge.Valid()
    ensures b.Valid() && b.booting && b.boot == boot && b.cartridge == cartridge
  {
    BusState(boot, cartridge, seq(INTERNAL_RAM2_LENGTH, _ => 0), seq(INTERNAL_RAM_LENGTH, _ => 0),
             P.PPU_AT_RESET, S.REGISTERS_AT_RESET, 0, J.KEYS_AT_RESET, 0, 0, true)
  }

  /** The two address ranges no component answers; the source logs and
      reads 0xFF or ignores the write. */
  predicate Unusable(address: Address) {
    (0xFEA0 <= address <= 0xFEFF) || (IO_PORTS_END <= address <= 0xFF7F)
  }

  /** Interconnect::io_port_read: FF46 reads 0xFF; otherwise the PPU, the
      sound registers, the timer and the joypad are asked in turn and the
      first answer wins; otherwise FF0F is IF and anything else 0xFF. */
  function IoRead(b: BusState, address: Address): (r: Byte)
  {
    if address == DMA_ADDRESS then 0xFF
    else if P.PpuRead(b.ppu, address).Some? then P.PpuRead(b.ppu, address).value
    else if S.SoundRead(b.sound, address).Some? then S.SoundRead(b.sound, address).value
    else if T.TimerRead(b.timer, address).Some? then T.TimerRead(b.timer, address).value
    else if J.KeysRead(b.keys, address).Some? then J.KeysRead(b.keys, address).value
    else if address == INTERRUPT_FLAG_ADDRESS then b.interruptFlag
    else 0xFF
  }

  /** The reads on which the source panics: while booting, a read of
      0x00..0xFF past the end of the boot image; otherwise a switchable-ROM
      read of a bank the cartridge image does not hold. */
  predicate ReadPanics(b: BusState, address: Address)
    requires b.Valid()
    ensures ReadPanics(b, address) ==>
      || (b.booting && |b.boot| <= address <= 0xFF)
      || SWITCH_ROM_BANK_START <= address < SWITCH_ROM_BANK_END
  {
    if b.booting && address <= 0xFF then address >= |b.boot|
    else C.ReadPanics(b.cartridge, address)
  }

  /** Interconnect::read_mem: None where the cartridge panics. The boot
      overlay comes first, then the cartridge, then the fixed regions; every
      other address is answered, and the source's own panic arm cannot be
      reached. */
  function BusRead(b: BusState, address: Address): (r: Option<Byte>)
    requires b.Valid()
    ensures r.None? <==> ReadPanics(b, address)
  {
    if b.booting && address <= 0xFF then
      if address < |b.boot| then Some(b.boot[address]) else None
    else if C.ReadPanics(b.cartridge, address) then None
    else if C.Read(b.cartridge, address).Some? then C.Read(b.cartridge, address)
    else if InRegion(address, Vram) then Some(P.VramRead(b.ppu, address))
    else if InRegion(address, IoPorts) then Some(IoRead(b, address))
    else if InRegion(address, InternalRam) then Some(b.internalRam[address - INTERNAL_RAM_START])
    else if InRegion(address, EchoRam) then Some(b.internalRam[address - ECHO_RAM_START])
    else if InRegion(address, InternalRam2) then Some(b.internalRam2[address - INTERNAL_RAM2_START])
    else if InRegion(address, SpriteMem) then Some(P.SpriteMemRead(b.ppu, address))
    else if address == INTERRUPT_REGISTER then Some(b.interruptEnable)
    else Some(0xFF)
  }

  /** `value << 2` computed in u8: the DMA source address. */
  function DmaSource(value: Byte): (start: Byte)
    ensures start % 4 == 0
  {
    (value * 4) % 0x100
  }

  /** A DMA copy from `start` panics where one of its reads does: the
      source lies below 0x1A0, so only while booting, when the boot image
      ends at or before the last source address below 0x100. */
  predicate DmaPanics(b: BusState, start: Byte) {
    b.booting && |b.boot| <= 0xFF && |b.boot| <= start + 0x9F
  }

  /** DmaPanics holds exactly when one of the 0xA0 source reads panics. */
  lemma DmaPanicsExactly(b: BusState, start: Byte)
    requires b.Valid()
    ensures !DmaPanics(b, start) <==> forall a: Address :: start <= a < start + DMA_LENGTH ==> !ReadPanics(b, a)
  {
    if DmaPanics(b, start) {
      var a := if |b.boot| >= start then |b.boot| else start;
      assert start <= a < start + DMA_LENGTH && ReadPanics(b, a);
    }
  }

  /** The 0xA0 bytes a DMA transfer copies, read through the bus. */
  function DmaBytes(b: BusState, start: Byte): (r: seq<Byte>)
    requires b.Valid() && !DmaPanics(b, start)
    ensures |r| == DMA_LENGTH == SPRITE_MEM_LENGTH
  {
    seq<Byte>(DMA_LENGTH, i requires 0 <= i < DMA_LENGTH => BusRead(b, start + i).value)
  }

  /** The DMA branch of io_port_write: sprite memory becomes a copy of the
      source bytes and the PPU is charged 200 cycles. */
  function Dma(b: BusState, value: Byte): (r: BusState)
    requires b.Valid() && !DmaPanics(b, DmaSource(value))
    ensures r.Valid()
  {
    b.(ppu := P.PpuAddCycles(b.ppu.(spriteMemory := DmaBytes(b, DmaSource(value))), DMA_CYCLES))
  }

  /** Interconnect::io_port_write: FF46 starts a DMA transfer; otherwise the
      PPU, sound, timer and joypad are offered the write in turn; what none
      claims stores IF at FF0F and is dropped elsewhere. */
  function IoWrite(b: BusState, address: Address, value: Byte): (r: BusState)
    requires b.Valid() && (address == DMA_ADDRESS ==> !DmaPanics(b, DmaSource(value)))
    ensures r.Valid()
    ensures address == DMA_ADDRESS ==> r == Dma(b, value)
    ensures P.IsPpuRegister(address) ==> r == b.(ppu := P.PpuWrite(b.ppu, address, value).0)
    ensures S.IsSoundRegister(address) ==> r == b.(sound := S.SoundWrite(b.sound, address, value).0)
    ensures address == T.TAC_ADDRESS ==> r == b
    ensures address == J.JOYPAD_REGISTER ==> r == b.(keys := J.KeysWrite(b.keys, address, value).0)
    ensures address == INTERRUPT_FLAG_ADDRESS ==> r == b.(interruptFlag := value)
    ensures (address != DMA_ADDRESS && !P.IsPpuRegister(address) && !S.IsSoundRegister(address)
             && address != J.JOYPAD_REGISTER && address != INTERRUPT_FLAG_ADDRESS) ==> r == b
  {
    if address == DMA_ADDRESS then Dma(b, value)
    else if P.PpuWrite(b.ppu, address, value).1 then b.(ppu := P.PpuWrite(b.ppu, address, value).0)
    else if S.SoundWrite(b.sound, address, value).1 then b.(sound := S.SoundWrite(b.sound, address, value).0)
    else if T.TimerWrite(address, value) then b
    else if J.KeysWrite(b.keys, address, value).1 then b.(keys := J.KeysWrite(b.keys, address, value).0)
    else if address == INTERRUPT_FLAG_ADDRESS then b.(interruptFlag := value)
    else b
  }

  /** The writes on which the source panics: a non-zero byte into sprite
      memory, a ROM-area address that no bank register claims, and a DMA
      start whose copy reads past the boot image. */
  predicate WritePanics(b: BusState, address: Address, value: Byte) {
    || (InRegion(address, SpriteMem) && value > 0)
    || (address < SWITCH_ROM_BANK_END && !b.cartridge.ranges.Claims(address))
    || (address == DMA_ADDRESS && DmaPanics(b, DmaSource(value)))
  }

  /** Interconnect::write_mem: None where the source panics. The cartridge
      is offered the write first. */
  function BusWrite(b: BusState, address: Address, value: Byte): (r: Option<BusState>)
    requires b.Valid()
    ensures r.None? <==> WritePanics(b, address, value)
    ensures r.Some? ==> r.value.Valid() && r.value.boot == b.boot
    ensures r.Some? && r.value.booting ==> b.booting
  {
    if C.Write(b.cartridge, address, value).1 then Some(b.(cartridge := C.Write(b.cartridge, address, value).0))
    else RegionWrite(b, address, value)
  }

  /** The `match` of write_mem, reached when the cartridge declines. */
  function RegionWrite(b: BusState, address: Address, value: Byte): (r: Option<BusState>)
    requires b.Valid()
    ensures r.Some? ==> r.value.Valid() && r.value.boot == b.boot && r.value.cartridge == b.cartridge
  {
    if address == BOOT_OFF_ADDRESS then Some(b.(booting := false))
    else if InRegion(address, Vram) then Some(b.(ppu := P.VramWrite(b.ppu, address, value)))
    else if InRegion(address, IoPorts) then
      if address == DMA_ADDRESS && DmaPanics(b, DmaSource(value)) then None else Some(IoWrite(b, address, value))
    else if InRegion(address, InternalRam) then
      Some(b.(internalRam := b.internalRam[address - INTERNAL_RAM_START := value]))
    else if InRegion(address, EchoRam) then
      Some(b.(internalRam := b.internalRam[address - ECHO_RAM_START := value]))
    else if InRegion(address, InternalRam2) then
      Some(b.(internalRam2 := b.internalRam2[address - INTERNAL_RAM2_START := value]))
    else if InRegion(address, SpriteMem) then
      if value > 0 then None else Some(b.(ppu := P.SpriteMemWrite(b.ppu, address, value)))
    else if address == INTERRUPT_REGISTER then Some(b.(interruptEnable := value))
    else if Unusable(address) then Some(b)
    else None
  }

  // Properties of reads and writes.

  /** While booting, the first 256 addresses read the boot image, and a
      read past its end panics. */
  lemma BootOverlay(b: BusState, address: Address)
    requires b.Valid() && b.booting && address <= 0xFF
    ensures BusRead(b, address) == if address < |b.boot| then Some(b.boot[address]) else None
  {
  }

  /** Once the boot image is off, 0x0000..0x3FFF read the cartridge ROM. */
  lemma RomAfterBoot(b: BusState, address: Address)
    requires b.Valid() && address < ROM_BANK0_END && (!b.booting || address > 0xFF)
    ensures BusRead(b, address) == Some(b.cartridge.rom[address])
  {
  }

  /** Writing FF50 switches the boot overlay off for good: no write sets the
      flag again (the other bus operations leave it alone as well). */
  lemma BootOff(b: BusState, value: Byte)
    requires b.Valid()
    ensures BusWrite(b, BOOT_OFF_ADDRESS, value) == Some(b.(booting := false))
  {
  }

  /** When the cartridge claims a write, nothing outside it changes. */
  lemma CartridgeClaimIsolated(b: BusState, address: Address, value: Byte)
    requires b.Valid() && C.Write(b.cartridge, address, value).1
    ensures BusWrite(b, address, value) == Some(b.(cartridge := C.Write(b.cartridge, address, value).0))
  {
  }

  /** Echo RAM aliases work RAM: E000+k reads work-RAM byte k, and a write
      at either address is read back at the other. */
  lemma EchoAlias(b: BusState, k: nat, value: Byte)
    requires b.Valid() && k < ECHO_RAM_LENGTH
    ensures BusRead(b, ECHO_RAM_START + k) == Some(b.internalRam[k]) == BusRead(b, INTERNAL_RAM_START + k)
    ensures BusWrite(b, ECHO_RAM_START + k, value).Some?
    ensures BusRead(BusWrite(b, ECHO_RAM_START + k, value).value, INTERNAL_RAM_START + k) == Some(value)
    ensures BusWrite(b, INTERNAL_RAM_START + k, value).Some?
    ensures BusRead(BusWrite(b, INTERNAL_RAM_START + k, value).value, ECHO_RAM_START + k) == Some(value)
  {
  }

  /** IE and IF read back what was last written to them. */
  lemma InterruptRegistersReadBack(b: BusState, value: Byte)
    requires b.Valid()
    ensures BusWrite(b, INTERRUPT_REGISTER, value) == Some(b.(interruptEnable := value))
    ensures BusRead(BusWrite(b, INTERRUPT_REGISTER, value).value, INTERRUPT_REGISTER) == Some(value)
    ensures BusWrite(b, INTERRUPT_FLAG_ADDRESS, value) == Some(b.(interruptFlag := value))
    ensures BusRead(BusWrite(b, INTERRUPT_FLAG_ADDRESS, value).value, INTERRUPT_FLAG_ADDRESS) == Some(value)
  {
  }

  /** The unusable ranges read 0xFF, and writes there change nothing (FF50,
      inside the second range, is the boot switch). */
  lemma UnusableAreas(b: BusState, address: Address, value: Byte)
    requires b.Valid() && Unusable(address)
    ensures BusRead(b, address) == Some(0xFF)
    ensures address != BOOT_OFF_ADDRESS ==> BusWrite(b, address, value) == Some(b)
  {
  }

  /** Which component answers an I/O read: FF46 reads 0xFF, the PPU, sound,
      timer and joypad registers read their owners, FF0F reads IF and the
      remaining ports read 0xFF. */
  lemma IoReadOwners(b: BusState, address: Address)
    requires b.Valid() && InRegion(address, IoPorts)
    ensures BusRead(b, address) == Some(IoRead(b, address))
    ensures address == DMA_ADDRESS ==> BusRead(b, address) == Some(0xFF)
    ensures P.IsPpuRegister(address) ==> BusRead(b, address) == P.PpuRead(b.ppu, address)
    ensures S.IsSoundRegister(address) ==> BusRead(b, address) == S.SoundRead(b.sound, address)
    ensures address == T.TAC_ADDRESS ==> BusRead(b, address) == Some(b.timer)
    ensures address == J.JOYPAD_REGISTER ==> BusRead(b, address) == Some(b.keys)
    ensures address == INTERRUPT_FLAG_ADDRESS ==> BusRead(b, address) == Some(b.interruptFlag)
    ensures !P.IsPpuRegister(address) && !S.IsSoundRegister(address) && address != T.TAC_ADDRESS
            && address != J.JOYPAD_REGISTER && address != INTERRUPT_FLAG_ADDRESS
            ==> BusRead(b, address) == Some(0xFF)
  {
  }

  /** Which component takes an I/O write, in the order io_port_write offers
      it: FF46 starts a DMA copy (and panics where the copy would), then
      the PPU, sound, timer and joypad registers go to their owners, FF0F
      sets IF and the remaining ports drop the write. */
  lemma IoWriteOwners(b: BusState, address: Address, value: Byte)
    requires b.Valid() && InRegion(address, IoPorts)
    ensures BusWrite(b, address, value).None? <==> address == DMA_ADDRESS && DmaPanics(b, DmaSource(value))
    ensures BusWrite(b, address, value).Some? ==> BusWrite(b, address, value) == Some(IoWrite(b, address, value))
    ensures address == DMA_ADDRESS && !DmaPanics(b, DmaSource(value)) ==> BusWrite(b, address, value) == Some(Dma(b, value))
    ensures P.IsPpuRegister(address) ==> BusWrite(b, address, value) == Some(b.(ppu := P.PpuWrite(b.ppu, address, value).0))
    ensures S.IsSoundRegister(address) ==> BusWrite(b, address, value) == Some(b.(sound := S.SoundWrite(b.sound, address, value).0))
    ensures address == T.TAC_ADDRESS ==> BusWrite(b, address, value) == Some(b)
    ensures address == J.JOYPAD_REGISTER ==> BusWrite(b, address, value) == Some(b.(keys := J.KeysWrite(b.keys, address, value).0))
    ensures address == INTERRUPT_FLAG_ADDRESS ==> BusWrite(b, address, value) == Some(b.(interruptFlag := value))
    ensures (address != DMA_ADDRESS && !P.IsPpuRegister(address) && !S.IsSoundRegister(address)
             && address != J.JOYPAD_REGISTER && address != INTERRUPT_FLAG_ADDRESS) ==> BusWrite(b, address, value) == Some(b)
  {
  }

  /** VRAM and sprite memory are the PPU's: reads return its bytes, writes
      store into it, and a non-zero byte written to sprite memory panics. */
  lemma PpuMemoryRouting(b: BusState, address: Address, value: Byte)
    requires b.Valid()
    ensures InRegion(address, Vram) ==> BusRead(b, address) == Some(P.VramRead(b.ppu, address))
    ensures InRegion(address, Vram) ==> BusWrite(b, address, value) == Some(b.(ppu := P.VramWrite(b.ppu, address, value)))
    ensures InRegion(address, SpriteMem) ==> BusRead(b, address) == Some(P.SpriteMemRead(b.ppu, address))
    ensures InRegion(address, SpriteMem) ==>
      BusWrite(b, address, value) == if value == 0 then Some(b.(ppu := P.SpriteMemWrite(b.ppu, address, value))) else None
  {
  }

  /** The switchable windows are the cartridge's: 4000..7FFF reads the
      selected ROM bank (or panics past the image), and A000..BFFF reads and
      writes the selected RAM bank. */
  lemma CartridgeWindows(b: BusState, address: Address, value: Byte)
    requires b.Valid()
    ensures SWITCH_ROM_BANK_START <= address < SWITCH_ROM_BANK_END && !ReadPanics(b, address) ==>
      BusRead(b, address) == Some(b.cartridge.rom[C.RomIndex(b.cartridge.romBankNr, address)])
    ensures SWITCH_RAM_BANK_START <= address < SWITCH_RAM_BANK_END ==>
      BusRead(b, address) == Some(b.cartridge.ramBank[C.RamIndex(b.cartridge.ramBankNr, address)])
    ensures SWITCH_RAM_BANK_START <= address < SWITCH_RAM_BANK_END ==>
      BusWrite(b, address, value) == Some(b.(cartridge := C.Write(b.cartridge, address, value).0))
  {
  }

  /** A read of an address outside sprite memory does not depend on sprite
      memory or the PPU's cycle count, so the DMA loop reads the same bytes
      whatever it has already copied. */
  lemma ReadIgnoresSpriteMem(b: BusState, sprites: seq<Byte>, cycles: int, address: Address)
    requires b.Valid() && |sprites| == SPRITE_MEM_LENGTH && !InRegion(address, SpriteMem)
    ensures BusRead(b.(ppu := b.ppu.(spriteMemory := sprites, cycles := cycles)), address) == BusRead(b, address)
  {
  }

  /** A DMA transfer copies byte i of sprite memory from address
      ((value << 2) mod 256) + i, which lies in the boot image while booting
      and in ROM bank 0 otherwise, and charges the PPU 200 cycles. */
  lemma DmaCopies(b: BusState, value: Byte, i: nat)
    requires b.Valid() && i < DMA_LENGTH && !DmaPanics(b, DmaSource(value))
    ensures BusWrite(b, DMA_ADDRESS, value) == Some(Dma(b, value))
    ensures var start := DmaSource(value);
      && Some(P.SpriteMemRead(Dma(b, value).ppu, SPRITE_MEM_START + i)) == BusRead(b, start + i)
      && BusRead(b, start + i) == Some(if b.booting && start + i <= 0xFF then b.boot[start + i]
                                       else b.cartridge.rom[start + i])
      && Dma(b, value).ppu.cycles == b.ppu.cycles + DMA_CYCLES
  {
  }

  /** Work RAM and high RAM, the memories a stack lives in. Echo RAM is
      left out: it aliases work RAM. */
  predicate IsRam(address: Address) {
    InRegion(address, InternalRam) || InRegion(address, InternalRam2)
  }

  /** A write to work or high RAM never panics, is read back, and leaves
      every other work or high RAM address as it was. */
  lemma RamWriteRead(b: BusState, address: Address, value: Byte, other: Address)
    requires b.Valid() && IsRam(address)
    ensures BusWrite(b, address, value).Some?
    ensures BusRead(BusWrite(b, address, value).value, address) == Some(value)
    ensures IsRam(other) && other != address ==>
      BusRead(BusWrite(b, address, value).value, other) == BusRead(b, other)
  {
  }

  // Interrupts.

  predicate Pending(flags: Byte, enable: Byte, i: nat) {
    CheckBit(flags, i) && CheckBit(enable, i)
  }

  /** The loop of get_interrupt from index i: the lowest index in i..4 whose
      bit is set in both IF and IE. */
  function FirstPending(flags: Byte, enable: Byte, i: nat): (r: Option<nat>)
    requires i <= 5
    decreases 5 - i
    ensures r.Some? ==> i <= r.value < 5 && Pending(flags, enable, r.value)
    ensures r.Some? ==> forall j :: i <= j < r.value ==> !Pending(flags, enable, j)
    ensures r.None? ==> forall j :: i <= j < 5 ==> !Pending(flags, enable, j)
  {
    if i == 5 then None
    else if Pending(flags, enable, i) then Some(i)
    else FirstPending(flags, enable, i + 1)
  }

  /** Interconnect::get_interrupt: the pending interrupt of highest priority,
      with its IF bit cleared as it is taken. */
  function TakeInterrupt(b: BusState): (r: (BusState, Option<Interrupt>))
  {
    match FirstPending(b.interruptFlag, b.interruptEnable, 0)
    case None => (b, None)
    case Some(i) => (b.(interruptFlag := ClearBit(b.interruptFlag, i)), Some(InterruptOf(i)))
  }

  /** get_interrupt yields the lowest i in 0..4 pending in both IF and IE
      and clears only that IF bit; it yields None, changing nothing, exactly
      when IF & IE & 0x1F == 0. */
  lemma TakeInterruptSpec(b: BusState, j: nat)
    requires j < 8
    ensures var (b', r) := TakeInterrupt(b);
      && (r.None? <==> And(And(b.interruptFlag, b.interruptEnable), 0x1F) == 0)
      && (r.None? ==> b' == b)
      && (r.Some? ==>
            && Pending(b.interruptFlag, b.interruptEnable, r.value.Index())
            && (forall k :: 0 <= k < r.value.Index() ==> !Pending(b.interruptFlag, b.interruptEnable, k))
            && b' == b.(interruptFlag := b'.interruptFlag)
            && CheckBit(b'.interruptFlag, j) == (j != r.value.Index() && CheckBit(b.interruptFlag, j)))
  {
    var (b', r) := TakeInterrupt(b);
    MaskedNone(b.interruptFlag, b.interruptEnable);
    if r.Some? {
      SetClearBits(b.interruptFlag, r.value.Index(), j);
    }
  }

  /** IF & IE & 0x1F is zero exactly when none of the five sources is
      pending. */
  lemma MaskedNone(flags: Byte, enable: Byte)
    ensures And(And(flags, enable), 0x1F) == 0 <==> forall j :: 0 <= j < 5 ==> !Pending(flags, enable, j)
  {
    var m := And(And(flags, enable), 0x1F);
    forall j | 0 <= j < 8
      ensures CheckBit(m, j) <==> j < 5 && Pending(flags, enable, j)
    {
      BitwiseBits(flags, enable, j);
      BitwiseBits(And(flags, enable), 0x1F, j);
      LowFiveBits(j);
    }
    ShrZero(0);
    if forall j :: 0 <= j < 5 ==> !Pending(flags, enable, j) {
      forall j | 0 <= j < 8
        ensures CheckBit(m, j) == CheckBit(0, j)
      {
        ShrZero(j);
      }
      BitsDetermineByte(m, 0);
    } else {
      var j :| 0 <= j < 5 && Pending(flags, enable, j);
      ShrZero(j);
      assert CheckBit(m, j);
    }
  }

  lemma LowFiveBits(j: nat)
    requires j < 8
    ensures CheckBit(0x1F, j) <==> j < 5
  {
    match j
    case 0 =>
    case 1 =>
    case 2 =>
    case 3 =>
    case 4 =>
    case 5 =>
    case 6 =>
    case 7 =>
  }

  /** Interconnect::get_button_interrupt: a pending joypad request in IF,
      whatever IE says, taken and cleared. */
  function TakeButtonInterrupt(b: BusState): (r: (BusState, Option<Interrupt>))
    ensures r.1.Some? <==> CheckBit(b.interruptFlag, 4)
    ensures r.1.Some? ==> r.1.value == JoypadInterrupt && !CheckBit(r.0.interruptFlag, 4)
    ensures r.0 == b.(interruptFlag := r.0.interruptFlag)
  {
    if CheckBit(b.interruptFlag, 4) then
      SetClearBits(b.interruptFlag, 4, 4);
      (b.(interruptFlag := ClearBit(b.interruptFlag, 4)), Some(JoypadInterrupt))
    else
      (b, None)
  }

  /** get_button_interrupt clears IF bit 4 and no other bit, and changes
      nothing when bit 4 is clear. */
  lemma TakeButtonInterruptBits(b: BusState, j: nat)
    requires j < 8
    ensures var (b', r) := TakeButtonInterrupt(b);
      && (r.None? ==> b' == b)
      && CheckBit(b'.interruptFlag, j) == (j != 4 && CheckBit(b.interruptFlag, j))
  {
    if CheckBit(b.interruptFlag, 4) {
      SetClearBits(b.interruptFlag, 4, j);
    }
  }

  /** Interconnect::update: one PPU update; on the vblank signal, request
      the VBlank interrupt, and the joypad interrupt too when the host
      reports a key (`joypadPressed` stands for `joypad.update`). */
  function BusUpdate(b: BusState, joypadPressed: bool): (r: BusState)
    requires b.Valid()
    ensures r.Valid()
  {
    var (p, vblank) := P.PpuUpdate(b.ppu);
    if vblank then
      var flags := Or(b.interruptFlag, 1);
      b.(ppu := p, interruptFlag := if joypadPressed then Or(flags, 0x10) else flags)
    else
      b.(ppu := p)
  }

  /** update sets IF bit 0 on the vblank signal, bit 4 as well when a key
      was reported, and changes no other IF bit and nothing outside the
      PPU and IF. */
  lemma UpdateRequestsInterrupts(b: BusState, joypadPressed: bool, j: nat)
    requires b.Valid() && j < 8
    ensures var r := BusUpdate(b, joypadPressed);
      var vblank := P.PpuUpdate(b.ppu).1;
      && r == b.(ppu := P.PpuUpdate(b.ppu).0, interruptFlag := r.interruptFlag)
      && (!vblank ==> r.interruptFlag == b.interruptFlag)
      && (vblank ==> CheckBit(r.interruptFlag, j)
                     == (j == 0 || (j == 4 && joypadPressed) || CheckBit(b.interruptFlag, j)))
  {
    var flags := Or(b.interruptFlag, 1);
    BitwiseBits(b.interruptFlag, 1, j);
    BitwiseBits(flags, 0x10, j);
    Pow2Bits(0, j);
    Pow2Bits(4, j);
    assert Pow2(4) == 0x10;
  }
}
