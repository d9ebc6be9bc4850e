/** The interconnect object of src/interconnect.rs: it owns the cartridge,
    the two work RAMs, the PPU, the sound registers, the timer, the joypad,
    IF, IE and the boot flag, and routes every CPU access. Each method is
    proved to do what the corresponding function of module Bus says. */
module Interconnect {

  import opened Wrappers
  import opened MemoryMap
  import opened Utils
  import opened Bus
  import C = Cartridge
  import P = Ppu
  import S = SoundSubsystem
  import T = Timer
  import J = Joypad

  class Interconnect {
    const boot: seq<Byte>
    const cartridge: C.Cartridge
    const internalRam2: array<Byte>
    const internalRam: array<Byte>
    const ppu: P.Ppu
    const sound: S.SoundSubsystem
    const timer: T.Timer
    const joypad: J.Joypad
    var interruptFlag: Byte
    var interruptEnable: Byte
    var booting: bool

    /** The components' own invariants, memories of their fixed sizes, and
        no two of the five byte buffers shared. */
    ghost predicate Valid()
      reads this, cartridge, cartridge.ramBank, ppu
    {
      && cartridge.Valid() && ppu.Valid()
      && internalRam.Length == INTERNAL_RAM_LENGTH && internalRam2.Length == INTERNAL_RAM2_LENGTH
      && internalRam != internalRam2
      && internalRam != cartridge.ramBank && internalRam2 != cartridge.ramBank
      && internalRam != ppu.vram && internalRam2 != ppu.vram
      && internalRam != ppu.spriteMemory && internalRam2 != ppu.spriteMemory
      && cartridge.ramBank != ppu.vram && cartridge.ramBank != ppu.spriteMemory
    }

    /** Every object the interconnect owns, which a CPU access may change. */
    ghost function Repr(): set<object> {
      {this, cartridge, cartridge.ramBank, internalRam, internalRam2, ppu, ppu.vram, ppu.spriteMemory, sound, timer, joypad}
    }

    /** The whole bus as a value. */
    function View(): BusState
      reads this, cartridge, cartridge.ramBank, internalRam, internalRam2
      reads ppu, ppu.vram, ppu.spriteMemory, sound, timer, joypad
    {
      BusState(boot, cartridge.View(), internalRam2[..], internalRam[..], ppu.View(),
               sound.View(), timer.NR11, joypad.keys, interruptFlag, interruptEnable, booting)
    }

    /** Interconnect::new: the given boot image and cartridge, zeroed RAMs,
        fresh peripherals, IF = IE = 0, booting. */
    constructor(boot: seq<Byte>, cartridge: C.Cartridge)
      requires cartridge.Valid()
      ensures Valid()
      ensures View() == Bus.Init(boot, old(cartridge.View()))
    {
      this.boot := boot;
      this.cartridge := cartridge;
      internalRam2 := new Byte[INTERNAL_RAM2_LENGTH](_ => 0);
      internalRam := new Byte[INTERNAL_RAM_LENGTH](_ => 0);
      ppu := new P.Ppu();
      sound := new S.SoundSubsystem();
      timer := new T.Timer();
      joypad := new J.Joypad();
      interruptFlag := 0;
      interruptEnable := 0;
      booting := true;
    }

    /** Interconnect::read_mem, where the cartridge does not panic. */
    method ReadMem(address: Address) returns (r: Byte)
      requires Valid() && !ReadPanics(View(), address)
      ensures Some(r) == BusRead(View(), address)
    {
      if booting && address <= 0xFF {
        return boot[address];
      }
      var fromCartridge := cartridge.ReadMem(address);
      if fromCartridge.Some? {
        return fromCartridge.value;
      }
      if InRegion(address, Vram) {
        r := ppu.ReadVram(address);
      } else if InRegion(address, IoPorts) {
        r := IoPortRead(address);
      } else if InRegion(address, InternalRam) {
        r := internalRam[address - INTERNAL_RAM_START];
      } else if InRegion(address, EchoRam) {
        r := internalRam[address - ECHO_RAM_START];
      } else if InRegion(address, InternalRam2) {
        r := internalRam2[address - INTERNAL_RAM2_START];
      } else if InRegion(address, SpriteMem) {
        r := ppu.ReadSpriteMem(address);
      } else if address == INTERRUPT_REGISTER {
        r := interruptEnable;
      } else {
        r := 0xFF;
      }
    }

    method IoPortRead(address: Address) returns (r: Byte)
      ensures r == IoRead(View(), address)
    {
      if address == DMA_ADDRESS {
        return 0xFF;
      }
      var res := ppu.Read(address);
      if res.Some? {
        return res.value;
      }
      res := sound.Read(address);
      if res.Some? {
        return res.value;
      }
      res := timer.Read(address);
      if res.Some? {
        return res.value;
      }
      res := joypad.Read(address);
      if res.Some? {
        return res.value;
      }
      if address == INTERRUPT_FLAG_ADDRESS {
        r := interruptFlag;
      } else {
        r := 0xFF;
      }
    }

    method WriteMem(address: Address, value: Byte)
      requires Valid() && !WritePanics(View(), address, value)
      modifies this, cartridge, cartridge.ramBank, internalRam, internalRam2
      modifies ppu, ppu.vram, ppu.spriteMemory, sound, joypad
      ensures Valid()
      ensures View() == BusWrite(old(View()), address, value).value
    {
      var handled := cartridge.WriteMem(address, value);
      if !handled {
        RouteWrite(address, value);
      }
    }

    /** The `match` of write_mem, for writes the cartridge did not claim. */
    method RouteWrite(address: Address, value: Byte)
      requires Valid() && RegionWrite(View(), address, value).Some?
      modifies this, internalRam, internalRam2, ppu, ppu.vram, ppu.spriteMemory, sound, joypad
      ensures Valid()
      ensures View() == RegionWrite(old(View()), address, value).value
    {
      if address == BOOT_OFF_ADDRESS {
        booting := false;
      } else if InRegion(address, Vram) {
        ppu.WriteVram(address, value);
      } else if InRegion(address, IoPorts) {
        IoPortWrite(address, value);
      } else if InRegion(address, InternalRam) {
        internalRam[address - INTERNAL_RAM_START] := value;
        RamChanged();
      } else if InRegion(address, EchoRam) {
        internalRam[address - ECHO_RAM_START] := value;
        RamChanged();
      } else if InRegion(address, InternalRam2) {
        internalRam2[address - INTERNAL_RAM2_START] := value;
        RamChanged();
      } else if InRegion(address, SpriteMem) {
        ppu.WriteSpriteMem(address, value);
      } else if address == INTERRUPT_REGISTER {
        interruptEnable := value;
      }
    }

    method IoPortWrite(address: Address, value: Byte)
      requires Valid() && (address == DMA_ADDRESS ==> !DmaPanics(View(), DmaSource(value)))
      modifies this, ppu, ppu.spriteMemory, sound, joypad
      ensures Valid()
      ensures View() == IoWrite(old(View()), address, value)
    {
      if address == DMA_ADDRESS {
        Dma(value);
        return;
      }
      var handled := ppu.Write(address, value);
      if handled {
        return;
      }
      handled := sound.Write(address, value);
      if handled {
        return;
      }
      handled := timer.Write(address, value);
      if handled {
        return;
      }
      handled := joypad.Write(address, value);
      if handled {
        return;
      }
      if address == INTERRUPT_FLAG_ADDRESS {
        interruptFlag := value;
      }
    }

    /** The DMA branch of io_port_write: 0xA0 bytes read through the bus
        from `value << 2` (in u8) into sprite memory, then 200 PPU cycles. */
    method Dma(value: Byte)
      requires Valid() && !DmaPanics(View(), DmaSource(value))
      modifies ppu, ppu.spriteMemory
      ensures Valid()
      ensures View() == Bus.Dma(old(View()), value)
    {
      CopyToSpriteMem(DmaSource(value));
      ppu.AddCycles(DMA_CYCLES);
      DmaFinished(value);
    }

    /** The copy loop of the DMA branch: sprite byte i takes the bus byte at
        start + i, and nothing else changes. */
    method CopyToSpriteMem(start: Byte)
      requires Valid() && !DmaPanics(View(), start)
      modifies ppu.spriteMemory
      ensures unchanged(this, cartridge, cartridge.ramBank, internalRam, internalRam2)
      ensures unchanged(ppu, ppu.vram, sound, timer, joypad)
      ensures ppu.spriteMemory[..] == DmaBytes(old(View()), start)
    {
      ghost var copy := DmaBytes(old(View()), start);
      for i := 0 to DMA_LENGTH
        invariant unchanged(this, cartridge, cartridge.ramBank, internalRam, internalRam2)
        invariant unchanged(ppu, ppu.vram, sound, timer, joypad)
        invariant ppu.spriteMemory[..] == copy[..i] + old(ppu.spriteMemory[..])[i..]
      {
        OnlySpriteMemChanged();
        ReadIgnoresSpriteMem(old(View()), ppu.spriteMemory[..], old(ppu.cycles), start + i);
        var v := ReadMem(start + i);
        ppu.WriteSpriteMem(SPRITE_MEM_START + i, v);
        SplicePrefix(copy, old(ppu.spriteMemory[..]), i, v);
      }
      WholePrefix(copy, old(ppu.spriteMemory[..]));
    }

    /** While only sprite memory has been written, the bus differs from
        what it was only there. */
    twostate lemma OnlySpriteMemChanged()
      requires old(Valid())
      requires unchanged(this, cartridge, cartridge.ramBank, internalRam, internalRam2)
      requires unchanged(ppu, ppu.vram, sound, timer, joypad)
      ensures Valid()
      ensures View() == old(View()).(ppu := old(View()).ppu.(spriteMemory := ppu.spriteMemory[..]))
    {
    }

    /** While only the two work RAMs have been written, the bus differs from
        what it was only there. */
    twostate lemma RamChanged()
      requires old(Valid())
      requires unchanged(this, cartridge, cartridge.ramBank, ppu, ppu.vram, ppu.spriteMemory)
      requires unchanged(sound, timer, joypad)
      ensures Valid()
      ensures View() == old(View()).(internalRam := internalRam[..], internalRam2 := internalRam2[..])
    {
    }

    /** Once sprite memory holds the copy and the PPU has been charged, the
        bus is what Bus.Dma describes. */
    twostate lemma DmaFinished(value: Byte)
      requires old(Valid()) && !DmaPanics(old(View()), DmaSource(value))
      requires unchanged(this, cartridge, cartridge.ramBank, internalRam, internalRam2)
      requires unchanged(ppu.vram, sound, timer, joypad)
      requires ppu.View() == P.PpuAddCycles(old(ppu.View()).(spriteMemory := DmaBytes(old(View()), DmaSource(value))), DMA_CYCLES)
      ensures Valid()
      ensures View() == Bus.Dma(old(View()), value)
    {
    }

    /** Interconnect::get_interrupt: scans sources 0..4 and takes the first
        one pending in both IF and IE. */
    method GetInterrupt() returns (r: Option<Interrupt>)
      requires Valid()
      modifies this
      ensures Valid() && (View(), r) == TakeInterrupt(old(View()))
    {
      for i := 0 to 5
        invariant interruptFlag == old(interruptFlag)
        invariant FirstPending(interruptFlag, interruptEnable, 0) == FirstPending(interruptFlag, interruptEnable, i)
      {
        if CheckBit(interruptFlag, i) && CheckBit(interruptEnable, i) {
          interruptFlag := ClearBit(interruptFlag, i);
          return Some(InterruptOf(i));
        }
      }
      return None;
    }

    method GetButtonInterrupt() returns (r: Option<Interrupt>)
      modifies this
      ensures (View(), r) == TakeButtonInterrupt(old(View()))
    {
      if CheckBit(interruptFlag, 4) {
        interruptFlag := ClearBit(interruptFlag, 4);
        r := Some(JoypadInterrupt);
      } else {
        r := None;
      }
    }

    /** Interconnect::update; `joypadPressed` is what `joypad.update` reports
        from the host window. */
    method Update(joypadPressed: bool)
      requires Valid()
      modifies this, ppu
      ensures Valid()
      ensures View() == BusUpdate(old(View()), joypadPressed)
    {
      var vblank := ppu.Update();
      if vblank {
        interruptFlag := Or(interruptFlag, 1);
        if joypadPressed {
          interruptFlag := Or(interruptFlag, 0x10);
        }
      }
    }
  }
}
