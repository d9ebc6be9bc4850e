/** The cartridge with its bank controller (src/cartridge.rs): a ROM image
    read through a fixed bank 0 and a switchable bank, and 16 banks of
    external RAM, of which the RAM-bank register selects one. */
module Cartridge {

  import opened Wrappers
  import opened MemoryMap
  import opened Utils

  datatype MemoryModel = Rom16MRam8K | Rom4MRam32K

  /** A half-open address range [start, end). */
  datatype Range = Range(start: Address, end: Address) {
    predicate Contains(address: Address) {
      start <= address < end
    }
  }

  predicate Disjoint(p: Range, q: Range) {
    p.end <= q.start || q.end <= p.start
  }

  /** The four bank-controller register ranges. The source names their
      constants (CHOOSE_MEMORY_MODE_*, ENABLE_RAM_BANK_*, CHOOSE_ROM_BANK_*,
      CHOOSE_RAM_BANK_*) without defining them, so they are parameters of the
      model: four pairwise disjoint ranges inside the ROM area 0x0000..0x8000. */
  datatype ControlRanges = ControlRanges(memoryMode: Range, enableRam: Range, romBank: Range, ramBank: Range) {
    predicate Valid() {
      && memoryMode.end <= SWITCH_ROM_BANK_END && enableRam.end <= SWITCH_ROM_BANK_END
      && romBank.end <= SWITCH_ROM_BANK_END && ramBank.end <= SWITCH_ROM_BANK_END
      && Disjoint(memoryMode, enableRam) && Disjoint(memoryMode, romBank) && Disjoint(memoryMode, ramBank)
      && Disjoint(enableRam, romBank) && Disjoint(enableRam, ramBank) && Disjoint(romBank, ramBank)
    }

    /** Whether a write to `address` is claimed by one of the four registers. */
    predicate Claims(address: Address) {
      memoryMode.Contains(address) || enableRam.Contains(address)
      || romBank.Contains(address) || ramBank.Contains(address)
    }
  }

  /** The external RAM: 16 banks of SWITCH_RAM_BANK_LENGTH bytes. */
  const RAM_SIZE: nat := 16 * 0x2000

  /** The cartridge as a value: the ROM image and control ranges never
      change; the bank registers and the RAM contents do. The image holds
      at least bank 0; a bank the switchable window selects may lie past
      its end, and reading it then panics (ReadPanics). */
  datatype State = State(
    rom: seq<Byte>,
    ranges: ControlRanges,
    romBankNr: Byte,
    ramBankNr: Byte,
    memoryModel: MemoryModel,
    ramBankWriteEnable: bool,
    ramBank: seq<Byte>)
  {
    ghost predicate Valid() {
      && |rom| >= ROM_BANK0_LENGTH && |ramBank| == RAM_SIZE && ranges.Valid()
      && romBankNr <= 31 && ramBankNr <= 3
    }
  }

  /** Cartridge::new: no RAM enabled, bank registers 0, all RAM zero. */
  function Init(rom: seq<Byte>, ranges: ControlRanges): (s: State)
    requires |rom| >= ROM_BANK0_LENGTH && ranges.Valid()
    ensures s.Valid()
    ensures s.romBankNr == 0 && s.ramBankNr == 0 && !s.ramBankWriteEnable
    ensures forall i :: 0 <= i < |s.ramBank| ==> s.ramBank[i] == 0
  {
    State(rom, ranges, 0, 0, Rom16MRam8K, false, seq(RAM_SIZE, _ => 0))
  }

  /** Index of a switchable-RAM address inside the 16-bank RAM. */
  function RamIndex(ramBankNr: Byte, address: Address): (i: nat)
    requires ramBankNr <= 3 && SWITCH_RAM_BANK_START <= address < SWITCH_RAM_BANK_END
    ensures i < 4 * 0x2000 <= RAM_SIZE
  {
    ramBankNr as int * SWITCH_RAM_BANK_LENGTH + (address - SWITCH_RAM_BANK_START)
  }

  /** Index of a switchable-ROM address: bank number 0 selects bank 1. */
  function RomIndex(romBankNr: Byte, address: Address): (i: nat)
    requires romBankNr <= 31 && SWITCH_ROM_BANK_START <= address < SWITCH_ROM_BANK_END
    ensures 0x4000 <= i < 32 * 0x4000
  {
    var bankNr := if romBankNr == 0 then 1 else romBankNr;
    bankNr as int * SWITCH_ROM_BANK_LENGTH + (address - SWITCH_ROM_BANK_START)
  }

  /** Cartridge::read_mem indexes `rom` past its end, and panics, exactly
      when the switchable window is read and the selected bank does not
      reach that far into the image. */
  predicate ReadPanics(s: State, address: Address)
    requires s.Valid()
  {
    SWITCH_ROM_BANK_START <= address < SWITCH_ROM_BANK_END && RomIndex(s.romBankNr, address) >= |s.rom|
  }

  /** Cartridge::read_mem: the cartridge answers for ROM and switchable RAM,
      and for nothing else. */
  function Read(s: State, address: Address): (r: Option<Byte>)
    requires s.Valid() && !ReadPanics(s, address)
    ensures r.Some? <==> address < SWITCH_ROM_BANK_END || SWITCH_RAM_BANK_START <= address < SWITCH_RAM_BANK_END
  {
    if ROM_BANK0_START <= address < ROM_BANK0_END then
      Some(s.rom[address - ROM_BANK0_START])
    else if SWITCH_ROM_BANK_START <= address < SWITCH_ROM_BANK_END then
      Some(s.rom[RomIndex(s.romBankNr, address)])
    else if SWITCH_RAM_BANK_START <= address < SWITCH_RAM_BANK_END then
      Some(s.ramBank[RamIndex(s.ramBankNr, address)])
    else
      None
  }

  /** Cartridge::write_mem: the new state and whether the write was claimed.
      The control ranges are tried first, then the RAM window; RAM writes do
      not consult the enable flag. */
  function Write(s: State, address: Address, value: Byte): (r: (State, bool))
    requires s.Valid()
    ensures r.0.Valid()
    ensures r.1 <==> s.ranges.Claims(address) || SWITCH_RAM_BANK_START <= address < SWITCH_RAM_BANK_END
    ensures r.0.rom == s.rom && r.0.ranges == s.ranges
  {
    if s.ranges.memoryMode.Contains(address) then
      var model := if And(value, 1) == 1 then Rom4MRam32K else Rom16MRam8K;
      (s.(memoryModel := model), true)
    else if s.ranges.enableRam.Contains(address) then
      (s.(ramBankWriteEnable := value == 0x0A), true)
    else if s.ranges.romBank.Contains(address) then
      var v := if value == 0 then 1 else value;
      (s.(romBankNr := And(v, 0x1F)), true)
    else if s.ranges.ramBank.Contains(address) then
      (s.(ramBankNr := And(value, 3)), true)
    else if SWITCH_RAM_BANK_START <= address < SWITCH_RAM_BANK_END then
      (s.(ramBank := s.ramBank[RamIndex(s.ramBankNr, address) := value]), true)
    else
      (s, false)
  }

  /** Reads of 0x0000..0x3FFF return the ROM byte at that address. */
  lemma ReadRomBank0(s: State, address: Address)
    requires s.Valid() && address < ROM_BANK0_END
    ensures Read(s, address) == Some(s.rom[address])
  {
  }

  /** Reads of 0x4000..0x7FFF index bank `romBankNr`, and bank 0 reads as bank 1. */
  lemma ReadSwitchRomBank(s: State, address: Address)
    requires s.Valid() && SWITCH_ROM_BANK_START <= address < SWITCH_ROM_BANK_END && !ReadPanics(s, address)
    ensures s.romBankNr != 0 ==> Read(s, address) == Some(s.rom[s.romBankNr as int * 0x4000 + (address - 0x4000)])
    ensures s.romBankNr == 0 ==> Read(s, address) == Some(s.rom[0x4000 + (address - 0x4000)])
  {
  }

  /** Only a switchable-ROM read can panic, and it panics exactly when the
      selected bank (bank 0 counting as bank 1) ends past the image at that
      offset. An image of whole banks either holds the selected bank, and no
      read of the window panics, or does not, and every one does. */
  lemma ReadPanicsExactly(s: State, address: Address)
    requires s.Valid()
    ensures !(SWITCH_ROM_BANK_START <= address < SWITCH_ROM_BANK_END) ==> !ReadPanics(s, address)
    ensures SWITCH_ROM_BANK_START <= address < SWITCH_ROM_BANK_END ==>
      var bank := if s.romBankNr == 0 then 1 else s.romBankNr as int;
      (ReadPanics(s, address) <==> |s.rom| <= bank * 0x4000 + (address - 0x4000))
    ensures |s.rom| % 0x4000 == 0 && SWITCH_ROM_BANK_START <= address < SWITCH_ROM_BANK_END ==>
      var bank := if s.romBankNr == 0 then 1 else s.romBankNr as int;
      (ReadPanics(s, address) <==> |s.rom| / 0x4000 <= bank)
  {
    if |s.rom| % 0x4000 == 0 && SWITCH_ROM_BANK_START <= address < SWITCH_ROM_BANK_END {
      var bank := if s.romBankNr == 0 then 1 else s.romBankNr as int;
      var k := |s.rom| / 0x4000;
      assert |s.rom| == k * 0x4000;
      if k <= bank {
        assert |s.rom| <= bank * 0x4000;
      } else {
        assert (bank + 1) * 0x4000 <= |s.rom|;
      }
    }
  }

  /** A 32 KiB image, the size of a cartridge without a bank controller,
      reads its second bank while the register holds 0 or 1 and panics on
      a switchable-ROM read for any other bank; an image of 32 banks never
      panics. */
  lemma ImageSizes(s: State, address: Address)
    requires s.Valid() && SWITCH_ROM_BANK_START <= address < SWITCH_ROM_BANK_END
    ensures |s.rom| == 2 * 0x4000 ==> (ReadPanics(s, address) <==> s.romBankNr >= 2)
    ensures |s.rom| >= 32 * 0x4000 ==> !ReadPanics(s, address)
  {
    ReadPanicsExactly(s, address);
  }

  /** A RAM write is read back at the same address while the RAM bank is
      unchanged, whether or not RAM was enabled. */
  lemma WriteThenReadRam(s: State, address: Address, value: Byte)
    requires s.Valid() && SWITCH_RAM_BANK_START <= address < SWITCH_RAM_BANK_END
    ensures Write(s, address, value).1
    ensures Read(Write(s, address, value).0, address) == Some(value)
  {
  }

  /** A RAM write leaves every other RAM address as it was. */
  lemma WriteRamFrame(s: State, address: Address, other: Address, value: Byte)
    requires s.Valid() && SWITCH_RAM_BANK_START <= address < SWITCH_RAM_BANK_END
    requires SWITCH_RAM_BANK_START <= other < SWITCH_RAM_BANK_END && other != address
    ensures Read(Write(s, address, value).0, other) == Read(s, other)
  {
  }

  /** A ROM-bank select maps 0 to 1, then keeps the low five bits (value % 32), so 0x20
      selects bank 0 (which reads as bank 1) and the register stays <= 31. */
  lemma RomBankSelect(s: State, address: Address, value: Byte)
    requires s.Valid() && s.ranges.romBank.Contains(address)
    ensures Write(s, address, value).0 == s.(romBankNr := if value == 0 then 1 else value % 32)
    ensures Write(s, address, 0x20).0.romBankNr == 0
  {
    LowMasks(value);
    LowMasks(0x20);
  }

  /** A RAM-bank select keeps the low two bits of the value (value % 4). */
  lemma RamBankSelect(s: State, address: Address, value: Byte)
    requires s.Valid() && s.ranges.ramBank.Contains(address)
    ensures Write(s, address, value).0 == s.(ramBankNr := value % 4)
  {
    LowMasks(value);
  }

  /** RAM is enabled iff 0x0A is written; the memory model follows bit 0 (value % 2). */
  lemma EnableAndModelSelect(s: State, address: Address, value: Byte)
    requires s.Valid()
    ensures s.ranges.enableRam.Contains(address) ==>
      Write(s, address, value).0 == s.(ramBankWriteEnable := value == 0x0A)
    ensures s.ranges.memoryMode.Contains(address) ==>
      Write(s, address, value).0.memoryModel == (if value % 2 == 1 then Rom4MRam32K else Rom16MRam8K)
  {
    LowMasks(value);
  }

  /** Outside its ranges a write is refused and changes nothing. */
  lemma WriteUnclaimed(s: State, address: Address, value: Byte)
    requires s.Valid() && !s.ranges.Claims(address)
    requires !(SWITCH_RAM_BANK_START <= address < SWITCH_RAM_BANK_END)
    ensures Write(s, address, value) == (s, false)
  {
  }

  /** Writing into the ROM area never changes what the RAM holds. */
  lemma ControlWriteKeepsRam(s: State, address: Address, value: Byte)
    requires s.Valid() && address < SWITCH_ROM_BANK_END
    ensures Write(s, address, value).0.ramBank == s.ramBank
  {
  }

  /** The cartridge object: `rom` is never written, `ram_bank` is a buffer
      updated in place. */
  class Cartridge {
    const rom: seq<Byte>
    const ranges: ControlRanges
    const ramBank: array<Byte>
    var romBankNr: Byte
    var ramBankNr: Byte
    var memoryModel: MemoryModel
    var ramBankWriteEnable: bool

    function View(): State
      reads this, ramBank
    {
      State(rom, ranges, romBankNr, ramBankNr, memoryModel, ramBankWriteEnable, ramBank[..])
    }

    ghost predicate Valid()
      reads this, ramBank
    {
      View().Valid()
    }

    constructor(rom: seq<Byte>, ranges: ControlRanges)
      requires |rom| >= ROM_BANK0_LENGTH && ranges.Valid()
      ensures Valid() && fresh(ramBank)
      ensures View() == Init(rom, ranges)
    {
      this.rom := rom;
      this.ranges := ranges;
      ramBank := new Byte[RAM_SIZE](_ => 0);
      romBankNr := 0;
      ramBankNr := 0;
      memoryModel := Rom16MRam8K;
      ramBankWriteEnable := false;
    }

    method ReadMem(address: Address) returns (r: Option<Byte>)
      requires Valid() && !ReadPanics(View(), address)
      ensures r == Read(View(), address)
    {
      if ROM_BANK0_START <= address < ROM_BANK0_END {
        r := Some(rom[address - ROM_BANK0_START]);
      } else if SWITCH_ROM_BANK_START <= address < SWITCH_ROM_BANK_END {
        r := Some(rom[RomIndex(romBankNr, address)]);
      } else if SWITCH_RAM_BANK_START <= address < SWITCH_RAM_BANK_END {
        r := Some(ramBank[RamIndex(ramBankNr, address)]);
      } else {
        r := None;
      }
    }

    method WriteMem(address: Address, value: Byte) returns (handled: bool)
      requires Valid()
      modifies this, ramBank
      ensures Valid()
      ensures (View(), handled) == Write(old(View()), address, value)
    {
      handled := true;
      if ranges.memoryMode.Contains(address) {
        if And(value, 1) == 1 {
          memoryModel := Rom4MRam32K;
        } else {
          memoryModel := Rom16MRam8K;
        }
      } else if ranges.enableRam.Contains(address) {
        ramBankWriteEnable := value == 0x0A;
      } else if ranges.romBank.Contains(address) {
        var v := if value == 0 then 1 else value;
        v := And(v, 0x1F);
        romBankNr := v;
      } else if ranges.ramBank.Contains(address) {
        ramBankNr := And(value, 3);
      } else if SWITCH_RAM_BANK_START <= address < SWITCH_RAM_BANK_END {
        ramBank[RamIndex(ramBankNr, address)] := value;
      } else {
        handled := false;
      }
    }
  }
}
