/** The picture processing unit's register file, its mode/LY state machine,
    its two memories and the pure decoders of its control and status
    registers (src/ppu.rs). Drawing into the frame buffer is not modelled. */
module Ppu {

  import opened Wrappers
  import opened MemoryMap
  import opened Utils

  /** The four phases of a scan line, in the order `update` visits them. */
  datatype PpuMode = OAMSearch | PixelTransfer | HBlank | VBlank

  datatype Color = White | LightGray | DarkGray | Black

  /** Everything `Ppu` holds apart from the host window and frame buffers.
      `cycles` is the countdown until the next mode change. */
  datatype PpuState = PpuState(
    LCD_control: Byte, LCDC_status: Byte, scy: Byte, scx: Byte, ly: Byte, lyc: Byte,
    bgp: Byte, obp0: Byte, obp1: Byte, wy: Byte, wx: Byte,
    vram: seq<Byte>, spriteMemory: seq<Byte>,
    cycles: int, mode: PpuMode)
  {
    predicate Valid() {
      |vram| == VRAM_LENGTH && |spriteMemory| == SPRITE_MEM_LENGTH
    }
  }

  const LY_ADDRESS: Address := 0xFF44
  const LCD_CONTROL_AT_RESET: Byte := 0x91

  /** Ppu::new: LCD_control 0x91, every other register and both memories 0,
      no pending cycles, searching OAM. */
  const PPU_AT_RESET := PpuState(
    LCD_CONTROL_AT_RESET, 0, 0, 0, 0, 0, 0, 0, 0, 0, 0,
    seq(VRAM_LENGTH, _ => 0), seq(SPRITE_MEM_LENGTH, _ => 0),
    0, OAMSearch)

  /** The registers of FF40..FF4B that the PPU answers; FF46 (DMA) is not. */
  predicate IsPpuRegister(address: Address) {
    (0xFF40 <= address <= 0xFF45) || (0xFF47 <= address <= 0xFF4B)
  }

  /** Ppu::read. */
  function PpuRead(p: PpuState, address: Address): (r: Option<Byte>)
    ensures r.Some? <==> IsPpuRegister(address)
    ensures address == LY_ADDRESS ==> r == Some(p.ly)
  {
    match address
    case 0xFF40 => Some(p.LCD_control)
    case 0xFF41 => Some(p.LCDC_status)
    case 0xFF42 => Some(p.scy)
    case 0xFF43 => Some(p.scx)
    case 0xFF44 => Some(p.ly)
    case 0xFF45 => Some(p.lyc)
    case 0xFF47 => Some(p.bgp)
    case 0xFF48 => Some(p.obp0)
    case 0xFF49 => Some(p.obp1)
    case 0xFF4A => Some(p.wy)
    case 0xFF4B => Some(p.wx)
    case _ => None
  }

  /** Ppu::write. A write to LY ignores the value, sets ly to 154 and enters
      VBlank; the flag says whether the address was a PPU register. */
  function PpuWrite(p: PpuState, address: Address, value: Byte): (r: (PpuState, bool))
    ensures r.1 <==> IsPpuRegister(address)
    ensures !r.1 ==> r.0 == p
    ensures address == LY_ADDRESS ==> r.0 == p.(ly := 154, mode := VBlank)
    ensures address != LY_ADDRESS ==> r.0.ly == p.ly && r.0.mode == p.mode
    ensures r.0.vram == p.vram && r.0.spriteMemory == p.spriteMemory && r.0.cycles == p.cycles
  {
    match address
    case 0xFF40 => (p.(LCD_control := value), true)
    case 0xFF41 => (p.(LCDC_status := value), true)
    case 0xFF42 => (p.(scy := value), true)
    case 0xFF43 => (p.(scx := value), true)
    case 0xFF44 => (p.(ly := 154, mode := VBlank), true)
    case 0xFF45 => (p.(lyc := value), true)
    case 0xFF47 => (p.(bgp := value), true)
    case 0xFF48 => (p.(obp0 := value), true)
    case 0xFF49 => (p.(obp1 := value), true)
    case 0xFF4A => (p.(wy := value), true)
    case 0xFF4B => (p.(wx := value), true)
    case _ => (p, false)
  }

  /** Every PPU register except LY reads back the last value written to it;
      LY reads 154 after any write. */
  lemma PpuWriteThenRead(p: PpuState, address: Address, value: Byte)
    requires IsPpuRegister(address)
    ensures PpuRead(PpuWrite(p, address, value).0, address)
            == Some(if address == LY_ADDRESS then 154 else value)
  {
  }

  /** The number the STAT mode field holds in each mode: 2, 3, 0 and 1. */
  function ModeBits(m: PpuMode): (r: Byte)
    ensures r < 4
  {
    match m
    case HBlank => 0
    case VBlank => 1
    case OAMSearch => 2
    case PixelTransfer => 3
  }

  /** `status &= !0b11; status |= bits`: the mode field replaced. */
  function WithModeBits(status: Byte, bits: Byte): Byte
    requires bits < 4
  {
    Or(And(status, Not(3)), bits)
  }

  /** Ppu::update: counts down `cycles`; at zero moves to the next mode,
      reloads the countdown and advances ly (a `u8`, taken to wrap at 256).
      The flag is the vblank signal. */
  function PpuUpdate(p: PpuState): (r: (PpuState, bool))
  {
    if p.cycles > 0 then
      (p.(cycles := p.cycles - 1), false)
    else
      match p.mode
      case OAMSearch =>
        (p.(cycles := 20, mode := PixelTransfer, LCDC_status := Or(p.LCDC_status, 3)), false)
      case PixelTransfer =>
        (p.(cycles := 43, mode := HBlank, LCDC_status := And(p.LCDC_status, Not(3))), false)
      case HBlank =>
        var ly := (p.ly + 1) % 0x100;
        if ly == 144 then
          (p.(cycles := 51, ly := ly, mode := VBlank,
              LCDC_status := WithModeBits(p.LCDC_status, 1)), false)
        else
          (p.(cycles := 51, ly := ly, mode := OAMSearch,
              LCDC_status := WithModeBits(p.LCDC_status, 2)), false)
      case VBlank =>
        var ly := (p.ly + 1) % 0x100;
        if ly == 154 then
          (p.(cycles := 114, ly := 0, mode := OAMSearch,
              LCDC_status := WithModeBits(p.LCDC_status, 2)), false)
        else
          (p.(cycles := 114, ly := ly), ly == 145)
  }

  /** While cycles remain, update only counts down. */
  lemma UpdateWhileBusy(p: PpuState)
    requires p.cycles > 0
    ensures PpuUpdate(p) == (p.(cycles := p.cycles - 1), false)
  {
  }

  /** The mode transitions and the countdown each one loads. */
  lemma UpdateTransitions(p: PpuState)
    requires p.cycles <= 0
    ensures var q := PpuUpdate(p).0;
      && (p.mode == OAMSearch ==> q.mode == PixelTransfer && q.cycles == 20 && q.ly == p.ly)
      && (p.mode == PixelTransfer ==> q.mode == HBlank && q.cycles == 43 && q.ly == p.ly)
      && (p.mode == HBlank ==> (q.cycles == 51 && q.ly == (p.ly + 1) % 0x100
            && (q.mode == VBlank <==> p.ly == 143)
            && (q.mode != VBlank ==> q.mode == OAMSearch)))
      && (p.mode == VBlank ==> (q.cycles == 114
            && (p.ly == 153 ==> q.ly == 0 && q.mode == OAMSearch)
            && (p.ly != 153 ==> q.ly == (p.ly + 1) % 0x100 && q.mode == VBlank)))
  {
  }

  /** `update` changes nothing but the countdown, the mode, ly and
      LCDC_status; it returns true exactly when it moves ly from 144 to 145
      in VBlank. */
  lemma UpdateSignal(p: PpuState)
    ensures var (q, vblank) := PpuUpdate(p);
      && q == p.(cycles := q.cycles, mode := q.mode, ly := q.ly, LCDC_status := q.LCDC_status)
      && (vblank <==> p.cycles <= 0 && p.mode == VBlank && p.ly == 144)
      && (vblank ==> q.ly == 145)
  {
  }

  lemma StatusMaskBits(j: nat)
    requires j < 8
    ensures CheckBit(3, j) <==> j < 2
    ensures CheckBit(Not(3), j) <==> j >= 2
  {
    NotBits(3, j);
    match j
    case 0 =>
    case 1 =>
    case 2 =>
    case 3 =>
    case 4 =>
    case 5 =>
    case 6 =>
    case 7 =>
  }

  lemma SmallBits(x: Byte, j: nat)
    requires x < 4 && 2 <= j
    ensures !CheckBit(x, j)
  {
    ShrDivides(x);
    ShrOfZeroFrom(x, 2, j);
  }

  lemma {:induction false} ShrOfZeroFrom(x: nat, k: nat, j: nat)
    requires Shr(x, k) == 0 && k <= j
    ensures Shr(x, j) == 0
  {
    if k < j {
      ShrOfZeroFrom(x, k, j - 1);
      ShrStep(x, j - 1);
    }
  }

  lemma {:induction false} ShrStep(x: nat, j: nat)
    ensures Shr(x, j + 1) == Shr(x, j) / 2
  {
    if j > 0 {
      ShrStep(x / 2, j - 1);
    }
  }

  /** Replacing the mode field puts `bits` into bits 0-1 and keeps bits
      2..7. */
  lemma {:induction false} WithModeBitsBits(status: Byte, bits: Byte, j: nat)
    requires bits < 4 && j < 8
    ensures CheckBit(WithModeBits(status, bits), j) == if j < 2 then CheckBit(bits, j) else CheckBit(status, j)
  {
    StatusMaskBits(j);
    BitwiseBits(status, Not(3), j);
    BitwiseBits(And(status, Not(3)), bits, j);
    if j >= 2 {
      SmallBits(bits, j);
    }
  }

  /** `update` touches only the mode field (bits 0-1) of LCDC_status; when
      it enters a new mode that field names it, and otherwise the status is
      unchanged. */
  lemma UpdateStatusBits(p: PpuState, j: nat)
    requires j < 8
    ensures var q := PpuUpdate(p).0;
      && (2 <= j ==> CheckBit(q.LCDC_status, j) == CheckBit(p.LCDC_status, j))
      && (q.mode != p.mode && j < 2 ==> CheckBit(q.LCDC_status, j) == CheckBit(ModeBits(q.mode), j))
      && (q.mode == p.mode ==> q.LCDC_status == p.LCDC_status)
  {
    var q := PpuUpdate(p).0;
    if p.cycles <= 0 {
      StatusMaskBits(j);
      if p.mode == OAMSearch {
        BitwiseBits(p.LCDC_status, 3, j);
        if j < 2 {
          assert ModeBits(q.mode) == 3;
        }
      } else if p.mode == PixelTransfer {
        BitwiseBits(p.LCDC_status, Not(3), j);
        if j < 2 {
          assert ModeBits(q.mode) == 0;
        }
      } else if p.mode == HBlank || (p.mode == VBlank && q.mode != p.mode) {
        WithModeBitsBits(p.LCDC_status, ModeBits(q.mode), j);
      }
    }
  }

  /** The range of ly that the state machine keeps on its own: 0..143
      outside VBlank and 144..153 inside it. */
  predicate LyInRange(p: PpuState) {
    if p.mode == VBlank then 144 <= p.ly <= 153 else p.ly < 144
  }

  /** From reset, `update` keeps ly within 0..153 and consistent with the
      mode. */
  lemma UpdateKeepsLyInRange(p: PpuState)
    requires LyInRange(p)
    ensures LyInRange(PpuUpdate(p).0)
  {
  }

  /** Register writes other than LY leave the line counter and the mode
      alone, so they keep ly in range too. */
  lemma WriteKeepsLyInRange(p: PpuState, address: Address, value: Byte)
    requires LyInRange(p) && address != LY_ADDRESS
    ensures LyInRange(PpuWrite(p, address, value).0)
  {
  }

  lemma ResetLyInRange()
    ensures LyInRange(PPU_AT_RESET) && PPU_AT_RESET.Valid()
  {
  }

  /** Writing LY sets 154 inside VBlank, which the wrap test `ly == 154`
      has already missed: the next line update counts on to 155. */
  lemma LyWriteCountsPast154(p: PpuState, value: Byte)
    requires p.cycles <= 0
    ensures var q := PpuWrite(p, LY_ADDRESS, value).0;
      !LyInRange(q) && PpuUpdate(q).0.ly == 155 && PpuUpdate(q).0.mode == VBlank
  {
  }

  /** Ppu::turn_lcd_off through disable_lcd: `LCD_control &= !(1 << 7)`. */
  function PpuTurnLcdOff(p: PpuState): (r: PpuState)
    ensures r == p.(LCD_control := r.LCD_control)
    ensures !CheckBit(r.LCD_control, 7)
    ensures forall j :: 0 <= j < 7 ==> CheckBit(r.LCD_control, j) == CheckBit(p.LCD_control, j)
  {
    ClearBitKeepsOthers(p.LCD_control, 7);
    p.(LCD_control := ClearBit(p.LCD_control, 7))
  }

  /** Ppu::add_cycles. */
  function PpuAddCycles(p: PpuState, c: int): (r: PpuState)
    ensures r.cycles - p.cycles == c && r == p.(cycles := r.cycles)
  {
    p.(cycles := p.cycles + c)
  }

  /** Ppu::read_vram: the byte at address - 0x8000. */
  function VramRead(p: PpuState, address: Address): (r: Byte)
    requires p.Valid() && InRegion(address, Vram)
  {
    p.vram[address - VRAM_START]
  }

  /** Ppu::write_vram: stores the byte at address - 0x8000 (the redraw of a
      background tile it then triggers is not modelled). */
  function VramWrite(p: PpuState, address: Address, value: Byte): (r: PpuState)
    requires p.Valid() && InRegion(address, Vram)
    ensures r.Valid()
    ensures r == p.(vram := r.vram)
  {
    p.(vram := p.vram[address - VRAM_START := value])
  }

  /** Ppu::read_sprite_mem: the byte at address - 0xFE00. */
  function SpriteMemRead(p: PpuState, address: Address): (r: Byte)
    requires p.Valid() && InRegion(address, SpriteMem)
  {
    p.spriteMemory[address - SPRITE_MEM_START]
  }

  /** Ppu::write_sprite_mem: stores the byte at address - 0xFE00. */
  function SpriteMemWrite(p: PpuState, address: Address, value: Byte): (r: PpuState)
    requires p.Valid() && InRegion(address, SpriteMem)
    ensures r.Valid()
    ensures r == p.(spriteMemory := r.spriteMemory)
  {
    p.(spriteMemory := p.spriteMemory[address - SPRITE_MEM_START := value])
  }

  /** A VRAM write is read back at its address and nowhere else changes. */
  lemma VramWriteThenRead(p: PpuState, address: Address, value: Byte, other: Address)
    requires p.Valid() && InRegion(address, Vram) && InRegion(other, Vram)
    ensures VramRead(VramWrite(p, address, value), other)
            == if other == address then value else VramRead(p, other)
  {
  }

  /** The same for sprite memory. */
  lemma SpriteMemWriteThenRead(p: PpuState, address: Address, value: Byte, other: Address)
    requires p.Valid() && InRegion(address, SpriteMem) && InRegion(other, SpriteMem)
    ensures SpriteMemRead(SpriteMemWrite(p, address, value), other)
            == if other == address then value else SpriteMemRead(p, other)
  {
  }

  // The LCDC (FF40) decoders: `LCD_control & (1 << k) > 0`, one per bit.

  predicate LcdDisplayEnabled(lcdControl: Byte) { CheckBit(lcdControl, 7) }

  function WindowTileMapAddress(lcdControl: Byte): Address {
    if CheckBit(lcdControl, 6) then 0x9C00 else 0x9800
  }

  predicate WindowEnable(lcdControl: Byte) { CheckBit(lcdControl, 5) }

  function BgWindowTileData(lcdControl: Byte): Address {
    if CheckBit(lcdControl, 4) then 0x8000 else 0x8800
  }

  function BgTileMapAddress(lcdControl: Byte): Address {
    if CheckBit(lcdControl, 3) then 0x9C00 else 0x9800
  }

  function ObjHeight(lcdControl: Byte): nat {
    if CheckBit(lcdControl, 2) then 16 else 8
  }

  predicate ObjEnable(lcdControl: Byte) { CheckBit(lcdControl, 1) }

  predicate BgEnable(lcdControl: Byte) { CheckBit(lcdControl, 0) }

  /** LCD_control after reset (0x91) turns the display and the background
      on, takes tiles from 0x8000, both maps from 0x9800, 8-line sprites,
      and leaves the window and sprites off. */
  lemma ResetControlDecodes()
    ensures LcdDisplayEnabled(LCD_CONTROL_AT_RESET) && BgEnable(LCD_CONTROL_AT_RESET)
    ensures BgWindowTileData(LCD_CONTROL_AT_RESET) == 0x8000
    ensures BgTileMapAddress(LCD_CONTROL_AT_RESET) == 0x9800
    ensures WindowTileMapAddress(LCD_CONTROL_AT_RESET) == 0x9800
    ensures ObjHeight(LCD_CONTROL_AT_RESET) == 8
    ensures !WindowEnable(LCD_CONTROL_AT_RESET) && !ObjEnable(LCD_CONTROL_AT_RESET)
  {
  }

  /** Turning the LCD off changes the display bit and no other setting. */
  lemma TurnLcdOffKeepsSettings(p: PpuState)
    ensures var c := PpuTurnLcdOff(p).LCD_control;
      && !LcdDisplayEnabled(c)
      && WindowTileMapAddress(c) == WindowTileMapAddress(p.LCD_control)
      && WindowEnable(c) == WindowEnable(p.LCD_control)
      && BgWindowTileData(c) == BgWindowTileData(p.LCD_control)
      && BgTileMapAddress(c) == BgTileMapAddress(p.LCD_control)
      && ObjHeight(c) == ObjHeight(p.LCD_control)
      && ObjEnable(c) == ObjEnable(p.LCD_control)
      && BgEnable(c) == BgEnable(p.LCD_control)
  {
    SetClearBits(p.LCD_control, 7, 7);
    SetClearBits(p.LCD_control, 7, 6);
    SetClearBits(p.LCD_control, 7, 5);
    SetClearBits(p.LCD_control, 7, 4);
    SetClearBits(p.LCD_control, 7, 3);
    SetClearBits(p.LCD_control, 7, 2);
    SetClearBits(p.LCD_control, 7, 1);
    SetClearBits(p.LCD_control, 7, 0);
  }

  // The STAT (FF41) decoders.

  predicate LycLyInterrupt(status: Byte) { CheckBit(status, 6) }
  predicate Mode2OamInterrupt(status: Byte) { CheckBit(status, 5) }
  predicate Mode1VblankInterrupt(status: Byte) { CheckBit(status, 4) }
  predicate Mode0HblankInterrupt(status: Byte) { CheckBit(status, 3) }
  predicate LycLyFlag(status: Byte) { CheckBit(status, 2) }
  function LcdcStatusMode(status: Byte): Byte { And(status, 3) }

  /** `update` never changes the STAT interrupt selections or the LYC flag,
      and after a mode change the status mode is the new mode's number. */
  lemma UpdateStatusDecodes(p: PpuState)
    ensures var q := PpuUpdate(p).0;
      && LycLyInterrupt(q.LCDC_status) == LycLyInterrupt(p.LCDC_status)
      && Mode2OamInterrupt(q.LCDC_status) == Mode2OamInterrupt(p.LCDC_status)
      && Mode1VblankInterrupt(q.LCDC_status) == Mode1VblankInterrupt(p.LCDC_status)
      && Mode0HblankInterrupt(q.LCDC_status) == Mode0HblankInterrupt(p.LCDC_status)
      && LycLyFlag(q.LCDC_status) == LycLyFlag(p.LCDC_status)
      && (q.mode != p.mode ==> LcdcStatusMode(q.LCDC_status) == ModeBits(q.mode))
  {
    var q := PpuUpdate(p).0;
    UpdateStatusBits(p, 2);
    UpdateStatusBits(p, 3);
    UpdateStatusBits(p, 4);
    UpdateStatusBits(p, 5);
    UpdateStatusBits(p, 6);
    if q.mode != p.mode {
      forall j | 0 <= j < 8
        ensures CheckBit(And(q.LCDC_status, 3), j) == CheckBit(ModeBits(q.mode), j)
      {
        UpdateStatusBits(p, j);
        StatusMaskBits(j);
        BitwiseBits(q.LCDC_status, 3, j);
        if j >= 2 {
          SmallBits(ModeBits(q.mode), j);
        }
      }
      BitsDetermineByte(And(q.LCDC_status, 3), ModeBits(q.mode));
    }
  }

  // Palettes.

  function ColorOf(bits: nat): (c: Color)
    requires bits < 4
  {
    match bits
    case 0 => White
    case 1 => LightGray
    case 2 => DarkGray
    case _ => Black
  }

  function ColorBits(c: Color): (bits: nat)
    ensures bits < 4 && ColorOf(bits) == c
  {
    match c
    case White => 0
    case LightGray => 1
    case DarkGray => 2
    case Black => 3
  }

  /** color_for_11/10/01/00: the shade a palette gives to each 2-bit colour
      number, `(palette >> 6/4/2/0) & 0b11`. */
  function ColorFor11(palette: Byte): Color { ColorOf(AndBits(Shr(palette, 6), 3)) }
  function ColorFor10(palette: Byte): Color { ColorOf(AndBits(Shr(palette, 4), 3)) }
  function ColorFor01(palette: Byte): Color { ColorOf(AndBits(Shr(palette, 2), 3)) }
  function ColorFor00(palette: Byte): Color { ColorOf(AndBits(palette, 3)) }

  /** Ppu::bg_color: the background palette's shade for a colour number;
      numbers above 3 are shown black. */
  function BgColor(bgp: Byte, value: Byte): Color {
    match value
    case 0 => ColorFor00(bgp)
    case 1 => ColorFor01(bgp)
    case 2 => ColorFor10(bgp)
    case 3 => ColorFor11(bgp)
    case _ => Black
  }

  /** The four shades determine the palette byte: colour number k takes
      bits 2k+1..2k, so reading a palette through its four colours loses
      nothing. */
  lemma PaletteRoundTrip(palette: Byte)
    ensures 64 * ColorBits(BgColor(palette, 3)) + 16 * ColorBits(BgColor(palette, 2))
            + 4 * ColorBits(BgColor(palette, 1)) + ColorBits(BgColor(palette, 0)) == palette
  {
    ShadeBits(palette);
    BaseFourDigits(palette);
  }

  /** The shade of colour number k is field k of the palette. */
  lemma ShadeBits(palette: Byte)
    ensures ColorBits(BgColor(palette, 3)) == palette / 64 % 4
    ensures ColorBits(BgColor(palette, 2)) == palette / 16 % 4
    ensures ColorBits(BgColor(palette, 1)) == palette / 4 % 4
    ensures ColorBits(BgColor(palette, 0)) == palette % 4
  {
    ShrDivides(palette);
    LowMask3(palette / 64);
    LowMask3(palette / 16);
    LowMask3(palette / 4);
    LowMask3(palette);
  }

  lemma BaseFourDigits(p: Byte)
    ensures 64 * (p / 64 % 4) + 16 * (p / 16 % 4) + 4 * (p / 4 % 4) + p % 4 == p
  {
  }

  // Background tiles.

  /** The tile address computed by update_bg_tile: with bit 4 of LCDC clear,
      the tile number is signed and tile 0 sits at 0x9000 (computed in i16,
      then reinterpreted as u16); otherwise it is unsigned from 0x8000. */
  function TileAddress(lcdControl: Byte, n: Byte): (r: int)
  {
    if BgWindowTileData(lcdControl) == 0x8800 then
      ((0x9000 - 0x1_0000) + SignedByte(n) * 16) % 0x1_0000
    else
      BgWindowTileData(lcdControl) + n * 16
  }

  /** A tile's 16 bytes lie in 0x8800..0x9800 in signed mode and in
      0x8000..0x9000 in unsigned mode, both inside VRAM; tiles 128..255 have
      the same address in either mode. */
  lemma TileAddressInVram(lcdControl: Byte, n: Byte)
    ensures var r := TileAddress(lcdControl, n);
      && r % 16 == 0
      && (BgWindowTileData(lcdControl) == 0x8800 ==> 0x8800 <= r && r + 16 <= 0x9800)
      && (BgWindowTileData(lcdControl) == 0x8000 ==> 0x8000 <= r && r + 16 <= 0x9000)
      && (n < 128 && BgWindowTileData(lcdControl) == 0x8800 ==> r == 0x9000 + n * 16)
      && (n >= 128 ==> r == 0x8000 + n * 16)
  {
  }

  /** Ppu::is_addr_in_bg_map: the bounds are exclusive at 0x9BFF/0x9FFF, so
      the last byte of each 1 KiB map is not counted as part of it. */
  function IsAddrInBgMap(lcdControl: Byte, address: Address): (r: bool)
    ensures r ==> InRegion(address, Vram)
    ensures r <==> BgTileMapAddress(lcdControl) <= address < BgTileMapAddress(lcdControl) + 0x3FF
  {
    if BgTileMapAddress(lcdControl) == 0x9800 then 0x9800 <= address < 0x9BFF
    else 0x9C00 <= address < 0x9FFF
  }

  /** The PPU as the source lays it out: the registers as fields, the two
      memories as fixed-size arrays. */
  class Ppu {
    var LCD_control: Byte
    var LCDC_status: Byte
    var scy: Byte
    var scx: Byte
    var ly: Byte
    var lyc: Byte
    var bgp: Byte
    var obp0: Byte
    var obp1: Byte
    var wy: Byte
    var wx: Byte
    const spriteMemory: array<Byte>
    const vram: array<Byte>
    var cycles: int
    var state: PpuMode

    ghost predicate Valid()
      reads this
    {
      vram.Length == VRAM_LENGTH && spriteMemory.Length == SPRITE_MEM_LENGTH
      && vram != spriteMemory
    }

    function View(): PpuState
      reads this, vram, spriteMemory
    {
      PpuState(LCD_control, LCDC_status, scy, scx, ly, lyc, bgp, obp0, obp1, wy, wx,
               vram[..], spriteMemory[..], cycles, state)
    }

    constructor()
      ensures Valid() && fresh(vram) && fresh(spriteMemory)
      ensures View() == PPU_AT_RESET
    {
      LCD_control := 0x91;
      LCDC_status, ly, lyc, scy, bgp, obp0, obp1, wy, wx, scx := 0, 0, 0, 0, 0, 0, 0, 0, 0, 0;
      spriteMemory := new Byte[SPRITE_MEM_LENGTH](_ => 0);
      vram := new Byte[VRAM_LENGTH](_ => 0);
      cycles := 0;
      state := OAMSearch;
    }

    method Update() returns (vblank: bool)
      modifies this
      ensures (View(), vblank) == PpuUpdate(old(View()))
    {
      if cycles > 0 {
        cycles := cycles - 1;
        return false;
      }
      vblank := false;
      match state {
        case OAMSearch =>
          cycles := 20;
          state := PixelTransfer;
          LCDC_status := Or(LCDC_status, 3);
        case PixelTransfer =>
          cycles := 43;
          state := HBlank;
          LCDC_status := And(LCDC_status, Not(3));
        case HBlank =>
          cycles := 51;
          ly := (ly + 1) % 0x100;
          if ly == 144 {
            LCDC_status := WithModeBits(LCDC_status, 1);
            state := VBlank;
          } else {
            LCDC_status := WithModeBits(LCDC_status, 2);
            state := OAMSearch;
          }
        case VBlank =>
          ly := (ly + 1) % 0x100;
          cycles := 114;
          if ly == 154 {
            ly := 0;
            LCDC_status := WithModeBits(LCDC_status, 2);
            state := OAMSearch;
          }
          vblank := ly == 145;
      }
    }

    method TurnLcdOff()
      modifies this
      ensures View() == PpuTurnLcdOff(old(View()))
    {
      LCD_control := ClearBit(LCD_control, 7);
    }

    method Read(address: Address) returns (r: Option<Byte>)
      ensures r == PpuRead(View(), address)
    {
      match address
      case 0xFF40 => r := Some(LCD_control);
      case 0xFF41 => r := Some(LCDC_status);
      case 0xFF42 => r := Some(scy);
      case 0xFF43 => r := Some(scx);
      case 0xFF44 => r := Some(ly);
      case 0xFF45 => r := Some(lyc);
      case 0xFF47 => r := Some(bgp);
      case 0xFF48 => r := Some(obp0);
      case 0xFF49 => r := Some(obp1);
      case 0xFF4A => r := Some(wy);
      case 0xFF4B => r := Some(wx);
      case _ => r := None;
    }

    method Write(address: Address, value: Byte) returns (handled: bool)
      modifies this
      ensures (View(), handled) == PpuWrite(old(View()), address, value)
    {
      handled := true;
      match address
      case 0xFF40 => LCD_control := value;
      case 0xFF41 => LCDC_status := value;
      case 0xFF42 => scy := value;
      case 0xFF43 => scx := value;
      case 0xFF44 =>
        ly := 154;
        state := VBlank;
      case 0xFF45 => lyc := value;
      case 0xFF47 => bgp := value;
      case 0xFF48 => obp0 := value;
      case 0xFF49 => obp1 := value;
      case 0xFF4A => wy := value;
      case 0xFF4B => wx := value;
      case _ => handled := false;
    }

    method ReadVram(address: Address) returns (r: Byte)
      requires Valid() && InRegion(address, Vram)
      ensures r == VramRead(View(), address)
    {
      r := vram[address - VRAM_START];
    }

    method WriteVram(address: Address, value: Byte)
      requires Valid() && InRegion(address, Vram)
      modifies vram
      ensures View() == VramWrite(old(View()), address, value)
    {
      vram[address - VRAM_START] := value;
    }

    method ReadSpriteMem(address: Address) returns (r: Byte)
      requires Valid() && InRegion(address, SpriteMem)
      ensures r == SpriteMemRead(View(), address)
    {
      r := spriteMemory[address - SPRITE_MEM_START];
    }

    method WriteSpriteMem(address: Address, value: Byte)
      requires Valid() && InRegion(address, SpriteMem)
      modifies spriteMemory
      ensures View() == SpriteMemWrite(old(View()), address, value)
    {
      spriteMemory[address - SPRITE_MEM_START] := value;
    }

    method AddCycles(c: int)
      modifies this
      ensures View() == PpuAddCycles(old(View()), c)
    {
      cycles := cycles + c;
    }
  }
}
