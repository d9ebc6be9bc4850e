/** The joypad register at 0xFF00 (src/joypad.rs). The upper nibble of
    `keys` selects which button group is visible; the lower nibble holds one
    bit per button of that group, 0 while pressed. */
module Joypad {

  import opened Wrappers
  import opened MemoryMap
  import opened Utils

  datatype Mode = Buttons | Directions | NoMode

  datatype Button = Down | Up | Left | Right | Start | Select | B | A

  const JOYPAD_REGISTER: Address := 0xFF00
  /** Joypad::new: nothing pressed, no group selected. */
  const KEYS_AT_RESET: Byte := 0xFF

  /** Joypad::read: the joypad answers only at 0xFF00. */
  function KeysRead(keys: Byte, address: Address): (r: Option<Byte>)
    ensures r.Some? <==> address == JOYPAD_REGISTER
    ensures r.Some? ==> r.value == keys
  {
    if address == JOYPAD_REGISTER then Some(keys) else None
  }

  /** Joypad::write: at 0xFF00, clear the upper nibble of `keys`, then OR in
      the value's upper nibble; the flag says whether the write was claimed. */
  function KeysWrite(keys: Byte, address: Address, value: Byte): (r: (Byte, bool))
    ensures r.1 <==> address == JOYPAD_REGISTER
    ensures !r.1 ==> r.0 == keys
  {
    if address == JOYPAD_REGISTER then
      var keys' := And(keys, 0x0F);
      (Or(keys', And(value, 0xF0)), true)
    else
      (keys, false)
  }

  /** A write to 0xFF00 takes bits 4..7 from the value and keeps bits 0..3
      of `keys`. */
  lemma KeysWriteBits(keys: Byte, value: Byte, i: nat)
    requires i < 8
    ensures CheckBit(KeysWrite(keys, JOYPAD_REGISTER, value).0, i)
            == if i < 4 then CheckBit(keys, i) else CheckBit(value, i)
  {
    BitwiseBits(keys, 0x0F, i);
    BitwiseBits(value, 0xF0, i);
    BitwiseBits(And(keys, 0x0F), And(value, 0xF0), i);
    NibbleMaskBits(i);
  }

  lemma NibbleMaskBits(i: nat)
    requires i < 8
    ensures CheckBit(0x0F, i) <==> i < 4
    ensures CheckBit(0xF0, i) <==> i >= 4
  {
    match i
    case 0 =>
    case 1 =>
    case 2 =>
    case 3 =>
    case 4 =>
    case 5 =>
    case 6 =>
    case 7 =>
  }

  /** Joypad::button_mode: bit 5 clear selects the buttons, otherwise bit 4
      clear selects the directions. */
  function ButtonMode(keys: Byte): Mode
  {
    if !CheckBit(keys, 5) then Buttons
    else if !CheckBit(keys, 4) then Directions
    else NoMode
  }

  /** get_button_bit: the key bit of a button in the selected group. */
  function GetButtonBit(mode: Mode, btn: Button): (r: Option<nat>)
    ensures r.Some? ==> r.value < 4
    ensures r.Some? <==> (mode == Buttons && btn in {Start, Select, B, A})
                         || (mode == Directions && btn in {Down, Up, Left, Right})
  {
    match mode
    case Buttons =>
      (match btn
       case Start => Some(3)
       case Select => Some(2)
       case B => Some(1)
       case A => Some(0)
       case _ => None)
    case Directions =>
      (match btn
       case Down => Some(3)
       case Up => Some(2)
       case Left => Some(1)
       case Right => Some(0)
       case _ => None)
    case NoMode => None
  }

  /** The key bit `bit` cleared when pressed (`keys & !(1 << bit)`), set
      when released (`keys | (1 << bit)`). */
  function SetKeyBit(keys: Byte, bit: nat, pressed: bool): Byte
    requires bit < 4
  {
    if pressed then ClearBit(keys, bit) else SetBit(keys, bit)
  }

  /** Joypad::update_button. */
  function KeysAfterButton(keys: Byte, btn: Button, pressed: bool): (k: Byte)
  {
    var mode := ButtonMode(keys);
    var bit := GetButtonBit(mode, btn);
    if bit.Some? then SetKeyBit(keys, bit.value, pressed) else keys
  }

  /** A button update changes exactly the mapped bit, to 0 when pressed and
      1 when released; an unmapped button or no selected group changes
      nothing. */
  lemma UpdateButtonExact(keys: Byte, btn: Button, pressed: bool, i: nat)
    requires i < 8
    ensures var bit := GetButtonBit(ButtonMode(keys), btn);
      && (bit.None? ==> KeysAfterButton(keys, btn, pressed) == keys)
      && (bit.Some? ==>
            CheckBit(KeysAfterButton(keys, btn, pressed), i)
            == if i == bit.value then !pressed else CheckBit(keys, i))
  {
    var bit := GetButtonBit(ButtonMode(keys), btn);
    if bit.Some? {
      SetClearBits(keys, bit.value, i);
    }
  }

  /** The group selection (bits 4 and 5) survives a button update, so
      pressing and then releasing a button restores its bit. */
  lemma PressRelease(keys: Byte, btn: Button)
    ensures ButtonMode(KeysAfterButton(keys, btn, true)) == ButtonMode(keys)
    ensures KeysAfterButton(KeysAfterButton(keys, btn, true), btn, false)
            == KeysAfterButton(keys, btn, false)
  {
    var bit := GetButtonBit(ButtonMode(keys), btn);
    if bit.Some? {
      var pressed := KeysAfterButton(keys, btn, true);
      SetClearBits(keys, bit.value, 4);
      SetClearBits(keys, bit.value, 5);
      assert ButtonMode(pressed) == ButtonMode(keys);
      forall i | 0 <= i < 8
        ensures CheckBit(SetBit(pressed, bit.value), i) == CheckBit(SetBit(keys, bit.value), i)
      {
        SetClearBits(keys, bit.value, i);
        SetClearBits(pressed, bit.value, i);
      }
      BitsDetermineByte(SetBit(pressed, bit.value), SetBit(keys, bit.value));
    }
  }

  class Joypad {
    var keys: Byte

    constructor()
      ensures keys == KEYS_AT_RESET
    {
      keys := 0xFF;
    }

    method Read(address: Address) returns (r: Option<Byte>)
      ensures r == KeysRead(keys, address)
    {
      if address == JOYPAD_REGISTER {
        r := Some(keys);
      } else {
        r := None;
      }
    }

    method Write(address: Address, value: Byte) returns (handled: bool)
      modifies this
      ensures (keys, handled) == KeysWrite(old(keys), address, value)
    {
      if address == JOYPAD_REGISTER {
        keys := And(keys, 0x0F);
        keys := Or(keys, And(value, 0xF0));
        handled := true;
      } else {
        handled := false;
      }
    }

    method UpdateButton(btn: Button, pressed: bool)
      modifies this
      ensures keys == KeysAfterButton(old(keys), btn, pressed)
    {
      var bit := GetButtonBit(ButtonMode(keys), btn);
      if bit.Some? {
        if pressed {
          keys := ClearBit(keys, bit.value);
        } else {
          keys := SetBit(keys, bit.value);
        }
      }
    }
  }
}
