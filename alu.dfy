/** The arithmetic of src/cpu.rs as pure functions on bytes and flags: the
    8-bit ALU operations, INC/DEC, the 16-bit additions, the rotates and
    shifts of the accumulator and of the CB table, BIT/SET/RES/SWAP and DAA.
    The source computes these inline in `do_next_instrution` and
    `handle_cb_opcode`; each function here keeps the source's formula in its
    body and states in its contract what the formula amounts to (a carry out
    of bit 3 or 7, a rotation, ...). */
module Alu {

  import opened Utils

  /** The four flag booleans Z, N, H, C. */
  datatype Flags = Flags(z: bool, n: bool, h: bool, c: bool)

  function Bit(b: bool): (r: nat)
    ensures r <= 1 && (r == 1 <==> b)
  {
    if b then 1 else 0
  }

  // Carries read off `x ^ y ^ sum`.

  /** Bits 4 and 8 are the sixteens and the two-hundred-fifty-sixes digit. */
  lemma Bits4And8(x: nat)
    ensures CheckBit(x, 4) <==> x / 16 % 2 == 1
    ensures CheckBit(x, 8) <==> x / 256 % 2 == 1
  {
    ShrDivides(x);
    ShrAdd(x, 4, 4);
    ShrDivides(x / 16);
  }

  /** Bit k of `x ^ y ^ (x + y)` (k = 4, 8), also with the sum wrapped to
      16 bits, is the carry into bit k. */
  lemma SumCarryBits(x: nat, y: nat, s: nat)
    requires s == x + y || s == (x + y) % 0x1_0000
    ensures CheckBit(XorBits(XorBits(x, y), s), 4) <==> x % 16 + y % 16 > 0xF
    ensures CheckBit(XorBits(XorBits(x, y), s), 8) <==> x % 0x100 + y % 0x100 > 0xFF
  {
    XorBitsBits(XorBits(x, y), s, 4);
    XorBitsBits(x, y, 4);
    XorBitsBits(XorBits(x, y), s, 8);
    XorBitsBits(x, y, 8);
    Bits4And8(x);
    Bits4And8(y);
    Bits4And8(s);
    CarryIntoDigit(x, y, s, 16);
    CarryIntoDigit(x, y, s, 256);
  }

  /** The parity of digit `d` (16 or 256) of a sum, also wrapped to 16
      bits, tells whether the lower digits carried. */
  lemma CarryIntoDigit(x: nat, y: nat, s: nat, d: nat)
    requires d == 16 || d == 256
    requires s == x + y || s == (x + y) % 0x1_0000
    ensures ((x / d % 2 == 1) != (y / d % 2 == 1)) != (s / d % 2 == 1) <==> x % d + y % d >= d
  {
    SumQuotient(x, y, d);
    WrapParity(x + y, s, d);
    ParityOfSum(x / d, y / d, Bit(x % d + y % d >= d));
  }

  lemma SumQuotient(x: nat, y: nat, d: nat)
    requires d == 16 || d == 256
    ensures (x + y) / d == x / d + y / d + Bit(x % d + y % d >= d)
  {
    var c := Bit(x % d + y % d >= d);
    DivModUnique(x + y, d, x / d + y / d + c, x % d + y % d - d * c);
  }

  lemma WrapParity(t: nat, s: nat, d: nat)
    requires d == 16 || d == 256
    requires s == t || s == t % 0x1_0000
    ensures s / d % 2 == t / d % 2
  {
    if s != t {
      var k := t / 0x1_0000;
      assert t == 0x1_0000 * k + s;
      var e := 0x1_0000 / d;
      assert e % 2 == 0 && d * e == 0x1_0000;
      DivModUnique(s, d, t / d - e * k, t % d);
      DivModUnique(s / d, 2, t / d / 2 - e / 2 * k, t / d % 2);
    }
  }

  lemma ParityOfSum(p: int, q: int, c: int)
    requires c == 0 || c == 1
    ensures ((p % 2 == 1) != (q % 2 == 1)) != ((p + q + c) % 2 == 1) <==> c == 1
  {
  }

  /** For the i16 difference of two bytes, bit k of `a ^ n ^ (a - n)` (k = 4,
      8, in two's complement) is the borrow into bit k. */
  lemma SubBorrowBits(a: Byte, n: Byte)
    ensures CheckBit(XorBits(XorBits(a, n), (a - n) % 0x1_0000), 4) <==> a % 16 < n % 16
    ensures CheckBit(XorBits(XorBits(a, n), (a - n) % 0x1_0000), 8) <==> a < n
  {
    var d := (a - n) % 0x1_0000;
    XorBitsBits(XorBits(a, n), d, 4);
    XorBitsBits(a, n, 4);
    XorBitsBits(XorBits(a, n), d, 8);
    XorBitsBits(a, n, 8);
    Bits4And8(a);
    Bits4And8(n);
    Bits4And8(d);
    BorrowInto16(a, n);
    BorrowInto256(a, n);
  }

  lemma BorrowInto16(a: Byte, n: Byte)
    ensures var d := (a - n) % 0x1_0000;
      ((a / 16 % 2 == 1) != (n / 16 % 2 == 1)) != (d / 16 % 2 == 1) <==> a % 16 < n % 16
  {
    var d := (a - n) % 0x1_0000;
    var borrow := Bit(a % 16 < n % 16);
    var q := a / 16 - n / 16 - borrow;
    assert a - n == 16 * q + (a % 16 - n % 16 + 16 * borrow);
    assert d / 16 == q + (if a >= n then 0 else 0x1000);
    assert d / 16 % 2 == q % 2;
    ParityOfDifference(a / 16, n / 16, borrow);
  }

  lemma ParityOfDifference(p: int, q: int, b: int)
    requires b == 0 || b == 1
    ensures ((p % 2 == 1) != (q % 2 == 1)) != ((p - q - b) % 2 == 1) <==> b == 1
  {
  }

  lemma BorrowInto256(a: Byte, n: Byte)
    ensures var d := (a - n) % 0x1_0000;
      ((a / 256 % 2 == 1) != (n / 256 % 2 == 1)) != (d / 256 % 2 == 1) <==> a < n
  {
    var d := (a - n) % 0x1_0000;
    assert d == if a >= n then a - n else a - n + 0x1_0000;
  }

  /** The u8 wrapping difference and its low nibble. */
  lemma WrapDifference(a: Byte, n: Byte)
    ensures (a - n) % 0x100 == if a >= n then a - n else a - n + 0x100
    ensures (a - n) % 0x100 % 16 == if a % 16 >= n % 16 then a % 16 - n % 16 else a % 16 - n % 16 + 16
  {
    var w := if a >= n then a - n else a - n + 0x100;
    DivModUnique(a - n, 0x100, if a >= n then 0 else -1, w);
    var borrow := Bit(a % 16 < n % 16);
    DivModUnique(w, 16, a / 16 - n / 16 - borrow + (if a >= n then 0 else 16), a % 16 - n % 16 + 16 * borrow);
  }

  // The 8-bit ALU. Each result is the new A (where the source writes one)
  // and the new flags.

  /** For two bytes, bits 4 and 8 of `(a ^ n) ^ (a + n)` are the carries
      out of the low nibble and out of the byte. */
  lemma ByteSumCarries(a: Byte, n: Byte)
    ensures CheckBit(XorBits(Xor(a, n), a + n), 4) <==> a % 16 + n % 16 > 0xF
    ensures CheckBit(XorBits(Xor(a, n), a + n), 8) <==> a + n > 0xFF
  {
    SumCarryBits(a, n, a + n);
    assert a % 0x100 == a && n % 0x100 == n;
  }

  /** ADD A, n: the sum formed in u16; H and C are bits 4 and 8 of
      `(a ^ n) ^ sum`. */
  function Add(a: Byte, n: Byte): (r: (Byte, Flags))
    ensures r.0 == (a + n) % 0x100
    ensures r.1 == Flags(r.0 == 0, false, a % 16 + n % 16 > 0xF, a + n > 0xFF)
  {
    var result := a + n;
    var carrybits := XorBits(Xor(a, n), result);
    ByteSumCarries(a, n);
    var a' := result % 0x100;
    (a', Flags(a' == 0, false, CheckBit(carrybits, 4), CheckBit(carrybits, 8)))
  }

  /** ADC A, n: H from the low nibbles plus the carry, C from the u16 sum. */
  function Adc(a: Byte, n: Byte, carry: bool): (r: (Byte, Flags))
    ensures r.0 == (a + n + Bit(carry)) % 0x100
    ensures r.1 == Flags(r.0 == 0, false, a % 16 + n % 16 + Bit(carry) > 0xF, a + n + Bit(carry) > 0xFF)
  {
    var result := a + n + Bit(carry);
    LowMasks(a);
    LowMasks(n);
    (result % 0x100, Flags(result % 0x100 == 0, false, And(a, 0xF) + And(n, 0xF) + Bit(carry) > 0xF, result > 0xFF))
  }

  /** SUB n: the difference formed in i16; H and C are bits 4 and 8 of
      `(a ^ n) ^ difference` in two's complement. */
  function Sub(a: Byte, n: Byte): (r: (Byte, Flags))
    ensures r.0 == (a - n) % 0x100
    ensures r.1 == Flags(a == n, true, a % 16 < n % 16, a < n)
  {
    var result := a - n;
    var carrybits := XorBits(Xor(a, n), result % 0x1_0000);
    SubBorrowBits(a, n);
    WrapDifference(a, n);
    var a' := result % 0x100;
    (a', Flags(a' == 0, true, CheckBit(carrybits, 4), CheckBit(carrybits, 8)))
  }

  /** SBC n: only the flags; this code never stores the difference into A. */
  function SbcFlags(a: Byte, n: Byte, carry: bool): (f: Flags)
    ensures f.z <==> (a - n - Bit(carry)) % 0x100 == 0
    ensures f.n && (f.c <==> a < n + Bit(carry)) && (f.h <==> a % 16 < n % 16 + Bit(carry))
  {
    var result := a - n - Bit(carry);
    LowMasks(a);
    LowMasks(n);
    Flags(result % 0x100 == 0, true, And(a, 0xF) - And(n, 0xF) - Bit(carry) < 0, result < 0)
  }

  /** AND n: bitwise and; H set, C clear. */
  function AndA(a: Byte, n: Byte): (r: (Byte, Flags))
    ensures forall i :: 0 <= i < 8 ==> (CheckBit(r.0, i) <==> CheckBit(a, i) && CheckBit(n, i))
    ensures r.1 == Flags(r.0 == 0, false, true, false)
  {
    BitwiseAll(a, n);
    var a' := And(a, n);
    (a', Flags(a' == 0, false, true, false))
  }

  /** OR n: bitwise or; H and C clear. */
  function OrA(a: Byte, n: Byte): (r: (Byte, Flags))
    ensures forall i :: 0 <= i < 8 ==> (CheckBit(r.0, i) <==> CheckBit(a, i) || CheckBit(n, i))
    ensures r.1 == Flags(r.0 == 0, false, false, false)
  {
    BitwiseAll(a, n);
    var a' := Or(a, n);
    (a', Flags(a' == 0, false, false, false))
  }

  /** XOR n: bitwise exclusive or; H and C clear. */
  function XorA(a: Byte, n: Byte): (r: (Byte, Flags))
    ensures forall i :: 0 <= i < 8 ==> (CheckBit(r.0, i) <==> CheckBit(a, i) != CheckBit(n, i))
    ensures r.1 == Flags(r.0 == 0, false, false, false)
  {
    BitwiseAll(a, n);
    var a' := Xor(a, n);
    (a', Flags(a' == 0, false, false, false))
  }

  lemma BitwiseAll(a: Byte, n: Byte)
    ensures forall i :: 0 <= i < 8 ==> (CheckBit(And(a, n), i) <==> CheckBit(a, i) && CheckBit(n, i))
    ensures forall i :: 0 <= i < 8 ==> (CheckBit(Or(a, n), i) <==> CheckBit(a, i) || CheckBit(n, i))
    ensures forall i :: 0 <= i < 8 ==> (CheckBit(Xor(a, n), i) <==> CheckBit(a, i) != CheckBit(n, i))
  {
    forall i | 0 <= i < 8
      ensures CheckBit(And(a, n), i) <==> CheckBit(a, i) && CheckBit(n, i)
      ensures CheckBit(Or(a, n), i) <==> CheckBit(a, i) || CheckBit(n, i)
      ensures CheckBit(Xor(a, n), i) <==> CheckBit(a, i) != CheckBit(n, i)
    {
      BitwiseBits(a, n, i);
    }
  }

  /** CP n: the flags of a subtraction whose result is dropped; H is
      `(a - n) & 0xF > a & 0xF` in u8. */
  function Cp(a: Byte, n: Byte): (f: Flags)
    ensures f == Flags(a == n, true, a % 16 < n % 16, a < n)
  {
    LowMasks(a);
    LowMasks((a - n) % 0x100);
    WrapDifference(a, n);
    Flags(a == n, true, And((a - n) % 0x100, 0xF) > And(a, 0xF), a < n)
  }

  /** INC r: wrapping increment; C is kept. */
  function Inc(v: Byte, carry: bool): (r: (Byte, Flags))
    ensures r.0 == (v + 1) % 0x100
    ensures r.1 == Flags(v == 0xFF, false, v % 16 == 0xF, carry)
  {
    var result := (v + 1) % 0x100;
    LowMask15(result);
    IncNibble(v);
    (result, Flags(result == 0, false, And(result, 0x0F) == 0, carry))
  }

  /** DEC r: wrapping decrement; C is kept. */
  function Dec(v: Byte, carry: bool): (r: (Byte, Flags))
    ensures r.0 == (v - 1) % 0x100
    ensures r.1 == Flags(v == 1, true, v % 16 == 0, carry)
  {
    var result := (v - 1) % 0x100;
    LowMask15(result);
    DecNibble(v);
    (result, Flags(result == 0, true, And(result, 0x0F) == 0x0F, carry))
  }

  /** The wrapped successor ends in nibble 0 exactly when v ends in 0xF. */
  lemma IncNibble(v: Byte)
    ensures (v + 1) % 0x100 == if v == 0xFF then 0 else v + 1
    ensures (v + 1) % 0x100 % 16 == 0 <==> v % 16 == 0xF
  {
    if v == 0xFF {
      DivModUnique(0x100, 0x100, 1, 0);
    } else {
      DivModUnique(v + 1, 0x100, 0, v + 1);
      if v % 16 == 0xF {
        DivModUnique(v + 1, 16, v / 16 + 1, 0);
      } else {
        DivModUnique(v + 1, 16, v / 16, v % 16 + 1);
      }
    }
  }

  /** The wrapped predecessor ends in nibble 0xF exactly when v ends in 0. */
  lemma DecNibble(v: Byte)
    ensures (v - 1) % 0x100 == if v == 0 then 0xFF else v - 1
    ensures (v - 1) % 0x100 % 16 == 0xF <==> v % 16 == 0
  {
    if v == 0 {
      DivModUnique(-1, 0x100, -1, 0xFF);
      DivModUnique(0xFF, 16, 15, 15);
    } else {
      DivModUnique(v - 1, 0x100, 0, v - 1);
      if v % 16 == 0 {
        DivModUnique(v - 1, 16, v / 16 - 1, 15);
      } else {
        DivModUnique(v - 1, 16, v / 16, v % 16 - 1);
      }
    }
  }

  // 16-bit arithmetic.

  /** `(n as i8) as i16 as u16`: the byte sign-extended to 16 bits. */
  function SignExtend(n: Byte): (r: Word)
    ensures r % 0x100 == n && r % 16 == n % 16
    ensures r == SignedByte(n) % 0x1_0000
  {
    if n < 0x80 then n else n + 0xFF00
  }

  /** ADD HL, rr: the sum formed in u32; H is the carry out of bit 11, C the
      carry out of bit 15; Z is kept. */
  function AddHl(hl: Word, nn: Word, zero: bool): (r: (Word, Flags))
    ensures r.0 == (hl + nn) % 0x1_0000
    ensures r.1 == Flags(zero, false, hl % 0x1000 + nn % 0x1000 > 0xFFF, hl + nn > 0xFFFF)
  {
    var result := hl + nn;
    // `x & 0xFFF` is the low twelve bits, `result as u16` the low sixteen.
    (result % 0x1_0000, Flags(zero, false, hl % 0x1000 + nn % 0x1000 > 0xFFF, result > 0xFFFF))
  }

  /** ADD SP, n and LDHL SP, n: the sign-extended byte added to SP in u16;
      H and C are bits 4 and 8 of `sp ^ n ^ result`, which are the carries
      out of bits 3 and 7 of the unsigned low byte. */
  function AddSpSigned(sp: Word, n: Byte): (r: (Word, Flags))
    ensures r.0 == (sp + SignedByte(n)) % 0x1_0000
    ensures r.1 == Flags(false, false, sp % 16 + n % 16 > 0xF, sp % 0x100 + n > 0xFF)
  {
    var e := SignExtend(n);
    var result := (sp + e) % 0x1_0000;
    SumCarryBits(sp, e, result);
    SignedSum(sp, n);
    var carrybits := XorBits(XorBits(sp, e), result);
    (result, Flags(false, false, CheckBit(carrybits, 4), CheckBit(carrybits, 8)))
  }

  /** Adding the sign-extended byte in u16 adds its signed value. */
  lemma SignedSum(sp: Word, n: Byte)
    ensures (sp + SignExtend(n)) % 0x1_0000 == (sp + SignedByte(n)) % 0x1_0000
    ensures SignExtend(n) % 16 == n % 16 && SignExtend(n) % 0x100 == n
  {
    if n >= 0x80 {
      var k := (sp + SignedByte(n)) / 0x1_0000;
      var m := (sp + SignedByte(n)) % 0x1_0000;
      assert sp + SignExtend(n) == 0x1_0000 * (k + 1) + m;
    }
  }

  // Rotates and shifts. `x >> 7` is written x / 128, `(x << 1) as u8` is
  // 2 * x % 0x100 and `x & 1` is x % 2.

  lemma OrLowBit(x: Byte, b: Byte)
    requires x % 2 == 0 && b <= 1
    ensures Or(x, b) == x + b
  {
    if x != 0 && b == 1 {
      assert OrBits(x / 2, 0) == x / 2;
    }
  }

  lemma OrHighBit(x: Byte, b: Byte)
    requires x < 0x80 && (b == 0 || b == 0x80)
    ensures Or(x, b) == x + b
  {
    if b == 0x80 {
      OrPow2(x, 7);
      assert Pow2(7) == 0x80 by {
        assert Pow2(1) == 2 && Pow2(2) == 4 && Pow2(3) == 8 && Pow2(4) == 16;
      }
    }
  }

  lemma {:induction false} OrPow2(x: nat, k: nat)
    requires x < Pow2(k)
    ensures OrBits(x, Pow2(k)) == x + Pow2(k)
  {
    if x != 0 && k > 0 {
      OrPow2(x / 2, k - 1);
    }
  }

  /** RLCA: bit 7 moves to bit 0 and to C; Z, N, H clear. */
  function Rlca(a: Byte): (r: (Byte, Flags))
    ensures r.0 == RotateLeft(a) && r.1 == Flags(false, false, false, a >= 0x80)
  {
    var bit7 := a / 0x80;
    ((2 * a) % 0x100 + bit7, Flags(false, false, false, bit7 == 1))
  }

  /** RLA: shift left through the carry. */
  function Rla(a: Byte, carry: bool): (r: (Byte, Flags))
    ensures r.0 == (2 * a) % 0x100 + Bit(carry) && r.1 == Flags(false, false, false, a >= 0x80)
  {
    var bit7 := a / 0x80;
    ((2 * a) % 0x100 + Bit(carry), Flags(false, false, false, bit7 == 1))
  }

  /** RRCA: bit 0 moves to bit 7 and to C. */
  function Rrca(a: Byte): (r: (Byte, Flags))
    ensures r.0 == RotateRight(a) && r.1 == Flags(false, false, false, a % 2 == 1)
  {
    LowMask1(a);
    var bit0 := And(a, 1);
    (a / 2 + bit0 * 0x80, Flags(false, false, false, bit0 == 1))
  }

  /** RRA: shift right through the carry. */
  function Rra(a: Byte, carry: bool): (r: (Byte, Flags))
    ensures r.0 == a / 2 + 0x80 * Bit(carry) && r.1 == Flags(false, false, false, a % 2 == 1)
  {
    LowMask1(a);
    var bit0 := And(a, 1);
    (a / 2 + Bit(carry) * 0x80, Flags(false, false, false, bit0 == 1))
  }

  /** The eight-bit rotations, as reference definitions. */
  function RotateLeft(v: Byte): Byte {
    (2 * v) % 0x100 + v / 0x80
  }

  function RotateRight(v: Byte): Byte {
    v / 2 + (v % 2) * 0x80
  }

  /** The CB-prefixed rotates and shifts. Each sets Z from the result and
      clears N and H. */
  function ShiftFlags(result: Byte, carry: bool): Flags {
    Flags(result == 0, false, false, carry)
  }

  function Rl(v: Byte, carry: bool): (r: (Byte, Flags))
    ensures r.0 == (2 * v) % 0x100 + Bit(carry) && r.1 == ShiftFlags(r.0, v >= 0x80)
  {
    var bit7 := v / 0x80;
    var value := (2 * v) % 0x100 + Bit(carry);
    (value, ShiftFlags(value, bit7 == 1))
  }

  function Rlc(v: Byte): (r: (Byte, Flags))
    ensures r.0 == RotateLeft(v) && r.1 == ShiftFlags(r.0, v >= 0x80)
  {
    var bit7 := v / 0x80;
    OrLowBit((2 * v) % 0x100, bit7);
    var value := Or((2 * v) % 0x100, bit7);
    (value, ShiftFlags(value, bit7 == 1))
  }

  function Sla(v: Byte): (r: (Byte, Flags))
    ensures r.0 == (2 * v) % 0x100 && r.1 == ShiftFlags(r.0, v >= 0x80)
  {
    var bit7 := v / 0x80;
    var value := (2 * v) % 0x100;
    (value, ShiftFlags(value, bit7 == 1))
  }

  function Rrc(v: Byte): (r: (Byte, Flags))
    ensures r.0 == RotateRight(v) && r.1 == ShiftFlags(r.0, v % 2 == 1)
  {
    LowMask1(v);
    var bit0 := And(v, 1);
    OrHighBit(v / 2, bit0 * 0x80);
    var value := Or(v / 2, bit0 * 0x80);
    (value, ShiftFlags(value, bit0 == 1))
  }

  /** SRA: bit 7 stays where it was. */
  function Sra(v: Byte): (r: (Byte, Flags))
    ensures r.0 == v / 2 + (v / 0x80) * 0x80 && r.1 == ShiftFlags(r.0, v % 2 == 1)
  {
    LowMask1(v);
    var bit0 := And(v, 1);
    var bit7 := v / 0x80;
    OrHighBit(v / 2, bit7 * 0x80);
    var value := Or(v / 2, bit7 * 0x80);
    (value, ShiftFlags(value, bit0 == 1))
  }

  function Srl(v: Byte): (r: (Byte, Flags))
    ensures r.0 == v / 2 && r.1 == ShiftFlags(r.0, v % 2 == 1)
  {
    LowMask1(v);
    var bit0 := And(v, 1);
    var value := v / 2;
    (value, ShiftFlags(value, bit0 == 1))
  }

  function Rr(v: Byte, carry: bool): (r: (Byte, Flags))
    ensures r.0 == v / 2 + 0x80 * Bit(carry) && r.1 == ShiftFlags(r.0, v % 2 == 1)
  {
    LowMask1(v);
    var bit0 := And(v, 1);
    OrHighBit(v / 2, Bit(carry) * 0x80);
    var value := Or(v / 2, Bit(carry) * 0x80);
    (value, ShiftFlags(value, bit0 == 1))
  }

  /** `u8::swap_bytes`: a one-byte integer has a single byte, so the order
      reversal leaves it unchanged. */
  function SwapBytes(v: Byte): Byte {
    v
  }

  /** SWAP r as the source writes it: the value is unchanged (a nibble swap
      was evidently meant); Z from the value, N, H and C clear. */
  function Swap(v: Byte): (r: (Byte, Flags))
    ensures r == (v, Flags(v == 0, false, false, false))
  {
    var value := SwapBytes(v);
    (value, Flags(value == 0, false, false, false))
  }

  /** BIT b, r: Z tells whether bit b of the value is clear; H set, N
      clear, C kept. */
  function BitTest(b: nat, v: Byte, carry: bool): (f: Flags)
    requires b < 8
    ensures f == Flags(!CheckBit(v, b), false, true, carry)
  {
    Pow2Below(b, 8);
    SingleBitMask(v, b);
    Flags(And(v, Pow2(b)) == 0, false, true, carry)
  }

  /** `v & (1 << b)` is zero exactly when bit b of v is clear. */
  lemma SingleBitMask(v: Byte, b: nat)
    requires b < 8
    ensures Pow2(b) < 0x100 && (And(v, Pow2(b)) == 0 <==> !CheckBit(v, b))
  {
    Pow2Below(b, 8);
    var m := And(v, Pow2(b));
    BitwiseBits(v, Pow2(b), b);
    Pow2Bits(b, b);
    ShrZero(b);
    if !CheckBit(v, b) {
      forall i | 0 <= i < 8
        ensures CheckBit(m, i) == CheckBit(0, i)
      {
        BitwiseBits(v, Pow2(b), i);
        Pow2Bits(b, i);
        ShrZero(i);
      }
      BitsDetermineByte(m, 0);
    }
  }

  // DAA.

  /** The correction DAA adds and the carry it leaves: 0x06 when H is set
      or (after an addition) the low nibble exceeds 9, which also clears C;
      then 0x60 when C is now set or (after an addition) the value exceeds
      0x9F, which sets C. */
  function DaaCorrection(a: Byte, f: Flags): (r: (Byte, bool))
    ensures r.0 in {0x00, 0x06, 0x60, 0x66}
    ensures r.1 <==> r.0 >= 0x60
  {
    LowMasks(a);
    var (correction, c) := if f.h || (!f.n && And(a, 0xF) > 9) then (0x06, false) else (0x00, f.c);
    if c || (!f.n && a > 0x9F) then
      (Or(correction, 0x60), true)
    else
      (correction, c)
  }

  /** DAA: after a subtraction the correction is negated as `0xFF - correction`,
      which subtracts one more than the correction. */
  function Daa(a: Byte, f: Flags): (r: (Byte, Flags))
    ensures var (correction, c) := DaaCorrection(a, f);
      && r.1 == Flags(r.0 == 0, f.n, false, c)
      && (!f.n ==> r.0 == (a + correction) % 0x100)
      && (f.n ==> r.0 == (a - correction - 1) % 0x100)
  {
    var (correction, c) := DaaCorrection(a, f);
    var correction := if f.n then 0xFF - correction else correction;
    var a' := (a + correction) % 0x100;
    (a', Flags(a' == 0, f.n, false, c))
  }

  // Relations between the operations.

  /** ADC with C clear is ADD. */
  lemma AdcWithoutCarry(a: Byte, n: Byte)
    ensures Adc(a, n, false) == Add(a, n)
  {
  }

  /** SBC with C clear computes exactly the flags of SUB, and CP computes
      them too; neither writes the difference. */
  lemma SbcAndCpAreSubFlags(a: Byte, n: Byte)
    ensures SbcFlags(a, n, false) == Sub(a, n).1 == Cp(a, n)
  {
    WrapDifference(a, n);
  }

  /** DEC undoes INC and INC undoes DEC, on the value. */
  lemma IncDecInverse(v: Byte, carry: bool)
    ensures Dec(Inc(v, carry).0, carry).0 == v
    ensures Inc(Dec(v, carry).0, carry).0 == v
  {
    if v == 0xFF {
      DivModUnique(0x100, 0x100, 1, 0);
    } else {
      DivModUnique(v + 1, 0x100, 0, v + 1);
    }
    DecNibble(v);
    DecNibble((v + 1) % 0x100);
  }

  /** The two rotations are inverse. */
  lemma RotationsInverse(v: Byte)
    ensures RotateRight(RotateLeft(v)) == v && RotateLeft(RotateRight(v)) == v
  {
    DivModUnique(v, 0x80, v / 0x80, v % 0x80);
    DivModUnique(2 * v, 0x100, v / 0x80, 2 * (v % 0x80));
    DivModUnique(RotateLeft(v), 2, v % 0x80, v / 0x80);
    var w: int := RotateRight(v);
    DivModUnique(v, 2, v / 2, v % 2);
    DivModUnique(w, 0x80, v % 2, v / 2);
    DivModUnique(2 * w, 0x100, v % 2, 2 * (v / 2));
  }

  /** RLCA, RLA, RRCA and RRA are the CB forms RLC, RL, RRC and RR applied
      to A, except that Z is cleared instead of set from the result. */
  lemma AccumulatorRotatesAreCb(a: Byte, carry: bool)
    ensures Rlca(a) == (Rlc(a).0, Rlc(a).1.(z := false))
    ensures Rla(a, carry) == (Rl(a, carry).0, Rl(a, carry).1.(z := false))
    ensures Rrca(a) == (Rrc(a).0, Rrc(a).1.(z := false))
    ensures Rra(a, carry) == (Rr(a, carry).0, Rr(a, carry).1.(z := false))
  {
  }

  /** RR through the carry undoes RL through the carry, value and carry. */
  lemma RlRrInverse(v: Byte, carry: bool)
    ensures var (v', f) := Rl(v, carry); Rr(v', f.c).0 == v && Rr(v', f.c).1.c == carry
    ensures var (v', f) := Rr(v, carry); Rl(v', f.c).0 == v && Rl(v', f.c).1.c == carry
  {
    DivModUnique(v, 0x80, v / 0x80, v % 0x80);
    DivModUnique(2 * v, 0x100, v / 0x80, 2 * (v % 0x80));
    DivModUnique(2 * (v % 0x80) + Bit(carry), 2, v % 0x80, Bit(carry));
    DivModUnique(v, 2, v / 2, v % 2);
    var w := v / 2 + 0x80 * Bit(carry);
    DivModUnique(w, 0x80, Bit(carry), v / 2);
    DivModUnique(2 * w, 0x100, Bit(carry), 2 * (v / 2));
  }

  /** After a subtraction with H set, DAA subtracts 7 and clears C,
      whatever C was: the low-nibble step clears C, and the negation
      `0xFF - 0x06` is -7. */
  lemma DaaSubtractionHalfBorrow(a: Byte, f: Flags)
    requires f.n && f.h
    ensures Daa(a, f) == ((a - 7) % 0x100, Flags((a - 7) % 0x100 == 0, true, false, false))
  {
    assert DaaCorrection(a, f) == (0x06, false);
  }

  /** After an addition with H clear, a low nibble above 9 and a value not
      above 0x9F, DAA adds 6 and clears C, whatever C was. */
  lemma DaaAdditionLowNibble(a: Byte, f: Flags)
    requires !f.n && !f.h && a % 16 > 9 && a <= 0x9F
    ensures Daa(a, f) == ((a + 6) % 0x100, Flags((a + 6) % 0x100 == 0, false, false, false))
  {
    LowMask15(a);
    assert DaaCorrection(a, f) == (0x06, false);
  }

  /** After an addition with H set and a value not above 0x9F, DAA adds 6 and
      clears C, whatever C was. */
  lemma DaaAdditionHalfCarry(a: Byte, f: Flags)
    requires !f.n && f.h && a <= 0x9F
    ensures Daa(a, f) == ((a + 6) % 0x100, Flags((a + 6) % 0x100 == 0, false, false, false))
  {
    assert DaaCorrection(a, f) == (0x06, false);
  }

  /** A subtraction that borrows from the low nibble and leaves 0x0F, such
      as 0x10 - 0x01, sets H, and DAA then turns 0x0F into 0x08 where BCD
      0x09 was meant. */
  lemma DaaAfterSubtraction(a: Byte, n: Byte)
    requires a - n == 0x0F && a % 16 < n % 16
    ensures var (d, f) := Sub(a, n); d == 0x0F && f.h && Daa(d, f).0 == 0x08
  {
    var (d, f) := Sub(a, n);
    DaaSubtractionHalfBorrow(d, f);
  }

  /** 0x45 + 0x55 gives 0x9A, which DAA turns into 0xA0 with C clear where
      BCD 0x00 with C set was meant. */
  lemma DaaAfterAdditionLimit(a: Byte, n: Byte)
    requires a == 0x45 && n == 0x55
    ensures var (d, f) := Add(a, n); d == 0x9A && Daa(d, f) == (0xA0, Flags(false, false, false, false))
  {
    var (d, f) := Add(a, n);
    DaaAdditionLowNibble(d, f);
  }

  /** 0x99 + 0x99 gives 0x32 with C set, which DAA turns into 0x38 with C
      clear where BCD 0x98 with C set was meant. */
  lemma DaaAfterAdditionCarry(a: Byte, n: Byte)
    requires a == 0x99 && n == 0x99
    ensures var (d, f) := Add(a, n); d == 0x32 && f.c && Daa(d, f) == (0x38, Flags(false, false, false, false))
  {
    var (d, f) := Add(a, n);
    DaaAdditionHalfCarry(d, f);
  }
}
