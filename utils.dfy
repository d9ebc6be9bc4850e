/** Bytes, 16-bit words and the bit operations the emulator applies to them.
    Values are numbers in range; the source's `&`, `|`, `^` and `>>` are
    defined here bit by bit on naturals and proved to act on each bit
    independently, so that the rest of the model reasons about numbers. */
module Utils {

  /** A `u8`. */
  type Byte = b: int | 0 <= b < 0x100
  /** A `u16`. */
  type Word = w: int | 0 <= w < 0x1_0000

  /** `n as i8`: the byte read as a two's-complement number. */
  function SignedByte(n: Byte): (r: int)
    ensures -128 <= r < 128 && r % 256 == n
  {
    if n < 128 then n else n - 256
  }

  /** `1 << k`. */
  function Pow2(k: nat): (r: nat)
    ensures r >= 1
  {
    if k == 0 then 1 else 2 * Pow2(k - 1)
  }

  /** `x >> i`. */
  function Shr(x: nat, i: nat): nat {
    if i == 0 then x else Shr(x / 2, i - 1)
  }

  /** `utils::check_bit` (its file is not part of this model): bit `i` of
      `x` is set, `(x >> i) & 1 == 1`. */
  predicate CheckBit(x: nat, i: nat) {
    Shr(x, i) % 2 == 1
  }

  /** `a & b`. */
  function AndBits(a: nat, b: nat): (r: nat)
    ensures r <= a && r <= b
  {
    if a == 0 || b == 0 then 0
    else 2 * AndBits(a / 2, b / 2) + (if a % 2 == 1 && b % 2 == 1 then 1 else 0)
  }

  /** `a | b`. */
  function OrBits(a: nat, b: nat): (r: nat)
    ensures r >= a && r >= b
  {
    if a == 0 then b
    else if b == 0 then a
    else 2 * OrBits(a / 2, b / 2) + (if a % 2 == 1 || b % 2 == 1 then 1 else 0)
  }

  /** `a ^ b`. */
  function XorBits(a: nat, b: nat): nat {
    if a == 0 then b
    else if b == 0 then a
    else 2 * XorBits(a / 2, b / 2) + (if a % 2 != b % 2 then 1 else 0)
  }

  /** `|` and `^` of two k-bit numbers is a k-bit number. */
  lemma {:induction false} OrXorBelow(a: nat, b: nat, k: nat)
    requires a < Pow2(k) && b < Pow2(k)
    ensures OrBits(a, b) < Pow2(k) && XorBits(a, b) < Pow2(k)
  {
    if a != 0 && b != 0 {
      OrXorBelow(a / 2, b / 2, k - 1);
    }
  }

  /** `&`, `|`, `^` on `u8`. */
  function And(a: Byte, b: Byte): (r: Byte) {
    AndBits(a, b)
  }

  function Or(a: Byte, b: Byte): (r: Byte) {
    OrXorBelow(a, b, 8);
    OrBits(a, b)
  }

  function Xor(a: Byte, b: Byte): (r: Byte) {
    OrXorBelow(a, b, 8);
    XorBits(a, b)
  }

  /** `!a` on a `u8`. */
  function Not(a: Byte): (r: Byte) {
    0xFF - a
  }

  /** `x | (1 << i)` on a `u8`. */
  function SetBit(x: Byte, i: nat): (r: Byte)
    requires i < 8
  {
    Pow2Below(i, 8);
    Or(x, Pow2(i))
  }

  /** `x & !(1 << i)` on a `u8`. */
  function ClearBit(x: Byte, i: nat): (r: Byte)
    requires i < 8
  {
    Pow2Below(i, 8);
    And(x, Not(Pow2(i)))
  }

  lemma {:induction false} Pow2Below(i: nat, k: nat)
    requires i < k
    ensures Pow2(i) < Pow2(k)
  {
    if i < k - 1 {
      Pow2Below(i, k - 1);
    }
  }

  lemma {:induction false} ShrZero(i: nat)
    ensures Shr(0, i) == 0
  {
    if i > 0 {
      ShrZero(i - 1);
    }
  }

  lemma {:induction false} AndBitsBits(a: nat, b: nat, i: nat)
    ensures CheckBit(AndBits(a, b), i) <==> CheckBit(a, i) && CheckBit(b, i)
  {
    if i == 0 {
    } else if a == 0 || b == 0 {
      ShrZero(i);
    } else {
      AndBitsBits(a / 2, b / 2, i - 1);
    }
  }

  lemma {:induction false} OrBitsBits(a: nat, b: nat, i: nat)
    ensures CheckBit(OrBits(a, b), i) <==> CheckBit(a, i) || CheckBit(b, i)
  {
    if i == 0 {
    } else if a == 0 || b == 0 {
      ShrZero(i);
    } else {
      OrBitsBits(a / 2, b / 2, i - 1);
    }
  }

  lemma {:induction false} XorBitsBits(a: nat, b: nat, i: nat)
    ensures CheckBit(XorBits(a, b), i) <==> CheckBit(a, i) != CheckBit(b, i)
  {
    if i == 0 {
    } else if a == 0 || b == 0 {
      ShrZero(i);
    } else {
      XorBitsBits(a / 2, b / 2, i - 1);
    }
  }

  /** Bit `j` of `1 << i` is set exactly when j == i. */
  lemma {:induction false} Pow2Bits(i: nat, j: nat)
    ensures CheckBit(Pow2(i), j) <==> i == j
  {
    if i == 0 {
      if j > 0 {
        ShrZero(j - 1);
      }
    } else if j > 0 {
      Pow2Bits(i - 1, j - 1);
    }
  }

  /** Bit `j` of `!y` is the complement of bit `j` of `y`, for j < 8. */
  lemma NotBits(y: Byte, j: nat)
    requires j < 8
    ensures CheckBit(Not(y), j) <==> !CheckBit(y, j)
  {
    ComplementBits(y, 8, j);
  }

  lemma {:induction false} ComplementBits(y: nat, k: nat, j: nat)
    requires y < Pow2(k) && j < k
    ensures CheckBit(Pow2(k) - 1 - y, j) <==> !CheckBit(y, j)
  {
    if j > 0 {
      assert (Pow2(k) - 1 - y) / 2 == Pow2(k - 1) - 1 - y / 2;
      ComplementBits(y / 2, k - 1, j - 1);
    }
  }

  /** `&`, `|` and `^` on bytes act on each bit independently. */
  lemma BitwiseBits(a: Byte, b: Byte, i: nat)
    ensures CheckBit(And(a, b), i) <==> CheckBit(a, i) && CheckBit(b, i)
    ensures CheckBit(Or(a, b), i) <==> CheckBit(a, i) || CheckBit(b, i)
    ensures CheckBit(Xor(a, b), i) <==> CheckBit(a, i) != CheckBit(b, i)
  {
    AndBitsBits(a, b, i);
    OrBitsBits(a, b, i);
    XorBitsBits(a, b, i);
  }

  /** Setting or clearing bit `i` makes bit `i` 1 or 0 and leaves every
      other bit of the byte as it was. */
  lemma SetClearBits(x: Byte, i: nat, j: nat)
    requires i < 8 && j < 8
    ensures CheckBit(SetBit(x, i), j) == if j == i then true else CheckBit(x, j)
    ensures CheckBit(ClearBit(x, i), j) == if j == i then false else CheckBit(x, j)
  {
    Pow2Below(i, 8);
    Pow2Bits(i, j);
    NotBits(Pow2(i), j);
    BitwiseBits(x, Pow2(i), j);
    BitwiseBits(x, Not(Pow2(i)), j);
  }

  /** Clearing bit `i` clears it and keeps the seven others. */
  lemma ClearBitKeepsOthers(x: Byte, i: nat)
    requires i < 8
    ensures forall j :: 0 <= j < 8 ==> CheckBit(ClearBit(x, i), j) == (j != i && CheckBit(x, j))
  {
    forall j | 0 <= j < 8
      ensures CheckBit(ClearBit(x, i), j) == (j != i && CheckBit(x, j))
    {
      SetClearBits(x, i, j);
    }
  }

  /** A byte is determined by its eight bits. */
  lemma BitsDetermineByte(a: Byte, b: Byte)
    requires forall i :: 0 <= i < 8 ==> CheckBit(a, i) == CheckBit(b, i)
    ensures a == b
  {
    BitsDetermine(a, b, 8);
  }

  lemma {:induction false} BitsDetermine(a: nat, b: nat, k: nat)
    requires a < Pow2(k) && b < Pow2(k)
    requires forall i :: 0 <= i < k ==> CheckBit(a, i) == CheckBit(b, i)
    ensures a == b
  {
    if k > 0 {
      assert CheckBit(a, 0) == CheckBit(b, 0);
      forall i | 0 <= i < k - 1
        ensures CheckBit(a / 2, i) == CheckBit(b / 2, i)
      {
        assert CheckBit(a, i + 1) == CheckBit(b, i + 1);
      }
      BitsDetermine(a / 2, b / 2, k - 1);
    }
  }

  /** Shifting right by 1, 2, 4 or 6 divides by the matching power of two. */
  lemma ShrDivides(x: nat)
    ensures Shr(x, 1) == x / 2 && Shr(x, 2) == x / 4
    ensures Shr(x, 4) == x / 16 && Shr(x, 6) == x / 64
  {
    ShrAdd(x, 2, 2);
    ShrAdd(x, 4, 2);
  }

  /** Shifting by a + b is shifting by a, then by b. */
  lemma {:induction false} ShrAdd(x: nat, a: nat, b: nat)
    ensures Shr(x, a + b) == Shr(Shr(x, a), b)
  {
    if a > 0 {
      ShrAdd(x / 2, a - 1, b);
    }
  }

  /** Overwriting element i of `prefix of a` + `suffix of b` with a[i]
      moves the split point by one. */
  lemma SplicePrefix<T>(a: seq<T>, b: seq<T>, i: nat, v: T)
    requires |a| == |b| && i < |a| && a[i] == v
    ensures a[..i + 1] + b[i + 1..] == (a[..i] + b[i..])[i := v]
  {
  }

  lemma WholePrefix<T>(a: seq<T>, b: seq<T>)
    requires |a| == |b|
    ensures a[..|a|] + b[|b|..] == a
  {
  }

  /** A mask of low bits keeps the low bits: `x & 1`, `x & 3`, `x & 0xF`,
      `x & 0x1F` and `x & 0x7F` are remainders. */
  lemma LowMasks(x: Byte)
    ensures And(x, 0x01) == x % 2 && And(x, 0x03) == x % 4
    ensures And(x, 0x0F) == x % 16 && And(x, 0x1F) == x % 32 && And(x, 0x7F) == x % 128
  {
    LowMask3(x);
    LowMask15(x);
    LowMask(x, 5);
    LowMask(x, 7);
  }

  lemma LowMask1(x: nat)
    ensures AndBits(x, 1) == x % 2
  {
  }

  lemma LowMask3(x: nat)
    ensures AndBits(x, 1) == x % 2 && AndBits(x, 3) == x % 4
  {
    LowMask1(x);
    LowMask(x, 2);
  }

  lemma LowMask15(x: nat)
    ensures AndBits(x, 15) == x % 16
  {
    LowMask(x, 4);
  }

  /** `x & (2^k - 1)` is `x % 2^k`. */
  lemma {:induction false} LowMask(x: nat, k: nat)
    ensures AndBits(x, Pow2(k) - 1) == x % Pow2(k)
  {
    if k == 0 {
      assert Pow2(k) == 1;
    } else if x == 0 {
      DivModUnique(0, Pow2(k), 0, 0);
    } else {
      var p := Pow2(k - 1);
      var b := Pow2(k) - 1;
      assert Pow2(k) == 2 * p && b == 2 * (p - 1) + 1;
      assert b / 2 == p - 1 && b % 2 == 1;
      calc {
        AndBits(x, b);
        2 * AndBits(x / 2, p - 1) + x % 2;
        { LowMask(x / 2, k - 1); }
        2 * (x / 2 % p) + x % 2;
        { HalveMod(x, p); }
        x % (2 * p);
      }
    }
  }

  /** The low bit and the rest of `x % 2m`. */
  lemma HalveMod(x: nat, m: nat)
    requires m > 0
    ensures x % (2 * m) == 2 * (x / 2 % m) + x % 2
  {
    var q, r := x / 2 / m, x / 2 % m;
    assert x == 2 * m * q + (2 * r + x % 2);
    DivModUnique(x, 2 * m, q, 2 * r + x % 2);
  }

  /** Euclidean division is determined by the quotient and remainder: they
      are the unique `q`, `r` with `x == d * q + r` and `0 <= r < d`. */
  lemma DivModUnique(x: int, d: int, q: int, r: int)
    requires 0 <= r < d && x == d * q + r
    ensures x % d == r && x / d == q
  {
    var q', r' := x / d, x % d;
    assert d * (q - q') == r' - r;
    if q > q' {
      MulAtLeast(d, q - q');
    } else if q < q' {
      MulAtLeast(d, q' - q);
    }
  }

  lemma {:induction false} MulAtLeast(d: nat, k: nat)
    requires k >= 1
    ensures d * k >= d
  {
    if k > 1 {
      MulAtLeast(d, k - 1);
    }
  }
}
