/** Fixed-width unsigned words of the EVM, kept as natural numbers with explicit wrap-around. */
module Words {

  const U32 := 0x1_0000_0000
  const U48 := 0x1_0000_0000_0000
  const U64 := 0x1_0000_0000_0000_0000
  const U112 := 0x1_0000_0000_0000_0000_0000_0000_0000
  const U120 := 0x1_0000_0000_0000_0000_0000_0000_0000_00
  const U160 := 0x1_0000_0000_0000_0000_0000_0000_0000_0000_0000_0000
  const U192 := 0x1_0000_0000_0000_0000_0000_0000_0000_0000_0000_0000_0000_0000
  const U208 := 0x1_0000_0000_0000_0000_0000_0000_0000_0000_0000_0000_0000_0000_0000
  const U256 := 0x1_0000_0000_0000_0000_0000_0000_0000_0000_0000_0000_0000_0000_0000_0000_0000_0000

  type Address = a: nat | a < U160
  type Key = k: nat | k < U192
  type Word = w: nat | w < U256

  /** The conversions `uint112(x)` and `uint256(x)` keep the low bits. */
  function Truncate(x: nat, bound: nat): (r: nat)
    requires bound > 0
    ensures r < bound
    ensures x < bound ==> r == x
  {
    x % bound
  }

  /** The addition, subtraction and multiplication of an `unchecked` block. */
  function AddWrap(x: nat, y: nat): Word {
    Truncate(x + y, U256)
  }

  function SubWrap(x: Word, y: Word): Word {
    if x >= y then x - y else U256 - (y - x)
  }

  function MulWrap(x: nat, y: nat): Word {
    Truncate(Times(x, y), U256)
  }

  /** The product, by repeated addition, so that no proof but those about gas prices meets a product of two unknowns. */
  function Times(x: nat, y: nat): nat {
    if y == 0 then 0 else x + Times(x, y - 1)
  }

  lemma {:induction false} TimesIsProduct(x: nat, y: nat)
    ensures Times(x, y) == x * y
  {
    if y != 0 {
      TimesIsProduct(x, y - 1);
    }
  }

  /** They are exact up to multiples of 2^256. */
  lemma WrapAround(x: Word, y: Word)
    ensures AddWrap(x, y) == (x + y) % U256
    ensures SubWrap(x, y) == (x - y) % U256
    ensures MulWrap(x, y) == (x * y) % U256
  {
    TimesIsProduct(x, y);
    if x < y {
      assert (x - y) % U256 == (x - y + U256) % U256;
    }
  }

  function Pow2(k: nat): (p: nat)
    ensures p > 0
  {
    if k == 0 then 1 else 2 * Pow2(k - 1)
  }

  /** Bitwise or, bit by bit from the lowest. */
  function Or(x: nat, y: nat): nat
    decreases x + y
  {
    if x == 0 then y
    else if y == 0 then x
    else 2 * Or(x / 2, y / 2) + (if x % 2 == 1 || y % 2 == 1 then 1 else 0)
  }

  /** The or of two numbers fits in `k` bits exactly when both do. */
  lemma {:induction false} OrFits(x: nat, y: nat, k: nat)
    ensures Or(x, y) < Pow2(k) <==> x < Pow2(k) && y < Pow2(k)
  {
    if x != 0 && y != 0 {
      OrFits(x / 2, y / 2, if k == 0 then 0 else k - 1);
    }
  }

  /** Or-ing a `k`-bit number into a number shifted left by `k` bits is addition. */
  lemma {:induction false} OrShifted(low: nat, high: nat, k: nat)
    requires low < Pow2(k)
    ensures Or(low, high * Pow2(k)) == low + high * Pow2(k)
  {
    if k != 0 && low != 0 && high != 0 {
      var half := high * Pow2(k - 1);
      assert high * Pow2(k) == 2 * half;
      OrShifted(low / 2, high, k - 1);
    }
  }

  lemma {:induction false} PowSum(j: nat, k: nat)
    ensures Pow2(j + k) == Pow2(j) * Pow2(k)
  {
    if j != 0 {
      PowSum(j - 1, k);
    }
  }

  lemma PowersOfTwo()
    ensures Pow2(64) == U64 && Pow2(120) == U120 && Pow2(160) == U160 && Pow2(208) == U208
  {
    var p16 := Doubled(8, 0x100);
    var p32 := Doubled(16, p16);
    var p64 := Doubled(32, p32);
    var p48 := Summed(16, p16, 32, p32);
    var p112 := Summed(64, p64, 48, p48);
    var p120 := Summed(112, p112, 8, 0x100);
    var p160 := Summed(112, p112, 48, p48);
    var p208 := Summed(160, p160, 48, p48);
  }

  lemma Doubled(k: nat, p: nat) returns (q: nat)
    requires Pow2(k) == p
    ensures Pow2(2 * k) == q == p * p
  {
    PowSum(k, k);
    q := p * p;
  }

  lemma Summed(j: nat, p: nat, k: nat, q: nat) returns (r: nat)
    requires Pow2(j) == p && Pow2(k) == q
    ensures Pow2(j + k) == r == p * q
  {
    PowSum(j, k);
    r := p * q;
  }
}
