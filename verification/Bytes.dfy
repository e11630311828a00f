/** Byte strings and big-endian words. */
module Bytes {
  import opened Words

  type byte = b: nat | b < 256
  type bytes = seq<byte>

  /** The number a byte string spells, most significant byte first. */
  function FromBytes(s: bytes): nat {
    if s == [] then 0 else FromBytes(s[..|s| - 1]) * 256 + s[|s| - 1]
  }

  /** The `n` low bytes of `x`, most significant first. */
  function ToBytes(x: nat, n: nat): (s: bytes)
    ensures |s| == n
  {
    if n == 0 then [] else ToBytes(x / 256, n - 1) + [x % 256]
  }

  function Capacity(n: nat): (c: nat)
    ensures c > 0
  {
    if n == 0 then 1 else 256 * Capacity(n - 1)
  }

  lemma {:induction false} FromBytesFits(s: bytes)
    ensures FromBytes(s) < Capacity(|s|)
  {
    if s != [] {
      FromBytesFits(s[..|s| - 1]);
    }
  }

  /** The last byte counts least. */
  lemma BigEndian(s: bytes, last: byte)
    ensures FromBytes(s + [last]) == 256 * FromBytes(s) + last && FromBytes([]) == 0
  {
    assert (s + [last])[..|s|] == s;
  }

  lemma {:induction false} RoundTrip(x: nat, n: nat)
    requires x < Capacity(n)
    ensures FromBytes(ToBytes(x, n)) == x
  {
    if n != 0 {
      RoundTrip(x / 256, n - 1);
      assert (ToBytes(x / 256, n - 1) + [x % 256])[..n - 1] == ToBytes(x / 256, n - 1);
    }
  }

  lemma Capacities()
    ensures Capacity(20) == U160 && Capacity(32) == U256
  {
    assert Capacity(4) == 0x1_0000_0000;
    assert Capacity(8) == U64;
    assert Capacity(12) == U64 * 0x1_0000_0000;
    assert Capacity(16) == U64 * U64;
    assert Capacity(20) == U160;
    assert Capacity(24) == U192;
    assert Capacity(28) == U192 * 0x1_0000_0000;
  }

  /** `address(bytes20(s[:20]))`. */
  function AddressAt(s: bytes): Address
    requires |s| >= 20
  {
    FromBytesFits(s[..20]);
    Capacities();
    FromBytes(s[..20])
  }
}
