/** Machine integers and their big-endian byte form. */
module Bytes {

  type byte = n: nat | n < 0x100
  type u16 = n: nat | n < 0x1_0000
  type u32 = n: nat | n < 0x1_0000_0000
  type u64 = n: nat | n < 0x1_0000_0000_0000_0000

  const U16_MAX: nat := 0xFFFF

  /** 256 to the power `k`: the number of values that `k` bytes can hold. */
  function Capacity(k: nat): nat
  {
    if k == 0 then 1 else 256 * Capacity(k - 1)
  }

  lemma CapacityValues()
    ensures Capacity(1) == 0x100
    ensures Capacity(2) == 0x1_0000
    ensures Capacity(4) == 0x1_0000_0000
    ensures Capacity(8) == 0x1_0000_0000_0000_0000
  {
    assert Capacity(3) == 256 * Capacity(2);
    assert Capacity(4) == 256 * Capacity(3);
    assert Capacity(5) == 256 * Capacity(4);
    assert Capacity(6) == 256 * Capacity(5);
    assert Capacity(7) == 256 * Capacity(6);
    assert Capacity(8) == 256 * Capacity(7);
  }

  /** The `k` low-order bytes of `n`, most significant first. */
  function ToBigEndian(n: nat, k: nat): (s: seq<byte>)
    ensures |s| == k
    decreases k, n
  {
    if k == 0 then [] else ToBigEndian(n / 256, k - 1) + [n % 256]
  }

  /** The number whose big-endian form is the `k` bytes of `d` from position `pos` on. */
  function FromBigEndian(d: seq<byte>, pos: nat, k: nat): (n: nat)
    requires pos + k <= |d|
    ensures n < Capacity(k)
    decreases k, d
  {
    if k == 0 then 0 else 256 * FromBigEndian(d, pos, k - 1) + d[pos + k - 1]
  }

  lemma {:induction false} SameBytes(d: seq<byte>, e: seq<byte>, pos: nat, k: nat)
    requires pos + k <= |d| && k <= |e| && forall i :: 0 <= i < k ==> d[pos + i] == e[i]
    ensures FromBigEndian(d, pos, k) == FromBigEndian(e, 0, k)
    decreases k
  {
    if k > 0 {
      SameBytes(d, e, pos, k - 1);
      assert d[pos + (k - 1)] == e[k - 1];
    }
  }

  /** Reading inverts writing on every number that fits. */
  lemma {:induction false} ReadBack(n: nat, k: nat)
    requires n < Capacity(k)
    ensures FromBigEndian(ToBigEndian(n, k), 0, k) == n
    decreases k
  {
    if k > 0 {
      ReadBack(n / 256, k - 1);
      SameBytes(ToBigEndian(n, k), ToBigEndian(n / 256, k - 1), 0, k - 1);
    }
  }

  /** Writing inverts reading on every byte string. */
  lemma {:induction false} WriteBack(s: seq<byte>)
    ensures ToBigEndian(FromBigEndian(s, 0, |s|), |s|) == s
  {
    if s != [] {
      var k := |s| - 1;
      WriteBack(s[..k]);
      SameBytes(s, s[..k], 0, k);
    }
  }
}
