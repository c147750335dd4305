/** Big-endian byte strings and the naturals they denote, as math/big's SetBytes, Bytes and BitLen. */
module Bytes {
  import opened NumberTheory

  type byte = b: int | 0 <= b < 256

  datatype Option<+T> = None | Some(value: T)

  /** SetBytes: the number a big-endian byte string denotes. */
  function ToNat(bs: seq<byte>): nat {
    if bs == [] then 0 else ToNat(bs[..|bs| - 1]) * 256 + bs[|bs| - 1]
  }

  /** Bytes: the shortest big-endian byte string; zero is the empty string. */
  function FromNat(n: nat): seq<byte> {
    if n == 0 then [] else FromNat(n / 256) + [n % 256]
  }

  function BitLen(n: nat): nat {
    if n == 0 then 0 else 1 + BitLen(n / 2)
  }

  /** The byte string without its leading zeros. */
  function StripZeros(bs: seq<byte>): (r: seq<byte>)
    ensures |r| <= |bs|
  {
    if bs == [] || bs[0] != 0 then bs else StripZeros(bs[1..])
  }

  lemma {:induction false} ToFromNat(n: nat)
    ensures ToNat(FromNat(n)) == n
  {
    if n > 0 {
      ToFromNat(n / 256);
      assert FromNat(n)[..|FromNat(n)| - 1] == FromNat(n / 256);
    }
  }

  lemma FromNatEmpty(n: nat)
    ensures FromNat(n) == [] <==> n == 0
  {
  }

  lemma {:induction false} FromNatCanonical(n: nat)
    requires n > 0
    ensures FromNat(n) != [] && FromNat(n)[0] != 0
  {
    if n / 256 > 0 {
      FromNatCanonical(n / 256);
    }
  }

  lemma {:induction false} ToNatLeadingZero(bs: seq<byte>)
    ensures ToNat([0] + bs) == ToNat(bs)
  {
    if bs != [] {
      var t := bs[..|bs| - 1];
      ToNatLeadingZero(t);
      assert ([0] + bs)[..|bs|] == [0] + t;
    }
  }

  lemma {:induction false} ToNatPositive(bs: seq<byte>)
    requires bs != [] && bs[0] != 0
    ensures ToNat(bs) > 0
  {
    if |bs| > 1 {
      ToNatPositive(bs[..|bs| - 1]);
    }
  }

  lemma {:induction false} FromToNatCanonical(bs: seq<byte>)
    requires bs == [] || bs[0] != 0
    ensures FromNat(ToNat(bs)) == bs
  {
    if bs != [] {
      ToNatPositive(bs);
      FromToNatCanonical(bs[..|bs| - 1]);
      var n := ToNat(bs);
      assert n / 256 == ToNat(bs[..|bs| - 1]) && n % 256 == bs[|bs| - 1];
    }
  }

  /** Reading a byte string and writing it back drops exactly its leading zeros. */
  lemma {:induction false} FromToNat(bs: seq<byte>)
    ensures FromNat(ToNat(bs)) == StripZeros(bs)
  {
    if bs == [] || bs[0] != 0 {
      FromToNatCanonical(bs);
    } else {
      assert bs == [0] + bs[1..];
      ToNatLeadingZero(bs[1..]);
      FromToNat(bs[1..]);
    }
  }

  lemma {:induction false} ToNatBound(bs: seq<byte>)
    ensures ToNat(bs) < Pow(2, 8 * |bs|)
  {
    if bs != [] {
      ToNatBound(bs[..|bs| - 1]);
      PowAdd(2, 8, 8 * (|bs| - 1));
      assert 8 + 8 * (|bs| - 1) == 8 * |bs|;
      PowTwoEight();
    }
  }

  lemma PowTwoEight()
    ensures Pow(2, 8) == 256
  {
    PowAdd(2, 4, 4);
    assert Pow(2, 4) == 16 by {
      PowAdd(2, 2, 2);
    }
  }

  lemma {:induction false} PowTwoMonotone(a: nat, b: nat)
    requires a <= b
    ensures 1 <= Pow(2, a) <= Pow(2, b)
    decreases b
  {
    if a < b {
      PowTwoMonotone(a, b - 1);
    } else if a > 0 {
      PowTwoMonotone(a - 1, b - 1);
    }
  }

  /** BitLen is exact: 2^(BitLen-1) <= n < 2^BitLen for positive n. */
  lemma {:induction false} BitLenBounds(n: nat)
    requires n > 0
    ensures BitLen(n) > 0
    ensures Pow(2, BitLen(n) - 1) <= n < Pow(2, BitLen(n))
  {
    if n > 1 {
      BitLenBounds(n / 2);
    }
  }

  lemma BitLenZero(n: nat)
    ensures BitLen(n) == 0 <==> n == 0
  {
  }

  lemma BitLenOne(n: nat)
    ensures BitLen(n) == 1 <==> n == 1
  {
    assert n > 1 ==> BitLen(n / 2) > 0;
  }
}
