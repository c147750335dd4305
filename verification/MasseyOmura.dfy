/** The Massey-Omura commutative cipher: masseyomura/encrypt.go and masseyomura/keygen.go. */
module MasseyOmura {
  import opened Seqs
  import opened NumberTheory
  import opened Bytes

  /** A user's exponent pair. */
  datatype Key = Key(e: nat, d: nat)

  /** What GenUserKey delivers for the modulus p. */
  predicate ValidKey(p: nat, k: Key) {
    p >= 3 && 0 < k.e < p - 1 && 0 < k.d < p - 1 && (k.e * k.d) % (p - 1) == 1
  }

  function Encrypt(p: nat, k: Key, m: nat): nat {
    PowMod(m, k.e, p)
  }

  function Decrypt(p: nat, k: Key, c: nat): nat {
    PowMod(c, k.d, p)
  }

  /** VerifySysKey, with ProbablyPrime taken as primality. */
  predicate VerifySysKey(p: nat, bits: int) {
    BitLen(p) == bits && Prime(p)
  }

  /** Go divides towards zero, so a key of no bits also gives -1. */
  function BytesMaxSize(bits: nat): int {
    (if bits == 0 then 0 else (bits - 1) / 8) - 1
  }

  function BitsMaxSize(bytes: int): int {
    8 * (bytes + 1) + 1
  }

  // ----- key generation

  lemma GeneratedKeyValid(p: nat, e: nat)
    requires p >= 3 && 0 < e < p - 1 && Gcd(e, p - 1) == 1
    ensures ValidKey(p, Key(e, ModInverse(e, p - 1)))
  {
    ModInverseCorrect(e, p - 1);
  }

  /**
   * GenUserKey. The draws are the values the random source hands to the rejection loop;
   * running out of them is the source's read error. A modulus below 3 makes rand.Int panic.
   */
  method GenUserKey(p: nat, draws: seq<nat>) returns (r: Option<Key>)
    requires p >= 3
    requires forall x :: x in draws ==> x < p - 2
    ensures r.Some? ==> ValidKey(p, r.value)
    ensures r.Some? ==> exists i :: 0 <= i < |draws| && r.value.e == draws[i] + 1
                                    && forall j :: 0 <= j < i ==> Gcd(draws[j] + 1, p - 1) != 1
    ensures r.None? <==> forall i :: 0 <= i < |draws| ==> Gcd(draws[i] + 1, p - 1) != 1
  {
    hide Gcd, BitLen, ValidKey, ModInverse;
    var p1 := p - 1;
    var gcd, e, i := 2, 0, 0;
    BitLenOne(gcd);
    while BitLen(gcd) != 1
      invariant 0 <= i <= |draws|
      invariant i == 0 ==> gcd == 2
      invariant i > 0 ==> e == draws[i - 1] + 1 && gcd == Gcd(e, p1)
      invariant forall j :: 0 <= j < i - 1 ==> Gcd(draws[j] + 1, p1) != 1
      invariant i > 0 && BitLen(gcd) != 1 ==> Gcd(draws[i - 1] + 1, p1) != 1
      decreases |draws| - i
    {
      if i == |draws| {
        return None;
      }
      e := draws[i] + 1;
      gcd := Gcd(e, p1);
      i := i + 1;
      BitLenOne(gcd);
    }
    BitLenOne(gcd);
    assert draws[i - 1] in draws;
    GeneratedKeyValid(p, e);
    assert Gcd(draws[i - 1] + 1, p1) == 1;
    r := Some(Key(e, ModInverse(e, p1)));
  }

  // ----- the cipher

  /** Exponents may be reduced modulo p-1. */
  lemma ExponentCongruence(p: nat, x: nat, a: nat, b: nat)
    requires Prime(p) && 0 < x < p
    requires a % (p - 1) == b % (p - 1)
    ensures PowMod(x, a, p) == PowMod(x, b, p)
  {
    if a <= b {
      var k := CongruentGap(a, b, p - 1);
      ExponentShift(p, x, a, k);
    } else {
      var k := CongruentGap(b, a, p - 1);
      ExponentShift(p, x, b, k);
    }
  }

  lemma CongruentGap(a: nat, b: nat, m: nat) returns (k: nat)
    requires a <= b && m > 0 && a % m == b % m
    ensures m * k >= 0 && b == a + m * k
  {
    k := b / m - a / m;
    assert b - a == m * k;
  }

  lemma ExponentShift(p: nat, x: nat, a: nat, k: nat)
    requires Prime(p) && 0 < x < p
    ensures (p - 1) * k >= 0
    ensures PowMod(x, a + (p - 1) * k, p) == PowMod(x, a, p)
  {
    var t := Pow(x, p - 1);
    PowMul(x, p - 1, k);
    PowAdd(x, a, (p - 1) * k);
    SmallMod(x, p);
    Fermat(p, x);
    PowNonNegative(x, p - 1);
    PowModBase(t, k, p);
    PowOne(k);
    hide Prime;
    SmallMod(1, p);
    assert Pow(t, k) % p == 1;
    ModMul(Pow(x, a), Pow(t, k), p);
    ModMulLeft(Pow(x, a), 1, p);
  }

  /** An exponent congruent to 1 does nothing. */
  lemma UnitExponent(p: nat, x: nat, t: nat)
    requires Prime(p) && p >= 3 && 0 < x < p
    requires t % (p - 1) == 1
    ensures PowMod(x, t, p) == x
  {
    SmallMod(1, p - 1);
    ExponentCongruence(p, x, t, 1);
    SmallMod(x, p);
    assert Pow(x, 1) == x * Pow(x, 0) == x;
  }

  /** A key undoes itself, and the value never leaves 1..p-1 on the way. */
  lemma DecryptEncrypt(p: nat, k: Key, x: nat)
    requires Prime(p) && ValidKey(p, k) && 0 < x < p
    ensures 0 < Encrypt(p, k, x) < p
    ensures Decrypt(p, k, Encrypt(p, k, x)) == x
  {
    PowModUnit(p, x, k.e);
    PowModMul(x, k.e, k.d, p);
    UnitExponent(p, x, k.e * k.d);
  }

  function EncryptAll(p: nat, ks: seq<Key>, x: nat): nat {
    if ks == [] then x else EncryptAll(p, ks[1..], Encrypt(p, ks[0], x))
  }

  function DecryptAll(p: nat, ks: seq<Key>, x: nat): nat {
    if ks == [] then x else DecryptAll(p, ks[1..], Decrypt(p, ks[0], x))
  }

  function EncryptExponents(ks: seq<Key>): seq<int> {
    Map((k: Key) => k.e, ks)
  }

  function DecryptExponents(ks: seq<Key>): seq<int> {
    Map((k: Key) => k.d, ks)
  }

  lemma {:induction false} ProductNonNegative(s: seq<int>)
    requires forall i :: 0 <= i < |s| ==> s[i] >= 0
    ensures Product(s) >= 0
  {
    if s != [] {
      ProductNonNegative(s[1..]);
    }
  }

  /** Encrypting under a list of keys raises to the product of their exponents. */
  lemma {:induction false} EncryptAllPower(p: nat, ks: seq<Key>, x: nat)
    requires p > 0 && x < p
    ensures Product(EncryptExponents(ks)) >= 0
    ensures EncryptAll(p, ks, x) == PowMod(x, Product(EncryptExponents(ks)), p) < p
  {
    var es := EncryptExponents(ks);
    ProductNonNegative(es);
    if ks == [] {
      SmallMod(x, p);
      assert Pow(x, 1) == x * Pow(x, 0);
    } else {
      EncryptAllPower(p, ks[1..], Encrypt(p, ks[0], x));
      assert es[1..] == EncryptExponents(ks[1..]);
      PowModMul(x, ks[0].e, Product(es[1..]), p);
    }
  }

  lemma {:induction false} DecryptAllPower(p: nat, ks: seq<Key>, x: nat)
    requires p > 0 && x < p
    ensures Product(DecryptExponents(ks)) >= 0
    ensures DecryptAll(p, ks, x) == PowMod(x, Product(DecryptExponents(ks)), p) < p
  {
    var ds := DecryptExponents(ks);
    ProductNonNegative(ds);
    if ks == [] {
      SmallMod(x, p);
      assert Pow(x, 1) == x * Pow(x, 0);
    } else {
      DecryptAllPower(p, ks[1..], Decrypt(p, ks[0], x));
      assert ds[1..] == DecryptExponents(ks[1..]);
      PowModMul(x, ks[0].d, Product(ds[1..]), p);
    }
  }

  lemma CancelStep(e: int, d: int, u: int, v: int, n: nat)
    requires n > 1 && (e * d) % n == 1 && (u * v) % n == 1
    ensures ((e * u) * (d * v)) % n == 1
  {
    assert (e * u) * (d * v) == (e * d) * (u * v);
    ModMul(e * d, u * v, n);
    SmallMod(1, n);
  }

  lemma {:induction false} ExponentsCancel(p: nat, ks: seq<Key>)
    requires p >= 3 && forall k :: k in ks ==> ValidKey(p, k)
    ensures (Product(EncryptExponents(ks)) * Product(DecryptExponents(ks))) % (p - 1) == 1
  {
    if ks == [] {
      SmallMod(1, p - 1);
    } else {
      ExponentsCancel(p, ks[1..]);
      var es, ds := EncryptExponents(ks), DecryptExponents(ks);
      assert es[1..] == EncryptExponents(ks[1..]) && ds[1..] == DecryptExponents(ks[1..]);
      assert ValidKey(p, ks[0]);
      CancelStep(ks[0].e, ks[0].d, Product(es[1..]), Product(ds[1..]), p - 1);
    }
  }

  /**
   * Commutativity: whatever is encrypted under any list of keys comes back when the same keys are
   * peeled in any order.
   */
  lemma PeelAnyOrder(p: nat, ks: seq<Key>, order: seq<Key>, x: nat)
    requires Prime(p) && p >= 3 && 0 < x < p
    requires forall k :: k in ks ==> ValidKey(p, k)
    requires multiset(order) == multiset(ks)
    ensures DecryptAll(p, order, EncryptAll(p, ks, x)) == x
  {
    var u, v := Product(EncryptExponents(ks)), Product(DecryptExponents(order));
    EncryptAllPower(p, ks, x);
    DecryptAllPower(p, order, EncryptAll(p, ks, x));
    MapPermutation((k: Key) => k.d, order, ks);
    ProductPermutation(DecryptExponents(order), DecryptExponents(ks));
    ExponentsCancel(p, ks);
    hide Prime;
    PowModMul(x, u, v, p);
    UnitExponent(p, x, u * v);
  }

  /** Every value on the way, after any prefix of encryptions and decryptions, lies in 1..p-1. */
  lemma {:induction false} NeverLeavesUnits(p: nat, ks: seq<Key>, x: nat)
    requires Prime(p) && 0 < x < p
    ensures 0 < EncryptAll(p, ks, x) < p
    ensures 0 < DecryptAll(p, ks, x) < p
    decreases |ks|
  {
    if ks != [] {
      PowModUnit(p, x, ks[0].e);
      PowModUnit(p, x, ks[0].d);
      NeverLeavesUnits(p, ks[1..], Encrypt(p, ks[0], x));
      NeverLeavesUnits(p, ks[1..], Decrypt(p, ks[0], x));
    }
  }

  // ----- padding

  function Ones(n: nat): seq<byte> {
    seq(n, i => 1)
  }

  /** Padding: ones, a zero separator, the message; targetlen bytes in all. */
  function Padded(msg: seq<byte>, targetlen: nat): (r: seq<byte>)
    requires |msg| < targetlen
    ensures |r| == targetlen
  {
    Ones(targetlen - 1 - |msg|) + [0] + msg
  }

  /** What follows the first zero byte, if there is one. */
  function AfterFirstZero(bs: seq<byte>): Option<seq<byte>> {
    if bs == [] then None else if bs[0] == 0 then Some(bs[1..]) else AfterFirstZero(bs[1..])
  }

  /** pad; it panics unless the message is shorter than the target. */
  method Pad(msg: seq<byte>, targetlen: nat) returns (r: seq<byte>)
    requires |msg| < targetlen
    ensures r == Padded(msg, targetlen)
    ensures |r| == targetlen && r[targetlen - |msg|..] == msg && r[targetlen - |msg| - 1] == 0
    ensures forall i :: 0 <= i < targetlen - |msg| - 1 ==> r[i] == 1
  {
    var padded := new byte[targetlen];
    var n := targetlen - 1 - |msg|;
    for i := 0 to n
      invariant forall j :: 0 <= j < i ==> padded[j] == 1
    {
      padded[i] := 1;
    }
    padded[n] := 0;
    for i := 0 to |msg|
      invariant forall j :: 0 <= j < n ==> padded[j] == 1
      invariant padded[n] == 0
      invariant forall j :: 0 <= j < i ==> padded[n + 1 + j] == msg[j]
    {
      padded[n + 1 + i] := msg[i];
    }
    r := padded[..];
  }

  /** unPad; None is its panic. */
  method UnPad(msg: seq<byte>) returns (r: Option<seq<byte>>)
    ensures r == AfterFirstZero(msg)
  {
    for i := 0 to |msg|
      invariant AfterFirstZero(msg) == AfterFirstZero(msg[i..])
    {
      if msg[i] == 0 {
        assert msg[i..][1..] == msg[i + 1..];
        return Some(msg[i + 1..]);
      }
      assert msg[i..][1..] == msg[i + 1..];
    }
    r := None;
  }

  /** PrepareMsg; None is its error for a message that is too long. */
  function Prepared(msg: seq<byte>, plen: nat): Option<nat> {
    var maxsize := BytesMaxSize(plen);
    if |msg| > maxsize then None else Some(ToNat(Padded(msg, maxsize + 1)))
  }

  method PrepareMsg(msg: seq<byte>, plen: nat) returns (r: Option<nat>)
    ensures r == Prepared(msg, plen)
  {
    var maxsize := BytesMaxSize(plen);
    if |msg| > maxsize {
      return None;
    }
    var padded := Pad(msg, maxsize + 1);
    r := Some(ToNat(padded));
  }

  /** ExtractMsg; None is unPad's panic. */
  function Extracted(d: nat): Option<seq<byte>> {
    AfterFirstZero(FromNat(d))
  }

  lemma {:induction false} AfterOnes(n: nat, msg: seq<byte>)
    ensures AfterFirstZero(Ones(n) + [0] + msg) == Some(msg)
  {
    var s := Ones(n) + [0] + msg;
    if n == 0 {
      assert s[1..] == msg;
    } else {
      AfterOnes(n - 1, msg);
      assert s[1..] == Ones(n - 1) + [0] + msg;
    }
  }

  lemma {:induction false} AfterFirstZeroShorter(bs: seq<byte>)
    ensures AfterFirstZero(bs).Some? ==> |AfterFirstZero(bs).value| < |bs|
  {
    if bs != [] && bs[0] != 0 {
      AfterFirstZeroShorter(bs[1..]);
    }
  }

  /** A message strictly shorter than the maximum survives, zero bytes included. */
  lemma {:induction false} AfterFirstZeroExists(bs: seq<byte>)
    ensures AfterFirstZero(bs).Some? <==> 0 in bs
  {
    if bs != [] && bs[0] != 0 {
      AfterFirstZeroExists(bs[1..]);
      assert bs == [bs[0]] + bs[1..];
    }
  }

  lemma PrepareExtract(msg: seq<byte>, plen: nat)
    requires |msg| < BytesMaxSize(plen)
    ensures Prepared(msg, plen).Some?
    ensures Extracted(Prepared(msg, plen).value) == Some(msg)
  {
    var padded := Padded(msg, BytesMaxSize(plen) + 1);
    assert padded[0] == 1;
    FromToNatCanonical(padded);
    AfterOnes(BytesMaxSize(plen) - |msg|, msg);
  }

  /** At the maximum the separator is the leading byte and is lost: what comes back is shorter, or a panic. */
  lemma PrepareExtractAtMaximum(msg: seq<byte>, plen: nat)
    requires |msg| == BytesMaxSize(plen)
    ensures Prepared(msg, plen).Some?
    ensures Extracted(Prepared(msg, plen).value) == AfterFirstZero(StripZeros(msg))
    ensures AfterFirstZero(StripZeros(msg)).Some? ==> |AfterFirstZero(StripZeros(msg)).value| < |msg|
  {
    assert Padded(msg, |msg| + 1) == [0] + msg;
    ToNatLeadingZero(msg);
    FromToNat(msg);
    AfterFirstZeroShorter(StripZeros(msg));
  }

  /** The round trip holds for exactly the messages strictly below the maximum size. */
  lemma RoundTripExactly(msg: seq<byte>, plen: nat)
    requires |msg| <= BytesMaxSize(plen)
    ensures Prepared(msg, plen).Some?
    ensures Extracted(Prepared(msg, plen).value) == Some(msg) <==> |msg| < BytesMaxSize(plen)
  {
    if |msg| < BytesMaxSize(plen) {
      PrepareExtract(msg, plen);
    } else {
      PrepareExtractAtMaximum(msg, plen);
    }
  }

  /** PrepareMsg accepts exactly up to the maximum, so it lets the lossy size through. */
  lemma AcceptsLossyMessage()
    ensures Prepared([13, 13], BitsMaxSize(2)).Some?
    ensures Extracted(Prepared([13, 13], BitsMaxSize(2)).value) == None
  {
    PrepareExtractAtMaximum([13, 13], 25);
    assert AfterFirstZero([13, 13]) == AfterFirstZero([13]) == AfterFirstZero([]) by {
      assert [13, 13][1..] == [13] && [13][1..] == [];
    }
  }

  /**
   * A prepared message is below every modulus of its bit length. It is at least 1 below the
   * maximum size, and at the maximum size when its first byte is not zero.
   */
  lemma PreparedInRange(msg: seq<byte>, p: nat)
    requires Prepared(msg, BitLen(p)).Some?
    ensures Prepared(msg, BitLen(p)).value < Pow(2, BitLen(p) - 1) <= p
    ensures |msg| < BytesMaxSize(BitLen(p)) || (msg != [] && msg[0] != 0) ==> Prepared(msg, BitLen(p)).value >= 1
  {
    hide Pow, ToNat, BitLen;
    var max := BytesMaxSize(BitLen(p));
    var padded := Padded(msg, max + 1);
    assert p > 0 by {
      BitLenZero(p);
    }
    BitLenBounds(p);
    ToNatBound(padded);
    PowTwoMonotone(8 * (max + 1), BitLen(p) - 1);
    if |msg| < max {
      ToNatPositive(padded);
    } else if msg != [] && msg[0] != 0 {
      assert padded == [0] + msg;
      ToNatLeadingZero(msg);
      ToNatPositive(msg);
    }
  }

  /**
   * BitsMaxSize and bytesMaxSize are inverse on byte counts, and BitsMaxSize is the least such key length. The padded
   * message has one byte more than the maximum size, and that is the most that has fewer bits than the key.
   */
  lemma BitsBytesInverse(bytes: nat, bits: nat)
    ensures BytesMaxSize(BitsMaxSize(bytes)) == bytes
    ensures BytesMaxSize(bits) >= bytes <==> bits >= BitsMaxSize(bytes)
    ensures bits > 0 ==> 8 * (BytesMaxSize(bits) + 1) < bits <= 8 * (BytesMaxSize(bits) + 2)
  {
  }

  /** VerifySysKey accepts exactly the primes of the wanted bit length. */
  lemma VerifySysKeyExactly(p: nat, bits: nat)
    requires bits > 0
    ensures VerifySysKey(p, bits) <==> Prime(p) && Pow(2, bits - 1) <= p < Pow(2, bits)
  {
    hide Pow, BitLen;
    if p > 0 {
      BitLenBounds(p);
      if BitLen(p) < bits {
        PowTwoMonotone(BitLen(p), bits - 1);
      } else if BitLen(p) > bits {
        PowTwoMonotone(bits, BitLen(p) - 1);
      }
    }
  }
}
