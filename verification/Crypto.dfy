/** Messages, keys and the cipher adapter of anonbcast/crypto.go: everything travels as byte strings. */
module Crypto {
  import opened Bytes
  import opened NumberTheory
  import opened MasseyOmura

  /** A message; no bytes is the nil message. */
  datatype Msg = Msg(m: seq<byte>) {
    predicate Nil() { m == [] }
    function Value(): nat { ToNat(m) }
  }

  const NilMsg: Msg := Msg([])

  function NewMsg(n: nat): Msg { Msg(FromNat(n)) }

  datatype PrivateKey = PrivateKey(e: seq<byte>, d: seq<byte>) {
    predicate Nil() { e == [] }
    function Pair(): Key { Key(ToNat(e), ToNat(d)) }
  }

  const NilPrivateKey: PrivateKey := PrivateKey([], [])

  /** SHA-256 is any function to 32-byte strings. */
  type Sha256 = h: seq<byte> -> seq<byte> | forall x :: |h(x)| == 32
    witness (x: seq<byte>) => seq<byte>(32, i => 0)

  function HashKey(sha: Sha256, key: PrivateKey): (h: seq<byte>)
    ensures |h| == 32
  {
    sha(key.e + key.d)
  }

  /** The Massey-Omura instance of a round, given by the bytes of its modulus. */
  datatype Crypto = MasseyOmuraCrypto(p: seq<byte>) {
    function P(): nat { ToNat(p) }

    predicate Verify(messageSize: int) {
      VerifySysKey(P(), BitsMaxSize(messageSize))
    }

    function PrepareMsg(msg: seq<byte>): Option<Msg> {
      match Prepared(msg, BitLen(P()))
      case None => None
      case Some(m) => Some(NewMsg(m))
    }

    function Encrypt(key: PrivateKey, m: Msg): Msg {
      NewMsg(MasseyOmura.Encrypt(P(), key.Pair(), m.Value()))
    }

    function Decrypt(key: PrivateKey, m: Msg): Msg {
      NewMsg(MasseyOmura.Decrypt(P(), key.Pair(), m.Value()))
    }

    function ExtractMsg(m: Msg): Option<seq<byte>> {
      Extracted(m.Value())
    }

    /** A key as GenKey returns it. */
    predicate Generates(key: PrivateKey) {
      ValidKey(P(), key.Pair())
    }
  }

  /**
   * The bytes of a modulus are a crypto over it, and it verifies exactly if the modulus is a prime of the right
   * length.
   */
  lemma VerifyExactly(p: nat, messageSize: nat)
    ensures MasseyOmuraCrypto(FromNat(p)).P() == p
    ensures MasseyOmuraCrypto(FromNat(p)).Verify(messageSize)
            <==> Prime(p) && Pow(2, 8 * (messageSize + 1)) <= p < Pow(2, 8 * (messageSize + 1) + 1)
  {
    ToFromNat(p);
    hide Prime, Pow, BitLen, VerifySysKey;
    VerifySysKeyExactly(p, 8 * (messageSize + 1) + 1);
  }

  // ----- what a key's hash commits to

  /** Two keys with the same hash have the same bytes, E followed by D. */
  predicate NoCollision(sha: Sha256, a: PrivateKey, b: PrivateKey) {
    sha(a.e + a.d) == sha(b.e + b.d) ==> a.e + a.d == b.e + b.d
  }

  /** Up to collisions of SHA-256 itself, the hash determines exactly the bytes E followed by D. */
  lemma HashKeyExactly(sha: Sha256, a: PrivateKey, b: PrivateKey)
    requires NoCollision(sha, a, b)
    ensures HashKey(sha, a) == HashKey(sha, b) <==> a.e + a.d == b.e + b.d
  {
  }

  function Constant(b: byte): (s: seq<byte>)
    ensures |s| == 32 && s[0] == b
  {
    seq<byte>(32, i => b)
  }

  /** A hash function under which two keys have the same hash exactly if they have the same bytes, E followed by D. */
  lemma HashKeyTells(a: PrivateKey, b: PrivateKey) returns (sha: Sha256)
    ensures HashKey(sha, a) == HashKey(sha, b) <==> a.e + a.d == b.e + b.d
  {
    var bytes := a.e + a.d;
    hide Constant;
    sha := (x: seq<byte>) => if x == bytes then Constant(1) else Constant(0);
    assert Constant(0)[0] != Constant(1)[0];
  }

  /** GenKey: the byte form of a generated exponent pair; None is a failing random source. */
  method GenKey(c: Crypto, draws: seq<nat>) returns (r: Option<PrivateKey>)
    requires c.P() >= 3
    requires forall x :: x in draws ==> x < c.P() - 2
    ensures r.Some? ==> c.Generates(r.value) && !r.value.Nil()
    ensures r.Some? ==> exists i :: 0 <= i < |draws| && r.value.Pair().e == draws[i] + 1
                                    && forall j :: 0 <= j < i ==> Gcd(draws[j] + 1, c.P() - 1) != 1
    ensures r.None? <==> forall i :: 0 <= i < |draws| ==> Gcd(draws[i] + 1, c.P() - 1) != 1
  {
    var k := GenUserKey(c.P(), draws);
    if k.None? {
      return None;
    }
    ToFromNat(k.value.e);
    ToFromNat(k.value.d);
    r := Some(PrivateKey(FromNat(k.value.e), FromNat(k.value.d)));
  }

  /** Msg.Equal compares lengths and then every byte. */
  method MsgEqual(a: Msg, b: Msg) returns (ok: bool)
    ensures ok <==> a == b
  {
    if |a.m| != |b.m| {
      return false;
    }
    for i := 0 to |a.m|
      invariant a.m[..i] == b.m[..i]
    {
      if a.m[i] != b.m[i] {
        return false;
      }
    }
    ok := true;
  }

  /** PrivateKey.HashEquals compares the key's own hash with the given one. */
  method HashEquals(sha: Sha256, key: PrivateKey, hash: seq<byte>) returns (ok: bool)
    ensures ok <==> hash == sha(key.e + key.d)
    ensures ok <==> HashKey(sha, key) == hash
  {
    var meHash := HashKey(sha, key);
    if |hash| != |meHash| {
      return false;
    }
    for i := 0 to |meHash|
      invariant meHash[..i] == hash[..i]
    {
      if meHash[i] != hash[i] {
        return false;
      }
    }
    ok := true;
  }

  lemma NewMsgValue(n: nat)
    ensures NewMsg(n).Value() == n
    ensures NewMsg(n).Nil() <==> n == 0
  {
    ToFromNat(n);
    FromNatEmpty(n);
  }

  /**
   * What CommutativeCrypto promises, through the byte encodings: decryption undoes encryption, and
   * a message that is not nil never becomes nil.
   */
  lemma AdapterDecryptEncrypt(c: Crypto, key: PrivateKey, x: nat)
    requires Prime(c.P()) && c.Generates(key) && 0 < x < c.P()
    ensures !c.Encrypt(key, NewMsg(x)).Nil()
    ensures c.Decrypt(key, c.Encrypt(key, NewMsg(x))) == NewMsg(x)
  {
    var k := key.Pair();
    NewMsgValue(x);
    NewMsgValue(MasseyOmura.Encrypt(c.P(), k, x));
    DecryptEncrypt(c.P(), k, x);
  }
}
