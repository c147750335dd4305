/** Messages wrapped in layers of keys, one message at a time and by the list. */
module Layers {
  import opened Seqs
  import opened NumberTheory
  import opened MasseyOmura
  import opened Crypto
  import opened Rounds

  // ----- choosing keys by flags

  /** The keys whose flag is set. */
  function Select(ks: seq<Key>, flags: seq<bool>): seq<Key>
    requires |ks| == |flags|
  {
    if ks == [] then [] else (if flags[0] then [ks[0]] else []) + Select(ks[1..], flags[1..])
  }

  function Negate(flags: seq<bool>): (r: seq<bool>)
    ensures |r| == |flags| && forall i :: 0 <= i < |flags| ==> r[i] == !flags[i]
  {
    seq(|flags|, i requires 0 <= i < |flags| => !flags[i])
  }

  lemma {:induction false} SelectSet(ks: seq<Key>, flags: seq<bool>, p: nat)
    requires |ks| == |flags| && p < |flags| && !flags[p]
    ensures multiset(Select(ks, flags[p := true])) == multiset(Select(ks, flags)) + multiset{ks[p]}
  {
    var after := flags[p := true];
    if p == 0 {
      assert after[1..] == flags[1..];
    } else {
      SelectSet(ks[1..], flags[1..], p - 1);
      assert after[1..] == flags[1..][p - 1 := true];
    }
  }

  lemma {:induction false} SelectExtremes(ks: seq<Key>, flags: seq<bool>)
    requires |ks| == |flags|
    ensures AllSet(flags) ==> Select(ks, flags) == ks
    ensures NoneSet(flags) ==> Select(ks, flags) == []
  {
    if ks != [] {
      SelectExtremes(ks[1..], flags[1..]);
      assert forall i :: 0 <= i < |flags| - 1 ==> flags[1..][i] == flags[i + 1];
      assert ks == [ks[0]] + ks[1..];
    }
  }

  lemma {:induction false} SelectSubset(ks: seq<Key>, flags: seq<bool>, k: Key)
    requires |ks| == |flags| && k in Select(ks, flags)
    ensures k in ks
  {
    if !(flags[0] && k == ks[0]) {
      SelectSubset(ks[1..], flags[1..], k);
    }
  }

  // ----- one message

  /** The message for plaintext x under a list of keys. */
  function Wrap(c: Crypto, ks: seq<Key>, x: nat): Msg {
    NewMsg(EncryptAll(c.P(), ks, x))
  }

  predicate Sound(c: Crypto) {
    Prime(c.P()) && c.P() >= 3
  }

  lemma EncryptAllPermutation(p: nat, a: seq<Key>, b: seq<Key>, x: nat)
    requires p > 0 && x < p && multiset(a) == multiset(b)
    ensures EncryptAll(p, a, x) == EncryptAll(p, b, x)
  {
    EncryptAllPower(p, a, x);
    EncryptAllPower(p, b, x);
    MapPermutation((k: Key) => k.e, a, b);
    ProductPermutation(EncryptExponents(a), EncryptExponents(b));
  }

  lemma {:induction false} EncryptAllSnoc(p: nat, ks: seq<Key>, k: Key, x: nat)
    ensures EncryptAll(p, ks + [k], x) == MasseyOmura.Encrypt(p, k, EncryptAll(p, ks, x))
    decreases |ks|
  {
    if ks == [] {
      assert ks + [k] == [k];
      assert EncryptAll(p, [k], x) == EncryptAll(p, [], MasseyOmura.Encrypt(p, k, x));
    } else {
      assert (ks + [k])[1..] == ks[1..] + [k];
      EncryptAllSnoc(p, ks[1..], k, MasseyOmura.Encrypt(p, ks[0], x));
    }
  }

  /** Encrypting adds one layer, wherever the key stands in the list. */
  lemma WrapMore(c: Crypto, ks: seq<Key>, key: PrivateKey, out: seq<Key>, x: nat)
    requires 0 < x < c.P()
    requires multiset(out) == multiset(ks) + multiset{key.Pair()}
    ensures c.Encrypt(key, Wrap(c, ks, x)) == Wrap(c, out, x)
  {
    var k := key.Pair();
    NewMsgValue(EncryptAll(c.P(), ks, x));
    EncryptAllSnoc(c.P(), ks, k, x);
    EncryptAllPermutation(c.P(), ks + [k], out, x);
  }

  /** Decrypting removes one layer, wherever the key stands in the list. */
  lemma WrapLess(c: Crypto, ks: seq<Key>, key: PrivateKey, out: seq<Key>, x: nat)
    requires Sound(c) && 0 < x < c.P() && c.Generates(key)
    requires multiset(ks) == multiset(out) + multiset{key.Pair()}
    ensures c.Decrypt(key, Wrap(c, ks, x)) == Wrap(c, out, x)
  {
    NeverLeavesUnits(c.P(), out, x);
    AdapterDecryptEncrypt(c, key, EncryptAll(c.P(), out, x));
    WrapMore(c, out, key, ks, x);
  }

  lemma WrapNotNil(c: Crypto, ks: seq<Key>, x: nat)
    requires Sound(c) && 0 < x < c.P()
    ensures !Wrap(c, ks, x).Nil()
  {
    NeverLeavesUnits(c.P(), ks, x);
    NewMsgValue(EncryptAll(c.P(), ks, x));
  }

  // ----- the lists the clients compute

  /** What encrypt sends: everything under the key, except the client's own message. */
  function EncryptOthers(c: Crypto, key: PrivateKey, me: int, messages: seq<Msg>): (r: seq<Msg>)
    ensures |r| == |messages|
    ensures forall i :: 0 <= i < |messages| ==> r[i] == if i == me then messages[i] else c.Encrypt(key, messages[i])
  {
    seq(|messages|, i requires 0 <= i < |messages| => if i == me then messages[i] else c.Encrypt(key, messages[i]))
  }

  /** What scramble sends, before the shuffle. */
  function EncryptTwice(c: Crypto, scrambleKey: PrivateKey, revealKey: PrivateKey, messages: seq<Msg>): seq<Msg> {
    Map((m: Msg) => c.Encrypt(revealKey, c.Encrypt(scrambleKey, m)), messages)
  }

  /** What decrypt sends. */
  function DecryptTwice(c: Crypto, scrambleKey: PrivateKey, encryptKey: PrivateKey, messages: seq<Msg>): seq<Msg> {
    Map((m: Msg) => c.Decrypt(encryptKey, c.Decrypt(scrambleKey, m)), messages)
  }

  /** One message after all the reveal keys have been taken off, in the given order. */
  function Peel(c: Crypto, keys: seq<PrivateKey>, m: Msg): Msg {
    if keys == [] then m else Peel(c, keys[1..], c.Decrypt(keys[0], m))
  }

  function PeelAll(c: Crypto, keys: seq<PrivateKey>, messages: seq<Msg>): seq<Msg> {
    Map((m: Msg) => Peel(c, keys, m), messages)
  }

  // ----- all messages under the same layers

  function Layered(c: Crypto, ks: seq<Key>, plains: seq<nat>): (r: seq<Msg>)
    ensures |r| == |plains|
    ensures forall i :: 0 <= i < |plains| ==> r[i] == Wrap(c, ks, plains[i])
  {
    seq(|plains|, i requires 0 <= i < |plains| => Wrap(c, ks, plains[i]))
  }

  predicate Units(c: Crypto, plains: seq<nat>) {
    forall i :: 0 <= i < |plains| ==> 0 < plains[i] < c.P()
  }

  /** The messages are the plaintexts under the layers ks, in some order. */
  predicate Shuffled(c: Crypto, ks: seq<Key>, plains: seq<nat>, messages: seq<Msg>) {
    multiset(messages) == multiset(Layered(c, ks, plains))
  }

  lemma ShuffledNotNil(c: Crypto, ks: seq<Key>, plains: seq<nat>, messages: seq<Msg>)
    requires Sound(c) && Units(c, plains) && Shuffled(c, ks, plains, messages)
    ensures |messages| == |plains| && AllSubmitted(messages)
  {
    var layered := Layered(c, ks, plains);
    SameLength(messages, layered);
    forall i | 0 <= i < |messages| ensures !messages[i].Nil() {
      assert messages[i] in multiset(layered);
      var j :| 0 <= j < |layered| && layered[j] == messages[i];
      WrapNotNil(c, ks, plains[j]);
    }
  }

  lemma ShuffledPermuteLayers(c: Crypto, ks: seq<Key>, out: seq<Key>, plains: seq<nat>, messages: seq<Msg>)
    requires Units(c, plains) && Shuffled(c, ks, plains, messages)
    requires multiset(ks) == multiset(out)
    ensures Shuffled(c, out, plains, messages)
  {
    forall i | 0 <= i < |plains| ensures Wrap(c, ks, plains[i]) == Wrap(c, out, plains[i]) {
      EncryptAllPermutation(c.P(), ks, out, plains[i]);
    }
    assert Layered(c, ks, plains) == Layered(c, out, plains);
  }

  /** Scrambling adds the two layers and loses the order. */
  lemma ScrambleStep(c: Crypto, ks: seq<Key>, out: seq<Key>, s: PrivateKey, r: PrivateKey,
                     plains: seq<nat>, messages: seq<Msg>, sent: seq<Msg>)
    requires Units(c, plains) && Shuffled(c, ks, plains, messages)
    requires multiset(sent) == multiset(EncryptTwice(c, s, r, messages))
    requires multiset(out) == multiset(ks) + multiset{s.Pair()} + multiset{r.Pair()}
    ensures Shuffled(c, out, plains, sent)
  {
    var f := (m: Msg) => c.Encrypt(r, c.Encrypt(s, m));
    var layered := Layered(c, ks, plains);
    assert EncryptTwice(c, s, r, messages) == Map(f, messages);
    MapPermutation(f, messages, layered);
    forall i | 0 <= i < |plains| ensures f(layered[i]) == Wrap(c, out, plains[i]) {
      WrapMore(c, ks, s, ks + [s.Pair()], plains[i]);
      WrapMore(c, ks + [s.Pair()], r, out, plains[i]);
    }
    assert Map(f, layered) == Layered(c, out, plains);
  }

  /** Decrypting removes the two layers. */
  lemma DecryptStep(c: Crypto, ks: seq<Key>, out: seq<Key>, s: PrivateKey, e: PrivateKey,
                    plains: seq<nat>, messages: seq<Msg>)
    requires Sound(c) && c.Generates(s) && c.Generates(e)
    requires Units(c, plains) && Shuffled(c, ks, plains, messages)
    requires multiset(ks) == multiset(out) + multiset{e.Pair()} + multiset{s.Pair()}
    ensures Shuffled(c, out, plains, DecryptTwice(c, s, e, messages))
  {
    var f := (m: Msg) => c.Decrypt(e, c.Decrypt(s, m));
    var layered := Layered(c, ks, plains);
    assert DecryptTwice(c, s, e, messages) == Map(f, messages);
    MapPermutation(f, messages, layered);
    forall i | 0 <= i < |plains| ensures f(layered[i]) == Wrap(c, out, plains[i]) {
      WrapLess(c, ks, s, out + [e.Pair()], plains[i]);
      WrapLess(c, out + [e.Pair()], e, out, plains[i]);
    }
    assert Map(f, layered) == Layered(c, out, plains);
  }

  /** Taking off all layers gives the plaintexts back. */
  lemma {:induction false} PeelWrap(c: Crypto, keys: seq<PrivateKey>, ks: seq<Key>, x: nat)
    requires Sound(c) && 0 < x < c.P()
    requires forall i :: 0 <= i < |keys| ==> c.Generates(keys[i])
    requires |ks| == |keys| && forall i :: 0 <= i < |keys| ==> ks[i] == keys[i].Pair()
    ensures Peel(c, keys, Wrap(c, ks, x)) == NewMsg(x)
    decreases |keys|
  {
    if keys != [] {
      assert ks == [ks[0]] + ks[1..];
      WrapLess(c, ks, keys[0], ks[1..], x);
      PeelWrap(c, keys[1..], ks[1..], x);
    }
  }

  lemma PeelStep(c: Crypto, keys: seq<PrivateKey>, ks: seq<Key>, plains: seq<nat>, messages: seq<Msg>)
    requires Sound(c) && Units(c, plains) && Shuffled(c, ks, plains, messages)
    requires forall i :: 0 <= i < |keys| ==> c.Generates(keys[i])
    requires |ks| == |keys| && forall i :: 0 <= i < |keys| ==> ks[i] == keys[i].Pair()
    ensures multiset(PeelAll(c, keys, messages)) == multiset(Layered(c, [], plains))
  {
    var f := (m: Msg) => Peel(c, keys, m);
    var layered := Layered(c, ks, plains);
    MapPermutation(f, messages, layered);
    assert PeelAll(c, keys, messages) == Map(f, messages);
    forall i | 0 <= i < |plains| ensures f(layered[i]) == Wrap(c, [], plains[i]) {
      PeelWrap(c, keys, ks, plains[i]);
    }
    assert Map(f, layered) == Layered(c, [], plains);
  }
}
