/**
 * What a round looks like while its participants follow the protocol: which layers every message
 * carries in every phase, and why each accepted operation keeps it so.
 */
module Honest {
  import opened NumberTheory
  import opened Bytes
  import opened MasseyOmura
  import opened Crypto
  import opened Ops
  import opened Rounds
  import opened Layers
  import opened ClientSteps

  // ----- what the clients have chosen

  /** The keys a client generated for a round, and the crypto it verified before doing so. */
  datatype Session = Session(crypto: Crypto, keys: Keys)

  /** All choices so far, by client and round: the keys, what the clients said, and the texts that they meant by it. */
  datatype History = History(
    sessions: map<(Uuid, int), Session>,
    said: map<(Uuid, int), Said>,
    texts: map<(Uuid, int), seq<byte>>)

  predicate SessionOk(size: nat, s: Session) {
    s.crypto.Verify(size + HeaderLength) && AdmissibleKeys(s.crypto, s.keys)
  }

  predicate TextOk(size: nat, text: seq<byte>) {
    HeaderLength <= |text| <= size + HeaderLength && ValidHeader(text[..HeaderLength])
  }

  predicate HistoryOk(size: nat, h: History) {
    && (forall k :: k in h.sessions ==> SessionOk(size, h.sessions[k]))
    && (forall k :: k in h.texts ==> k in h.sessions && TextOk(size, h.texts[k]))
    && (forall k :: k in h.texts ==> k in h.said && Means(size, h.said[k], h.texts[k]))
    && (forall k :: k in h.said ==> k in h.texts)
  }

  predicate Means(size: nat, w: Said, text: seq<byte>) {
    w.Ok() && text == Worded(size, w)
  }

  /** Choices are never taken back. */
  predicate Extends(h: History, g: History) {
    && (forall k :: k in h.sessions ==> k in g.sessions && g.sessions[k] == h.sessions[k])
    && (forall k :: k in h.texts ==> k in g.texts && g.texts[k] == h.texts[k])
    && (forall k :: k in h.said ==> k in g.said && g.said[k] == h.said[k])
  }

  lemma SessionSound(size: nat, s: Session)
    requires SessionOk(size, s)
    ensures Sound(s.crypto)
    ensures BytesMaxSize(BitLen(s.crypto.P())) == size + HeaderLength
  {
    var p := s.crypto.P();
    BitsBytesInverse(size + HeaderLength, 0);
    assert Prime(p) && p >= 3 by {
      assert BitLen(p) > 2;
    }
  }

  lemma PlainUnit(size: nat, s: Session, text: seq<byte>)
    requires SessionOk(size, s) && TextOk(size, text)
    ensures Prepared(text, BitLen(s.crypto.P())).Some?
    ensures 0 < Plain(s.crypto, text) < s.crypto.P()
  {
    SessionSound(size, s);
    assert text[0] == text[..HeaderLength][0] == 13;
    PreparedInRange(text, s.crypto.P());
  }

  // ----- the participants' keys and plaintexts, in participant order

  /** Participant i has a session and a text for the round, under the round's crypto, and its hash is stored. */
  predicate KnownAt(sha: Sha256, h: History, ri: RoundInfo, r: int, i: nat)
    requires Shape(ri) && i < |ri.participants|
  {
    var k := (ri.participants[i], r);
    && k in h.sessions && k in h.texts
    && ri.crypto == Some(h.sessions[k].crypto)
    && ri.revealKeyHashes[i] == HashKey(sha, h.sessions[k].keys.revealKey)
  }

  predicate Known(sha: Sha256, h: History, ri: RoundInfo, r: int) {
    && Shape(ri) && ri.crypto.Some?
    && forall i :: 0 <= i < |ri.participants| ==> KnownAt(sha, h, ri, r, i)
  }

  predicate HasSessions(h: History, ids: seq<Uuid>, r: int) {
    forall i :: 0 <= i < |ids| ==> (ids[i], r) in h.sessions
  }

  function EncryptKeys(h: History, ids: seq<Uuid>, r: int): (ks: seq<Key>)
    requires HasSessions(h, ids, r)
    ensures |ks| == |ids|
    ensures forall i :: 0 <= i < |ids| ==> ks[i] == h.sessions[(ids[i], r)].keys.encryptKey.Pair()
  {
    seq(|ids|, i requires 0 <= i < |ids| => h.sessions[(ids[i], r)].keys.encryptKey.Pair())
  }

  function ScrambleKeys(h: History, ids: seq<Uuid>, r: int): (ks: seq<Key>)
    requires HasSessions(h, ids, r)
    ensures |ks| == |ids|
    ensures forall i :: 0 <= i < |ids| ==> ks[i] == h.sessions[(ids[i], r)].keys.scrambleKey.Pair()
  {
    seq(|ids|, i requires 0 <= i < |ids| => h.sessions[(ids[i], r)].keys.scrambleKey.Pair())
  }

  function RevealKeys(h: History, ids: seq<Uuid>, r: int): (ks: seq<Key>)
    requires HasSessions(h, ids, r)
    ensures |ks| == |ids|
    ensures forall i :: 0 <= i < |ids| ==> ks[i] == h.sessions[(ids[i], r)].keys.revealKey.Pair()
  {
    seq(|ids|, i requires 0 <= i < |ids| => h.sessions[(ids[i], r)].keys.revealKey.Pair())
  }

  /** The texts the participants submitted. */
  function Texts(h: History, ids: seq<Uuid>, r: int): (ts: seq<seq<byte>>)
    requires forall i :: 0 <= i < |ids| ==> (ids[i], r) in h.texts
    ensures |ts| == |ids|
    ensures forall i :: 0 <= i < |ids| ==> ts[i] == h.texts[(ids[i], r)]
  {
    seq(|ids|, i requires 0 <= i < |ids| => h.texts[(ids[i], r)])
  }

  function Plains(c: Crypto, texts: seq<seq<byte>>): (ps: seq<nat>)
    ensures |ps| == |texts|
    ensures forall i :: 0 <= i < |texts| ==> ps[i] == Plain(c, texts[i])
  {
    seq(|texts|, i requires 0 <= i < |texts| => Plain(c, texts[i]))
  }

  lemma KnownHasSessions(sha: Sha256, h: History, ri: RoundInfo, r: int)
    requires Known(sha, h, ri, r)
    ensures HasSessions(h, ri.participants, r)
    ensures forall i :: 0 <= i < |ri.participants| ==> (ri.participants[i], r) in h.texts
  {
    forall i | 0 <= i < |ri.participants|
      ensures (ri.participants[i], r) in h.sessions && (ri.participants[i], r) in h.texts
    {
      assert KnownAt(sha, h, ri, r, i);
    }
  }

  /** The plaintexts of a round whose participants are all known. */
  function RoundPlains(sha: Sha256, h: History, ri: RoundInfo, r: int): (ps: seq<nat>)
    requires Known(sha, h, ri, r)
    ensures |ps| == |ri.participants|
    ensures forall i :: 0 <= i < |ps| ==>
      (ri.participants[i], r) in h.texts && ps[i] == Plain(ri.crypto.value, h.texts[(ri.participants[i], r)])
  {
    KnownHasSessions(sha, h, ri, r);
    Plains(ri.crypto.value, Texts(h, ri.participants, r))
  }

  lemma KnownUnits(size: nat, sha: Sha256, h: History, ri: RoundInfo, r: int)
    requires HistoryOk(size, h) && Known(sha, h, ri, r) && ri.participants != []
    ensures Sound(ri.crypto.value)
    ensures Units(ri.crypto.value, RoundPlains(sha, h, ri, r))
  {
    forall i | 0 <= i < |ri.participants|
      ensures Sound(ri.crypto.value) && 0 < RoundPlains(sha, h, ri, r)[i] < ri.crypto.value.P()
    {
      assert KnownAt(sha, h, ri, r, i);
      var k := (ri.participants[i], r);
      SessionSound(size, h.sessions[k]);
      PlainUnit(size, h.sessions[k], h.texts[k]);
    }
    assert Sound(ri.crypto.value) by {
      assert KnownAt(sha, h, ri, r, 0);
      SessionSound(size, h.sessions[(ri.participants[0], r)]);
    }
  }

  // ----- the layers in each phase

  /** Submit: a message that is there carries its owner's encrypt key. */
  predicate SubmitLayers(sha: Sha256, h: History, ri: RoundInfo, r: int)
    requires Shape(ri) && |ri.messages| == |ri.participants|
  {
    forall i :: 0 <= i < |ri.messages| && !ri.messages[i].Nil() ==>
      var k := (ri.participants[i], r);
      && KnownAt(sha, h, ri, r, i)
      && ri.messages[i] == Wrap(ri.crypto.value, [h.sessions[k].keys.encryptKey.Pair()],
                                Plain(ri.crypto.value, h.texts[k]))
  }

  /** Encrypt: message i is under its owner's key and the key of every participant that has encrypted. */
  predicate EncryptLayers(sha: Sha256, h: History, ri: RoundInfo, r: int)
    requires Known(sha, h, ri, r)
  {
    KnownHasSessions(sha, h, ri, r);
    var es, ps := EncryptKeys(h, ri.participants, r), RoundPlains(sha, h, ri, r);
    && |ri.messages| == |ri.participants|
    && forall i :: 0 <= i < |ri.messages| ==>
         ri.messages[i] == Wrap(ri.crypto.value, Select(es, ri.encrypted[i := true]), ps[i])
  }

  /** Scramble: all encrypt keys, and the scramble and reveal keys of those who have scrambled. */
  function ScrambleStack(h: History, ri: RoundInfo, r: int): seq<Key>
    requires Shape(ri) && HasSessions(h, ri.participants, r)
  {
    EncryptKeys(h, ri.participants, r)
    + Select(ScrambleKeys(h, ri.participants, r), ri.scrambled)
    + Select(RevealKeys(h, ri.participants, r), ri.scrambled)
  }

  /** Decrypt: all reveal keys, and the encrypt and scramble keys of those who have not decrypted. */
  function DecryptStack(h: History, ri: RoundInfo, r: int): seq<Key>
    requires Shape(ri) && HasSessions(h, ri.participants, r)
  {
    RevealKeys(h, ri.participants, r)
    + Select(EncryptKeys(h, ri.participants, r), Negate(ri.decrypted))
    + Select(ScrambleKeys(h, ri.participants, r), Negate(ri.decrypted))
  }

  predicate UnderStack(sha: Sha256, h: History, ri: RoundInfo, r: int, stack: seq<Key>)
    requires Known(sha, h, ri, r)
  {
    Shuffled(ri.crypto.value, stack, RoundPlains(sha, h, ri, r), ri.messages)
  }

  /** Reveal keys that are there are their owners'. */
  predicate KeysRevealed(h: History, ri: RoundInfo, r: int)
    requires Shape(ri) && HasSessions(h, ri.participants, r)
  {
    forall i :: 0 <= i < |ri.revealedKeys| ==>
      ri.revealedKeys[i].Nil() || ri.revealedKeys[i] == h.sessions[(ri.participants[i], r)].keys.revealKey
  }

  predicate EncryptPhase(sha: Sha256, h: History, ri: RoundInfo, r: int) {
    Known(sha, h, ri, r) && EncryptLayers(sha, h, ri, r)
  }

  predicate ScramblePhase(sha: Sha256, h: History, ri: RoundInfo, r: int) {
    && Known(sha, h, ri, r) && HasSessions(h, ri.participants, r)
    && UnderStack(sha, h, ri, r, ScrambleStack(h, ri, r))
  }

  predicate DecryptPhase(sha: Sha256, h: History, ri: RoundInfo, r: int) {
    && Known(sha, h, ri, r) && HasSessions(h, ri.participants, r)
    && UnderStack(sha, h, ri, r, DecryptStack(h, ri, r))
  }

  predicate RevealPhase(sha: Sha256, h: History, ri: RoundInfo, r: int) {
    && Known(sha, h, ri, r) && HasSessions(h, ri.participants, r)
    && UnderStack(sha, h, ri, r, RevealKeys(h, ri.participants, r)) && KeysRevealed(h, ri, r)
  }

  /** The layer invariant of a round. */
  predicate LayerInvariant(sha: Sha256, h: History, ri: RoundInfo, r: int)
    requires Shape(ri) && |ri.messages| == |ri.participants|
  {
    match ri.phase
    case Submit => SubmitLayers(sha, h, ri, r)
    case Encrypt => EncryptPhase(sha, h, ri, r)
    case Scramble => ScramblePhase(sha, h, ri, r)
    case Decrypt => DecryptPhase(sha, h, ri, r)
    case Reveal => RevealPhase(sha, h, ri, r)
    case Done => RevealPhase(sha, h, ri, r)
    case _ => true
  }

  /** The assertions of RoundInfo.checkRep. */
  predicate CheckRep(ri: RoundInfo) {
    var n := |ri.participants|;
    && |ri.messages| == n && |ri.encrypted| == n && |ri.scrambled| == n && |ri.decrypted| == n
    && |ri.revealedKeys| == n && |ri.revealKeyHashes| == n
    && (ri.phase.Unset? || ri.phase.Prepare? || ri.phase.Failed? || ri.crypto.Some?)
    && (ri.phase.Prepare? ==> ri.crypto.None?)
    && PrefixClosed(ri.scrambled)
    && Distinct(ri.participants)
    && forall i :: 0 <= i < n ==> (ri.messages[i].Nil() <==> ri.revealKeyHashes[i] == [])
  }

  predicate RoundGood(sha: Sha256, h: History, ri: RoundInfo, r: int) {
    RepInvariant(ri) && CheckRep(ri) && LayerInvariant(sha, h, ri, r)
  }

  // ----- what an honest operation contains

  predicate Mine(h: History, ri: RoundInfo, id: Uuid, r: int) {
    (id, r) in h.sessions && ri.crypto == Some(h.sessions[(id, r)].crypto)
  }

  /** The operation is what its client computes from the round info ri. */
  predicate Content(sha: Sha256, h: History, ri: RoundInfo, op: Op) {
    match op
    case JoinOp(_, _) => true
    case StartOp(_, _, crypto) => crypto.Some?
    case MessageOp(id, r, message, hash) =>
      && Mine(h, ri, id, r) && (id, r) in h.texts
      && var s := h.sessions[(id, r)];
         && message == Wrap(s.crypto, [s.keys.encryptKey.Pair()], Plain(s.crypto, h.texts[(id, r)]))
         && hash == HashKey(sha, s.keys.revealKey)
    case EncryptedOp(id, r, messages, _) =>
      && Mine(h, ri, id, r)
      && var s := h.sessions[(id, r)];
         messages == EncryptOthers(s.crypto, s.keys.encryptKey, ParticipantIndex(ri.participants, id), ri.messages)
    case ScrambledOp(id, r, messages) =>
      && Mine(h, ri, id, r)
      && var s := h.sessions[(id, r)];
         multiset(messages) == multiset(EncryptTwice(s.crypto, s.keys.scrambleKey, s.keys.revealKey, ri.messages))
    case DecryptedOp(id, r, messages, _) =>
      && Mine(h, ri, id, r)
      && var s := h.sessions[(id, r)];
         messages == DecryptTwice(s.crypto, s.keys.scrambleKey, s.keys.encryptKey, ri.messages)
    case RevealOp(id, r, key) => Mine(h, ri, id, r) && key == h.sessions[(id, r)].keys.revealKey
    case AbortOp(_) => true
  }

  // ----- growing the history

  lemma KnownMonotone(sha: Sha256, h: History, g: History, ri: RoundInfo, r: int)
    requires Extends(h, g) && Known(sha, h, ri, r)
    ensures Known(sha, g, ri, r)
    ensures RoundPlains(sha, h, ri, r) == RoundPlains(sha, g, ri, r)
    ensures HasSessions(h, ri.participants, r) && HasSessions(g, ri.participants, r)
    ensures EncryptKeys(h, ri.participants, r) == EncryptKeys(g, ri.participants, r)
    ensures ScrambleKeys(h, ri.participants, r) == ScrambleKeys(g, ri.participants, r)
    ensures RevealKeys(h, ri.participants, r) == RevealKeys(g, ri.participants, r)
  {
    KnownHasSessions(sha, h, ri, r);
    forall i | 0 <= i < |ri.participants| ensures KnownAt(sha, g, ri, r, i) {
      assert KnownAt(sha, h, ri, r, i);
    }
    KnownHasSessions(sha, g, ri, r);
  }

  lemma GoodMonotone(sha: Sha256, h: History, g: History, ri: RoundInfo, r: int)
    requires Extends(h, g) && RoundGood(sha, h, ri, r)
    ensures RoundGood(sha, g, ri, r)
  {
    hide RepInvariant;
    if 2 <= PhaseOrder(ri.phase) <= 6 {
      KnownMonotone(sha, h, g, ri, r);
    }
  }

  lemma ContentMonotone(sha: Sha256, h: History, g: History, ri: RoundInfo, op: Op)
    requires Extends(h, g) && Content(sha, h, ri, op)
    ensures Content(sha, g, ri, op)
  {
  }
}
