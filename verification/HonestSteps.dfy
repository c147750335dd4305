/** Every accepted honest operation keeps the round good; one lemma for each operation. */
module HonestSteps {
  import opened Bytes
  import opened MasseyOmura
  import opened Crypto
  import opened Ops
  import opened Rounds
  import opened Layers
  import opened ClientSteps
  import opened Honest

  /** Known and the plaintexts depend only on participants, crypto and hashes. */
  lemma KnownSame(sha: Sha256, h: History, a: RoundInfo, b: RoundInfo, r: int)
    requires Known(sha, h, a, r) && Shape(b)
    requires a.participants == b.participants && a.crypto == b.crypto && a.revealKeyHashes == b.revealKeyHashes
    ensures Known(sha, h, b, r)
    ensures RoundPlains(sha, h, a, r) == RoundPlains(sha, h, b, r)
    ensures HasSessions(h, b.participants, r)
  {
    forall i | 0 <= i < |b.participants| ensures KnownAt(sha, h, b, r, i) {
      assert KnownAt(sha, h, a, r, i);
    }
    KnownHasSessions(sha, h, b, r);
  }

  lemma KnownGenerates(size: nat, sha: Sha256, h: History, ri: RoundInfo, r: int, p: nat)
    requires HistoryOk(size, h) && Known(sha, h, ri, r) && p < |ri.participants|
    ensures var k := (ri.participants[p], r);
            && k in h.sessions && h.sessions[k].crypto == ri.crypto.value
            && AdmissibleKeys(ri.crypto.value, h.sessions[k].keys)
  {
    assert KnownAt(sha, h, ri, r, p);
  }

  /** The layer invariant by phase, from the encrypt phase on. */
  predicate PhaseLayers(sha: Sha256, h: History, ri: RoundInfo, r: int) {
    match ri.phase
    case Encrypt => EncryptPhase(sha, h, ri, r)
    case Scramble => ScramblePhase(sha, h, ri, r)
    case Decrypt => DecryptPhase(sha, h, ri, r)
    case Reveal => RevealPhase(sha, h, ri, r)
    case Done => RevealPhase(sha, h, ri, r)
    case _ => false
  }

  lemma Assemble(sha: Sha256, h: History, ri: RoundInfo, r: int)
    requires RepInvariant(ri) && CheckRep(ri) && PhaseLayers(sha, h, ri, r)
    ensures RoundGood(sha, h, ri, r)
  {
  }

  lemma Disassemble(sha: Sha256, h: History, ri: RoundInfo, r: int)
    requires RoundGood(sha, h, ri, r)
    ensures RepInvariant(ri) && Shape(ri) && CheckRep(ri) && |ri.messages| == |ri.participants|
    ensures ri.phase.Submit? ==> ri.crypto.Some? && SubmitLayers(sha, h, ri, r)
    ensures 2 <= PhaseOrder(ri.phase) <= 6 ==> ri.participants != [] && PhaseLayers(sha, h, ri, r)
  {
  }

  // ----- join, start, abort

  lemma JoinStep(sha: Sha256, h: History, ri: RoundInfo, r: int, id: Uuid)
    requires RoundGood(sha, h, ri, r)
    ensures RoundGood(sha, h, HandleJoin(ri, id).ri, r)
  {
    JoinKeepsRep(ri, id);
  }

  lemma StartStep(sha: Sha256, h: History, ri: RoundInfo, r: int, crypto: Option<Crypto>)
    requires RoundGood(sha, h, ri, r) && crypto.Some?
    ensures RoundGood(sha, h, HandleStart(ri, crypto).ri, r)
  {
    StartAndAbortKeepRep(ri, StartOp(Uuid(0), r, crypto));
  }

  lemma AbortStep(sha: Sha256, h: History, ri: RoundInfo, r: int)
    requires RoundGood(sha, h, ri, r)
    ensures RoundGood(sha, h, HandleAbort(ri).ri, r)
  {
    StartAndAbortKeepRep(ri, AbortOp(r));
  }

  // ----- message

  lemma FirstLayerSelect(c: Crypto, es: seq<Key>, flags: seq<bool>, i: nat, x: nat)
    requires |es| == |flags| && i < |es| && NoneSet(flags) && 0 < x < c.P()
    ensures Wrap(c, Select(es, flags[i := true]), x) == Wrap(c, [es[i]], x)
  {
    SelectSet(es, flags, i);
    SelectExtremes(es, flags);
    EncryptAllPermutation(c.P(), Select(es, flags[i := true]), [es[i]], x);
  }

  /** When the last message is in, every message carries its owner's layer and nobody has encrypted. */
  lemma EnterEncrypt(size: nat, sha: Sha256, h: History, ri: RoundInfo, r: int)
    requires HistoryOk(size, h) && Shape(ri) && ri.participants != [] && ri.crypto.Some?
    requires |ri.messages| == |ri.participants| && SubmitLayers(sha, h, ri, r) && AllSubmitted(ri.messages)
    requires NoneSet(ri.encrypted)
    ensures EncryptPhase(sha, h, ri, r)
  {
    forall i | 0 <= i < |ri.participants| ensures KnownAt(sha, h, ri, r, i) {
      assert !ri.messages[i].Nil();
    }
    KnownHasSessions(sha, h, ri, r);
    KnownUnits(size, sha, h, ri, r);
    var es, ps := EncryptKeys(h, ri.participants, r), RoundPlains(sha, h, ri, r);
    forall i | 0 <= i < |ri.messages|
      ensures ri.messages[i] == Wrap(ri.crypto.value, Select(es, ri.encrypted[i := true]), ps[i])
    {
      assert !ri.messages[i].Nil();
      FirstLayerSelect(ri.crypto.value, es, ri.encrypted, i, ps[i]);
    }
  }

  lemma MessageNotNil(size: nat, sha: Sha256, h: History, ri: RoundInfo, op: Op)
    requires op.MessageOp? && HistoryOk(size, h) && Content(sha, h, ri, op)
    ensures !op.message.Nil() && |op.revealKeyHash| == 32
  {
    var k := (op.id, op.r);
    var s := h.sessions[k];
    SessionSound(size, s);
    PlainUnit(size, s, h.texts[k]);
    WrapNotNil(s.crypto, [s.keys.encryptKey.Pair()], Plain(s.crypto, h.texts[k]));
  }

  lemma MessageKeepsSubmitLayers(sha: Sha256, h: History, ri: RoundInfo, op: Op)
    requires op.MessageOp? && Content(sha, h, ri, op)
    requires RepInvariant(ri) && ri.phase.Submit? && |ri.messages| == |ri.participants|
    requires SubmitLayers(sha, h, ri, op.r) && HandleMessage(ri, op.id, op.message, op.revealKeyHash).updated
    ensures var o := HandleMessage(ri, op.id, op.message, op.revealKeyHash).ri;
            Shape(o) && SubmitLayers(sha, h, o, op.r)
  {
    hide Wrap, Plain, FlagsInPhase, KeysInPhase;
    var o := HandleMessage(ri, op.id, op.message, op.revealKeyHash).ri;
    var p := ParticipantIndex(ri.participants, op.id);
    forall i | 0 <= i < |o.messages| && !o.messages[i].Nil()
      ensures var k := (o.participants[i], op.r);
              && KnownAt(sha, h, o, op.r, i)
              && o.messages[i] == Wrap(o.crypto.value, [h.sessions[k].keys.encryptKey.Pair()],
                                       Plain(o.crypto.value, h.texts[k]))
    {
      if i != p {
        assert !ri.messages[i].Nil();
        assert KnownAt(sha, h, ri, op.r, i);
      }
    }
  }

  lemma MessageFace(ri: RoundInfo, id: Uuid, message: Msg, hash: seq<byte>)
    requires RepInvariant(ri) && HandleMessage(ri, id, message, hash).updated
    ensures var o, p := HandleMessage(ri, id, message, hash).ri, ParticipantIndex(ri.participants, id);
            && RepInvariant(o) && ri.phase.Submit? && p >= 0
            && o.participants == ri.participants && o.crypto == ri.crypto
            && |ri.messages| == |ri.participants| == |ri.revealKeyHashes|
            && o.messages == ri.messages[p := message] && o.revealKeyHashes == ri.revealKeyHashes[p := hash]
            && (o.phase.Submit? || (o.phase.Encrypt? && AllSubmitted(o.messages) && NoneSet(o.encrypted)))
  {
    MessageKeepsRep(ri, id, message, hash);
  }

  lemma MessageKeepsCheckRep(ri: RoundInfo, id: Uuid, message: Msg, hash: seq<byte>)
    requires RepInvariant(ri) && CheckRep(ri) && HandleMessage(ri, id, message, hash).updated
    requires !message.Nil() && hash != []
    ensures CheckRep(HandleMessage(ri, id, message, hash).ri)
  {
  }

  lemma MessageStep(size: nat, sha: Sha256, h: History, ri: RoundInfo, op: Op)
    requires op.MessageOp? && HistoryOk(size, h) && Content(sha, h, ri, op)
    requires RoundGood(sha, h, ri, op.r) && HandleMessage(ri, op.id, op.message, op.revealKeyHash).updated
    ensures RoundGood(sha, h, HandleMessage(ri, op.id, op.message, op.revealKeyHash).ri, op.r)
  {
    Disassemble(sha, h, ri, op.r);
    hide RepInvariant, CheckRep, Shape, HandleMessage, SubmitLayers, EncryptPhase, HistoryOk, Content, AllSubmitted;
    var o := HandleMessage(ri, op.id, op.message, op.revealKeyHash).ri;
    MessageFace(ri, op.id, op.message, op.revealKeyHash);
    MessageNotNil(size, sha, h, ri, op);
    MessageKeepsCheckRep(ri, op.id, op.message, op.revealKeyHash);
    MessageKeepsSubmitLayers(sha, h, ri, op);
    if o.phase.Encrypt? {
      EnterEncrypt(size, sha, h, o, op.r);
      hide RoundGood;
      Assemble(sha, h, o, op.r);
    }
  }

  lemma FullCheckRep(sha: Sha256, h: History, ri: RoundInfo, r: int)
    requires Known(sha, h, ri, r) && !ri.phase.Prepare?
    requires |ri.messages| == |ri.participants| && AllSubmitted(ri.messages)
    ensures CheckRep(ri)
  {
    forall i | 0 <= i < |ri.revealKeyHashes| ensures ri.revealKeyHashes[i] != [] {
      assert KnownAt(sha, h, ri, r, i);
    }
  }

  // ----- encrypted

  lemma EncryptOneMessage(c: Crypto, es: seq<Key>, flags: seq<bool>, p: nat, i: nat, key: PrivateKey, x: nat)
    requires |es| == |flags| && p < |es| && i < |es| && !flags[p] && 0 < x < c.P()
    requires es[p] == key.Pair()
    ensures var m := Wrap(c, Select(es, flags[i := true]), x);
            Wrap(c, Select(es, flags[p := true][i := true]), x) == if i == p then m else c.Encrypt(key, m)
  {
    if i == p {
      assert flags[p := true][i := true] == flags[i := true];
    } else {
      var before := flags[i := true];
      assert flags[p := true][i := true] == before[p := true];
      SelectSet(es, before, p);
      WrapMore(c, Select(es, before), key, Select(es, before[p := true]), x);
    }
  }

  /** All encrypted: every message is under every encrypt key, so the layers no longer depend on the message. */
  lemma EnterScramble(sha: Sha256, h: History, ri: RoundInfo, r: int)
    requires EncryptPhase(sha, h, ri, r)
    requires AllSet(ri.encrypted) && NoneSet(ri.scrambled)
    ensures ScramblePhase(sha, h, ri, r)
  {
    KnownHasSessions(sha, h, ri, r);
    var es, ps := EncryptKeys(h, ri.participants, r), RoundPlains(sha, h, ri, r);
    SelectExtremes(ScrambleKeys(h, ri.participants, r), ri.scrambled);
    SelectExtremes(RevealKeys(h, ri.participants, r), ri.scrambled);
    assert ScrambleStack(h, ri, r) == es;
    forall i | 0 <= i < |ri.messages| ensures ri.messages[i] == Wrap(ri.crypto.value, es, ps[i]) {
      SelectExtremes(es, ri.encrypted[i := true]);
    }
    assert ri.messages == Layered(ri.crypto.value, es, ps);
  }

  lemma EncryptedKeepsLayers(size: nat, sha: Sha256, h: History, ri: RoundInfo, o: RoundInfo, r: int, p: nat)
    requires HistoryOk(size, h) && EncryptPhase(sha, h, ri, r) && Shape(o) && p < |ri.participants| && !ri.encrypted[p]
    requires (ri.participants[p], r) in h.sessions
    requires o.participants == ri.participants && o.crypto == ri.crypto && o.revealKeyHashes == ri.revealKeyHashes
    requires o.encrypted == ri.encrypted[p := true]
    requires o.messages
          == EncryptOthers(ri.crypto.value, h.sessions[(ri.participants[p], r)].keys.encryptKey, p, ri.messages)
    ensures EncryptPhase(sha, h, o, r)
    ensures |o.messages| == |o.participants| && AllSubmitted(o.messages)
  {
    KnownSame(sha, h, ri, o, r);
    KnownUnits(size, sha, h, ri, r);
    hide HistoryOk, Known, Select, Wrap, Shape, Sound;
    var c := ri.crypto.value;
    var es, ps := EncryptKeys(h, ri.participants, r), RoundPlains(sha, h, ri, r);
    var key := h.sessions[(ri.participants[p], r)].keys.encryptKey;
    forall i | 0 <= i < |o.messages|
      ensures o.messages[i] == Wrap(c, Select(es, o.encrypted[i := true]), ps[i]) && !o.messages[i].Nil()
    {
      EncryptOneMessage(c, es, ri.encrypted, p, i, key, ps[i]);
      WrapNotNil(c, Select(es, o.encrypted[i := true]), ps[i]);
    }
  }

  lemma EncryptedFace(ri: RoundInfo, id: Uuid, messages: seq<Msg>, prev: int)
    requires RepInvariant(ri) && HandleEncrypted(ri, id, messages, prev).updated
    ensures var o, p := HandleEncrypted(ri, id, messages, prev).ri, ParticipantIndex(ri.participants, id);
            && RepInvariant(o) && Shape(o) && ri.phase.Encrypt? && 0 <= p < |ri.encrypted| && !ri.encrypted[p]
            && o == ri.(messages := messages, encrypted := ri.encrypted[p := true], phase := o.phase)
            && (o.phase.Encrypt? || (o.phase.Scramble? && AllSet(o.encrypted) && NoneSet(o.scrambled)))
  {
    EncryptedKeepsRep(ri, id, messages, prev);
  }

  lemma EncryptedFinish(sha: Sha256, h: History, o: RoundInfo, r: int)
    requires EncryptPhase(sha, h, o, r) && RepInvariant(o)
    requires |o.messages| == |o.participants| && AllSubmitted(o.messages)
    requires o.phase.Encrypt? || (o.phase.Scramble? && AllSet(o.encrypted) && NoneSet(o.scrambled))
    ensures RoundGood(sha, h, o, r)
  {
    FullCheckRep(sha, h, o, r);
    hide RoundGood, RepInvariant, CheckRep, EncryptPhase, ScramblePhase;
    if o.phase.Scramble? {
      EnterScramble(sha, h, o, r);
    }
    Assemble(sha, h, o, r);
  }

  lemma EncryptedContent(sha: Sha256, h: History, ri: RoundInfo, op: Op)
    requires op.EncryptedOp? && Content(sha, h, ri, op)
    ensures (op.id, op.r) in h.sessions
    ensures var s := h.sessions[(op.id, op.r)];
            ri.crypto == Some(s.crypto)
            && op.messages
               == EncryptOthers(ri.crypto.value, s.keys.encryptKey, ParticipantIndex(ri.participants, op.id),
                                ri.messages)
  {
  }

  lemma EncryptedStep(size: nat, sha: Sha256, h: History, ri: RoundInfo, op: Op)
    requires op.EncryptedOp? && HistoryOk(size, h) && Content(sha, h, ri, op)
    requires RoundGood(sha, h, ri, op.r) && HandleEncrypted(ri, op.id, op.messages, op.prev).updated
    ensures RoundGood(sha, h, HandleEncrypted(ri, op.id, op.messages, op.prev).ri, op.r)
  {
    Disassemble(sha, h, ri, op.r);
    EncryptedContent(sha, h, ri, op);
    hide *;
    var o := HandleEncrypted(ri, op.id, op.messages, op.prev).ri;
    var p := ParticipantIndex(ri.participants, op.id);
    EncryptedFace(ri, op.id, op.messages, op.prev);
    assert ri.participants[p] == op.id && o.messages == op.messages;
    EncryptedKeepsLayers(size, sha, h, ri, o, op.r, p);
    EncryptedFinish(sha, h, o, op.r);
  }

  // ----- scrambled

  lemma ScrambleStackGrows(h: History, a: RoundInfo, b: RoundInfo, r: int, p: nat)
    requires Shape(a) && Shape(b) && HasSessions(h, a.participants, r)
    requires a.participants == b.participants && p < |a.participants|
    requires !a.scrambled[p] && b.scrambled == a.scrambled[p := true]
    ensures var k := h.sessions[(a.participants[p], r)].keys;
            multiset(ScrambleStack(h, b, r))
            == multiset(ScrambleStack(h, a, r)) + multiset{k.scrambleKey.Pair()} + multiset{k.revealKey.Pair()}
  {
    SelectSet(ScrambleKeys(h, a.participants, r), a.scrambled, p);
    SelectSet(RevealKeys(h, a.participants, r), a.scrambled, p);
  }

  /** All scrambled and none decrypted: both descriptions give every key of everyone. */
  lemma StacksAgree(h: History, ri: RoundInfo, r: int)
    requires Shape(ri) && HasSessions(h, ri.participants, r)
    requires AllSet(ri.scrambled) && NoneSet(ri.decrypted)
    ensures multiset(ScrambleStack(h, ri, r)) == multiset(DecryptStack(h, ri, r))
  {
    var es := EncryptKeys(h, ri.participants, r);
    var ss, rs := ScrambleKeys(h, ri.participants, r), RevealKeys(h, ri.participants, r);
    SelectExtremes(ss, ri.scrambled);
    SelectExtremes(rs, ri.scrambled);
    SelectExtremes(es, Negate(ri.decrypted));
    SelectExtremes(ss, Negate(ri.decrypted));
    hide Select, Shape, HasSessions;
    assert multiset(es + ss + rs) == multiset(rs + es + ss);
  }

  lemma EnterDecrypt(size: nat, sha: Sha256, h: History, ri: RoundInfo, r: int)
    requires HistoryOk(size, h) && ri.participants != [] && ScramblePhase(sha, h, ri, r)
    requires AllSet(ri.scrambled) && NoneSet(ri.decrypted)
    ensures DecryptPhase(sha, h, ri, r)
  {
    StacksAgree(h, ri, r);
    KnownUnits(size, sha, h, ri, r);
    ShuffledPermuteLayers(ri.crypto.value, ScrambleStack(h, ri, r), DecryptStack(h, ri, r),
                          RoundPlains(sha, h, ri, r), ri.messages);
  }

  lemma ScrambledKeepsStack(size: nat, sha: Sha256, h: History, ri: RoundInfo, o: RoundInfo, r: int, p: nat)
    requires HistoryOk(size, h) && ScramblePhase(sha, h, ri, r) && Shape(o) && p < |ri.participants| && !ri.scrambled[p]
    requires (ri.participants[p], r) in h.sessions
    requires o.participants == ri.participants && o.crypto == ri.crypto && o.revealKeyHashes == ri.revealKeyHashes
    requires o.scrambled == ri.scrambled[p := true]
    requires var k := h.sessions[(ri.participants[p], r)].keys;
             multiset(o.messages) == multiset(EncryptTwice(ri.crypto.value, k.scrambleKey, k.revealKey, ri.messages))
    ensures ScramblePhase(sha, h, o, r)
    ensures |o.messages| == |o.participants| && AllSubmitted(o.messages)
  {
    KnownSame(sha, h, ri, o, r);
    KnownUnits(size, sha, h, ri, r);
    ScrambleStackGrows(h, ri, o, r, p);
    hide HistoryOk, Known, Shape, Sound, ScrambleStack, Shuffled, EncryptTwice;
    var k := h.sessions[(ri.participants[p], r)].keys;
    ScrambleStep(ri.crypto.value, ScrambleStack(h, ri, r), ScrambleStack(h, o, r), k.scrambleKey, k.revealKey,
                 RoundPlains(sha, h, ri, r), ri.messages, o.messages);
    ShuffledNotNil(ri.crypto.value, ScrambleStack(h, o, r), RoundPlains(sha, h, ri, r), o.messages);
  }

  lemma ScrambledFace(ri: RoundInfo, id: Uuid, messages: seq<Msg>)
    requires RepInvariant(ri) && HandleScrambled(ri, id, messages).updated
    ensures var o, p := HandleScrambled(ri, id, messages).ri, ParticipantIndex(ri.participants, id);
            && RepInvariant(o) && Shape(o) && ri.phase.Scramble? && 0 <= p < |ri.scrambled| && !ri.scrambled[p]
            && o == ri.(messages := messages, scrambled := ri.scrambled[p := true], phase := o.phase)
            && (o.phase.Scramble? || (o.phase.Decrypt? && AllSet(o.scrambled) && NoneSet(o.decrypted)))
  {
    ScrambledKeepsRep(ri, id, messages);
  }

  lemma ScrambledFinish(size: nat, sha: Sha256, h: History, o: RoundInfo, r: int)
    requires HistoryOk(size, h) && ScramblePhase(sha, h, o, r) && RepInvariant(o)
    requires o.participants != [] && |o.messages| == |o.participants| && AllSubmitted(o.messages)
    requires o.phase.Scramble? || (o.phase.Decrypt? && AllSet(o.scrambled) && NoneSet(o.decrypted))
    ensures RoundGood(sha, h, o, r)
  {
    FullCheckRep(sha, h, o, r);
    hide RoundGood, RepInvariant, CheckRep, HistoryOk, ScramblePhase, DecryptPhase;
    if o.phase.Decrypt? {
      EnterDecrypt(size, sha, h, o, r);
    }
    Assemble(sha, h, o, r);
  }

  lemma ScrambledContent(sha: Sha256, h: History, ri: RoundInfo, op: Op)
    requires op.ScrambledOp? && Content(sha, h, ri, op)
    ensures (op.id, op.r) in h.sessions
    ensures var s := h.sessions[(op.id, op.r)];
            ri.crypto == Some(s.crypto)
            && multiset(op.messages)
               == multiset(EncryptTwice(ri.crypto.value, s.keys.scrambleKey, s.keys.revealKey, ri.messages))
  {
  }

  lemma ScrambledFrom(sha: Sha256, h: History, ri: RoundInfo, op: Op)
    requires op.ScrambledOp? && RoundGood(sha, h, ri, op.r) && HandleScrambled(ri, op.id, op.messages).updated
    ensures ScramblePhase(sha, h, ri, op.r)
  {
    Disassemble(sha, h, ri, op.r);
  }

  lemma ScrambledStep(size: nat, sha: Sha256, h: History, ri: RoundInfo, op: Op)
    requires op.ScrambledOp? && HistoryOk(size, h) && Content(sha, h, ri, op)
    requires RoundGood(sha, h, ri, op.r) && HandleScrambled(ri, op.id, op.messages).updated
    ensures RoundGood(sha, h, HandleScrambled(ri, op.id, op.messages).ri, op.r)
  {
    hide *;
    ScrambledFrom(sha, h, ri, op);
    Disassemble(sha, h, ri, op.r);
    ScrambledContent(sha, h, ri, op);
    var o := HandleScrambled(ri, op.id, op.messages).ri;
    var p := ParticipantIndex(ri.participants, op.id);
    ScrambledFace(ri, op.id, op.messages);
    assert ri.participants[p] == op.id && o.messages == op.messages;
    ScrambledKeepsStack(size, sha, h, ri, o, op.r, p);
    ScrambledFinish(size, sha, h, o, op.r);
  }

  // ----- decrypted

  lemma DecryptStackShrinks(h: History, a: RoundInfo, b: RoundInfo, r: int, p: nat)
    requires Shape(a) && Shape(b) && HasSessions(h, a.participants, r)
    requires a.participants == b.participants && p < |a.participants|
    requires !a.decrypted[p] && b.decrypted == a.decrypted[p := true]
    ensures var k := h.sessions[(a.participants[p], r)].keys;
            multiset(DecryptStack(h, a, r))
            == multiset(DecryptStack(h, b, r)) + multiset{k.encryptKey.Pair()} + multiset{k.scrambleKey.Pair()}
  {
    assert Negate(b.decrypted)[p := true] == Negate(a.decrypted);
    SelectSet(EncryptKeys(h, a.participants, r), Negate(b.decrypted), p);
    SelectSet(ScrambleKeys(h, a.participants, r), Negate(b.decrypted), p);
  }

  lemma DecryptStackDone(h: History, ri: RoundInfo, r: int)
    requires Shape(ri) && HasSessions(h, ri.participants, r) && AllSet(ri.decrypted)
    ensures DecryptStack(h, ri, r) == RevealKeys(h, ri.participants, r)
  {
    SelectExtremes(EncryptKeys(h, ri.participants, r), Negate(ri.decrypted));
    SelectExtremes(ScrambleKeys(h, ri.participants, r), Negate(ri.decrypted));
  }

  lemma EnterReveal(sha: Sha256, h: History, ri: RoundInfo, r: int)
    requires DecryptPhase(sha, h, ri, r) && AllSet(ri.decrypted) && NoneRevealed(ri.revealedKeys)
    ensures RevealPhase(sha, h, ri, r)
  {
    hide KnownAt, UnderStack, DecryptStack, AllSet;
    DecryptStackDone(h, ri, r);
  }

  lemma DecryptedKeepsStack(size: nat, sha: Sha256, h: History, ri: RoundInfo, o: RoundInfo, r: int, p: nat)
    requires HistoryOk(size, h) && DecryptPhase(sha, h, ri, r) && Shape(o) && p < |ri.participants| && !ri.decrypted[p]
    requires (ri.participants[p], r) in h.sessions
    requires o.participants == ri.participants && o.crypto == ri.crypto && o.revealKeyHashes == ri.revealKeyHashes
    requires o.decrypted == ri.decrypted[p := true]
    requires var k := h.sessions[(ri.participants[p], r)].keys;
             o.messages == DecryptTwice(ri.crypto.value, k.scrambleKey, k.encryptKey, ri.messages)
    ensures DecryptPhase(sha, h, o, r)
    ensures |o.messages| == |o.participants| && AllSubmitted(o.messages)
  {
    KnownSame(sha, h, ri, o, r);
    KnownUnits(size, sha, h, ri, r);
    KnownGenerates(size, sha, h, ri, r, p);
    DecryptStackShrinks(h, ri, o, r, p);
    hide HistoryOk, Known, Shape, Sound, DecryptStack, Shuffled, DecryptTwice;
    var k := h.sessions[(ri.participants[p], r)].keys;
    DecryptStep(ri.crypto.value, DecryptStack(h, ri, r), DecryptStack(h, o, r), k.scrambleKey, k.encryptKey,
                RoundPlains(sha, h, ri, r), ri.messages);
    ShuffledNotNil(ri.crypto.value, DecryptStack(h, o, r), RoundPlains(sha, h, ri, r), o.messages);
  }

  lemma DecryptedFace(ri: RoundInfo, id: Uuid, messages: seq<Msg>, prev: int)
    requires RepInvariant(ri) && HandleDecrypted(ri, id, messages, prev).updated
    ensures var o, p := HandleDecrypted(ri, id, messages, prev).ri, ParticipantIndex(ri.participants, id);
            && RepInvariant(o) && Shape(o) && ri.phase.Decrypt? && 0 <= p < |ri.decrypted| && !ri.decrypted[p]
            && o == ri.(messages := messages, decrypted := ri.decrypted[p := true], phase := o.phase)
            && (o.phase.Decrypt? || (o.phase.Reveal? && AllSet(o.decrypted) && NoneRevealed(o.revealedKeys)))
  {
    DecryptedKeepsRep(ri, id, messages, prev);
  }

  lemma DecryptedFinish(sha: Sha256, h: History, o: RoundInfo, r: int)
    requires DecryptPhase(sha, h, o, r) && RepInvariant(o)
    requires |o.messages| == |o.participants| && AllSubmitted(o.messages)
    requires o.phase.Decrypt? || (o.phase.Reveal? && AllSet(o.decrypted) && NoneRevealed(o.revealedKeys))
    ensures RoundGood(sha, h, o, r)
  {
    FullCheckRep(sha, h, o, r);
    hide RoundGood, RepInvariant, CheckRep, DecryptPhase, RevealPhase;
    if o.phase.Reveal? {
      EnterReveal(sha, h, o, r);
    }
    Assemble(sha, h, o, r);
  }

  lemma DecryptedContent(sha: Sha256, h: History, ri: RoundInfo, op: Op)
    requires op.DecryptedOp? && Content(sha, h, ri, op)
    ensures (op.id, op.r) in h.sessions
    ensures var s := h.sessions[(op.id, op.r)];
            ri.crypto == Some(s.crypto)
            && op.messages == DecryptTwice(ri.crypto.value, s.keys.scrambleKey, s.keys.encryptKey, ri.messages)
  {
  }

  lemma DecryptedFrom(sha: Sha256, h: History, ri: RoundInfo, op: Op)
    requires op.DecryptedOp? && RoundGood(sha, h, ri, op.r) && HandleDecrypted(ri, op.id, op.messages, op.prev).updated
    ensures DecryptPhase(sha, h, ri, op.r)
  {
    Disassemble(sha, h, ri, op.r);
  }

  lemma DecryptedStep(size: nat, sha: Sha256, h: History, ri: RoundInfo, op: Op)
    requires op.DecryptedOp? && HistoryOk(size, h) && Content(sha, h, ri, op)
    requires RoundGood(sha, h, ri, op.r) && HandleDecrypted(ri, op.id, op.messages, op.prev).updated
    ensures RoundGood(sha, h, HandleDecrypted(ri, op.id, op.messages, op.prev).ri, op.r)
  {
    hide *;
    DecryptedFrom(sha, h, ri, op);
    Disassemble(sha, h, ri, op.r);
    DecryptedContent(sha, h, ri, op);
    var o := HandleDecrypted(ri, op.id, op.messages, op.prev).ri;
    var p := ParticipantIndex(ri.participants, op.id);
    DecryptedFace(ri, op.id, op.messages, op.prev);
    assert ri.participants[p] == op.id && o.messages == op.messages;
    DecryptedKeepsStack(size, sha, h, ri, o, op.r, p);
    DecryptedFinish(sha, h, o, op.r);
  }

  // ----- reveal

  lemma RevealFace(ri: RoundInfo, id: Uuid, key: PrivateKey)
    requires RepInvariant(ri) && HandleReveal(ri, id, key).updated
    ensures var o, p := HandleReveal(ri, id, key).ri, ParticipantIndex(ri.participants, id);
            && RepInvariant(o) && Shape(o) && ri.phase.Reveal? && 0 <= p < |ri.revealedKeys|
            && o == ri.(revealedKeys := ri.revealedKeys[p := key], phase := o.phase)
            && (o.phase.Reveal? || o.phase.Done?)
  {
    RevealKeepsRep(ri, id, key);
  }

  lemma RevealKeepsPhase(sha: Sha256, h: History, ri: RoundInfo, o: RoundInfo, r: int, p: nat)
    requires RevealPhase(sha, h, ri, r) && Shape(o) && p < |ri.participants|
    requires (ri.participants[p], r) in h.sessions
    requires o == ri.(revealedKeys := o.revealedKeys, phase := o.phase)
    requires o.revealedKeys == ri.revealedKeys[p := h.sessions[(ri.participants[p], r)].keys.revealKey]
    ensures RevealPhase(sha, h, o, r)
  {
    KnownSame(sha, h, ri, o, r);
    hide Known, Shuffled;
  }

  lemma RevealContent(sha: Sha256, h: History, ri: RoundInfo, op: Op)
    requires op.RevealOp? && Content(sha, h, ri, op)
    ensures (op.id, op.r) in h.sessions && op.revealKey == h.sessions[(op.id, op.r)].keys.revealKey
  {
  }

  lemma RevealStep(sha: Sha256, h: History, ri: RoundInfo, op: Op)
    requires op.RevealOp? && Content(sha, h, ri, op)
    requires RoundGood(sha, h, ri, op.r) && HandleReveal(ri, op.id, op.revealKey).updated
    ensures RoundGood(sha, h, HandleReveal(ri, op.id, op.revealKey).ri, op.r)
  {
    hide *;
    Disassemble(sha, h, ri, op.r);
    RevealFace(ri, op.id, op.revealKey);
    RevealParts(sha, h, ri, op.r);
    RevealContent(sha, h, ri, op);
    var o := HandleReveal(ri, op.id, op.revealKey).ri;
    RevealKeepsCheckRep(ri, o);
    RevealKeepsPhase(sha, h, ri, o, op.r, ParticipantIndex(ri.participants, op.id));
    RevealWhole(sha, h, o, op.r);
  }

  lemma RevealParts(sha: Sha256, h: History, ri: RoundInfo, r: int)
    requires RoundGood(sha, h, ri, r) && ri.phase.Reveal?
    ensures RepInvariant(ri) && Shape(ri) && |ri.revealedKeys| == |ri.participants| && CheckRep(ri)
    ensures RevealPhase(sha, h, ri, r)
  {
    hide CheckRep, RevealPhase;
  }

  lemma RevealWhole(sha: Sha256, h: History, ri: RoundInfo, r: int)
    requires RepInvariant(ri) && CheckRep(ri) && (ri.phase.Reveal? || ri.phase.Done?) && RevealPhase(sha, h, ri, r)
    ensures RoundGood(sha, h, ri, r)
  {
    hide RepInvariant, CheckRep, RevealPhase;
    Assemble(sha, h, ri, r);
  }

  lemma RevealKeepsCheckRep(ri: RoundInfo, o: RoundInfo)
    requires CheckRep(ri) && ri.phase.Reveal? && Shape(o) && (o.phase.Reveal? || o.phase.Done?)
    requires o == ri.(revealedKeys := o.revealedKeys, phase := o.phase)
    ensures CheckRep(o)
  {
  }

  lemma RewriteKeepsGood(size: nat, sha: Sha256, h: History, ri: RoundInfo, op: Op)
    requires RewritesMessages(op) && HistoryOk(size, h) && RoundGood(sha, h, ri, op.r) && RepInvariant(ri)
    requires Handle(ri, op).updated && Content(sha, h, ri, op)
    ensures RoundGood(sha, h, Handle(ri, op).ri, op.r)
  {
    hide RoundGood, RepInvariant, HistoryOk, Content, HandleEncrypted, HandleScrambled, HandleDecrypted;
    match op
    case EncryptedOp(_, _, _, _) => EncryptedStep(size, sha, h, ri, op);
    case ScrambledOp(_, _, _) => ScrambledStep(size, sha, h, ri, op);
    case DecryptedOp(_, _, _, _) => DecryptedStep(size, sha, h, ri, op);
  }

  lemma OtherKeepsGood(size: nat, sha: Sha256, h: History, ri: RoundInfo, op: Op)
    requires !RewritesMessages(op) && HistoryOk(size, h) && RoundGood(sha, h, ri, op.r) && RepInvariant(ri)
    requires Handle(ri, op).updated && Content(sha, h, ri, op)
    ensures RoundGood(sha, h, Handle(ri, op).ri, op.r)
  {
    hide RoundGood, RepInvariant, HistoryOk, HandleJoin, HandleStart, HandleMessage, HandleReveal, HandleAbort;
    match op
    case JoinOp(id, r) => JoinStep(sha, h, ri, r, id);
    case StartOp(_, r, crypto) => StartStep(sha, h, ri, r, crypto);
    case MessageOp(_, _, _, _) => MessageStep(size, sha, h, ri, op);
    case RevealOp(_, _, _) => RevealStep(sha, h, ri, op);
    case AbortOp(r) => AbortStep(sha, h, ri, r);
  }

  /** Whatever honest operation is applied, the round stays good. */
  lemma HandleKeepsGood(size: nat, sha: Sha256, h: History, ri: RoundInfo, op: Op)
    requires HistoryOk(size, h) && RoundGood(sha, h, ri, op.r) && Active(ri.phase)
    requires Handle(ri, op).updated ==> Content(sha, h, ri, op)
    ensures RoundGood(sha, h, Handle(ri, op).ri, op.r)
  {
    assert RepInvariant(ri);
    hide RoundGood, RepInvariant, HistoryOk, Content, Handle;
    HandleKeepsRep(ri, op);
    if Handle(ri, op).updated {
      if RewritesMessages(op) {
        RewriteKeepsGood(size, sha, h, ri, op);
      } else {
        OtherKeepsGood(size, sha, h, ri, op);
      }
    }
  }
}
