/** A started round makes progress: a count of outstanding work that honest operations bring down to zero. */
module Progress {
  import opened Bytes
  import opened MasseyOmura
  import opened Crypto
  import opened Ops
  import opened Rounds
  import opened Layers
  import opened ClientSteps
  import opened Honest
  import opened HonestSteps
  import opened Protocol

  function Unset(flags: seq<bool>): (n: nat) {
    |flags| - Count(flags)
  }

  function Missing(messages: seq<Msg>): (n: nat) {
    if messages == [] then 0 else (if messages[0].Nil() then 1 else 0) + Missing(messages[1..])
  }

  function Hidden(keys: seq<PrivateKey>): (n: nat) {
    if keys == [] then 0 else (if keys[0].Nil() then 1 else 0) + Hidden(keys[1..])
  }

  /** Unsent messages, flags still to be set, and keys still to be revealed. */
  function Outstanding(ri: RoundInfo): nat {
    (if ri.phase.Submit? then Missing(ri.messages) else 0)
    + Unset(ri.encrypted) + Unset(ri.scrambled) + Unset(ri.decrypted) + Hidden(ri.revealedKeys)
  }

  predicate Started(ri: RoundInfo) {
    1 <= PhaseOrder(ri.phase) <= 5
  }

  lemma {:induction false} MissingUpdate(messages: seq<Msg>, p: nat, m: Msg)
    requires p < |messages|
    ensures Missing(messages[p := m])
         == Missing(messages) - (if messages[p].Nil() then 1 else 0) + (if m.Nil() then 1 else 0)
  {
    var after := messages[p := m];
    if p == 0 {
      assert after[1..] == messages[1..];
    } else {
      MissingUpdate(messages[1..], p - 1, m);
      assert after[1..] == messages[1..][p - 1 := m];
    }
  }

  lemma {:induction false} MissingExtremes(messages: seq<Msg>)
    ensures Missing(messages) <= |messages|
    ensures Missing(messages) == 0 <==> AllSubmitted(messages)
    ensures (forall i :: 0 <= i < |messages| ==> messages[i].Nil()) ==> Missing(messages) == |messages|
  {
    if messages != [] {
      MissingExtremes(messages[1..]);
      assert AllSubmitted(messages) <==> !messages[0].Nil() && AllSubmitted(messages[1..]) by {
        assert forall i :: 0 < i < |messages| ==> messages[i] == messages[1..][i - 1];
      }
    }
  }

  lemma {:induction false} HiddenUpdate(keys: seq<PrivateKey>, p: nat, k: PrivateKey)
    requires p < |keys|
    ensures Hidden(keys[p := k]) == Hidden(keys) - (if keys[p].Nil() then 1 else 0) + (if k.Nil() then 1 else 0)
  {
    var after := keys[p := k];
    if p == 0 {
      assert after[1..] == keys[1..];
    } else {
      HiddenUpdate(keys[1..], p - 1, k);
      assert after[1..] == keys[1..][p - 1 := k];
    }
  }

  lemma {:induction false} HiddenExtremes(keys: seq<PrivateKey>)
    ensures Hidden(keys) == 0 <==> AllRevealed(keys)
    ensures NoneRevealed(keys) ==> Hidden(keys) == |keys|
  {
    if keys != [] {
      HiddenExtremes(keys[1..]);
      assert AllRevealed(keys) <==> !keys[0].Nil() && AllRevealed(keys[1..]) by {
        assert forall i :: 0 < i < |keys| ==> keys[i] == keys[1..][i - 1];
      }
    }
  }

  /** A round starts with five pieces of work for each participant. */
  lemma StartOutstanding(ri: RoundInfo, crypto: Option<Crypto>)
    requires RepInvariant(ri) && ri.phase.Prepare?
    ensures Outstanding(HandleStart(ri, crypto).ri) == 5 * |ri.participants|
  {
    CountExtremes(ri.encrypted);
    CountExtremes(ri.scrambled);
    CountExtremes(ri.decrypted);
    MissingExtremes(ri.messages);
    HiddenExtremes(ri.revealedKeys);
  }

  /** No work is left exactly when the round is Done. */
  lemma NothingOutstanding(ri: RoundInfo)
    requires RepInvariant(ri) && ri.participants != [] && 1 <= PhaseOrder(ri.phase) <= 6
    ensures Outstanding(ri) == 0 <==> ri.phase.Done?
  {
    CountExtremes(ri.encrypted);
    CountExtremes(ri.scrambled);
    CountExtremes(ri.decrypted);
    MissingExtremes(ri.messages);
    HiddenExtremes(ri.revealedKeys);
  }

  /** The operation does something that had not been done: it is no repetition of a message or of a key. */
  predicate Fresh(ri: RoundInfo, op: Op)
    requires RepInvariant(ri)
  {
    && Handle(ri, op).updated
    && (op.MessageOp? ==> ri.messages[ParticipantIndex(ri.participants, op.id)].Nil())
    && (op.RevealOp? ==> ri.revealedKeys[ParticipantIndex(ri.participants, op.id)].Nil())
  }

  predicate Substantial(op: Op) {
    (op.MessageOp? ==> !op.message.Nil()) && (op.RevealOp? ==> !op.revealKey.Nil())
  }

  /** The operation takes back what had been done: it overwrites a message or a key with a nil one. */
  predicate Undoes(ri: RoundInfo, op: Op)
    requires RepInvariant(ri)
  {
    Handle(ri, op).updated && !Substantial(op) && !Fresh(ri, op)
  }

  /**
   * Every fresh operation with a message or key that is not nil takes exactly one piece of work off. Only a nil
   * message or key adds one, and only by overwriting.
   */
  lemma OutstandingStep(ri: RoundInfo, op: Op)
    requires RepInvariant(ri) && Started(ri) && !op.AbortOp?
    ensures Outstanding(Handle(ri, op).ri)
         == Outstanding(ri) - (if Fresh(ri, op) && Substantial(op) then 1 else 0) + (if Undoes(ri, op) then 1 else 0)
  {
    hide FlagsInPhase, KeysInPhase, NoneSet, AllSet;
    var o := Handle(ri, op);
    if o.updated {
      var p := ParticipantIndex(ri.participants, op.id);
      match op
      case MessageOp(_, _, m, _) =>
        MissingUpdate(ri.messages, p, m);
        MissingExtremes(o.ri.messages);
      case EncryptedOp(_, _, _, _) => CountSet(ri.encrypted, p);
      case ScrambledOp(_, _, _) => CountSet(ri.scrambled, p);
      case DecryptedOp(_, _, _, _) => CountSet(ri.decrypted, p);
      case RevealOp(_, _, k) => HiddenUpdate(ri.revealedKeys, p, k);
    }
  }

  /** What honest clients send is substantial. */
  lemma HonestSubstantial(size: nat, sha: Sha256, h: History, ri: RoundInfo, op: Op)
    requires HistoryOk(size, h) && Content(sha, h, ri, op)
    ensures Substantial(op)
  {
    if op.MessageOp? {
      MessageNotNil(size, sha, h, ri, op);
    } else if op.RevealOp? {
      var s := h.sessions[(op.id, op.r)];
      assert SessionOk(size, s);
      GeneratedNotNil(s.crypto, op.revealKey);
    }
  }

  lemma GeneratedNotNil(c: Crypto, key: PrivateKey)
    requires c.Generates(key)
    ensures !key.Nil()
  {
    assert ToNat([]) == 0;
  }

  /**
   * In every run, committing a computed operation that is no abort brings the work of a started round down by one if
   * it is fresh, and leaves it alone otherwise; the round is over exactly when no work is left.
   */
  lemma CommitOutstanding(size: nat, sha: Sha256, run: seq<System>, e: Issued)
    requires IsRun(size, sha, run) && e in run[|run| - 1].issued && !e.op.AbortOp?
    requires var s := StateAt(run[|run| - 1].log, |run[|run| - 1].log|);
             Started(Current(s)) && Current(s).participants != [] && e.op.r == s.round
    ensures var ri := Current(StateAt(run[|run| - 1].log, |run[|run| - 1].log|));
            && RepInvariant(ri)
            && var o := Handle(ri, e.op);
               && Outstanding(o.ri) == Outstanding(ri) - (if Fresh(ri, e.op) then 1 else 0)
               && (o.over <==> Outstanding(o.ri) == 0)
  {
    RunKeepsInv(size, sha, run);
    var sys := run[|run| - 1];
    var s, t := StateAt(sys.log, e.origin), StateAt(sys.log, |sys.log|);
    assert EntryOk(sha, sys.log, sys.history, e);
    StateAtEvolves(sys.log, e.origin, |sys.log|);
    hide ClientsOk, StatesGood, EntriesOk, StateAt;
    HonestSubstantial(size, sha, sys.history, Current(s), e.op);
    HandleOutstanding(Current(t), e.op);
  }

  lemma HandleOutstanding(ri: RoundInfo, op: Op)
    requires RepInvariant(ri) && Started(ri) && ri.participants != [] && !op.AbortOp? && Substantial(op)
    ensures var o := Handle(ri, op);
            && Outstanding(o.ri) == Outstanding(ri) - (if Fresh(ri, op) then 1 else 0)
            && (o.over <==> Outstanding(o.ri) == 0)
  {
    OutstandingStep(ri, op);
    HandleKeepsRep(ri, op);
    HandleEvolvesPhase(ri, op);
    hide RepInvariant, Outstanding, Fresh, Handle;
    NothingOutstanding(Handle(ri, op).ri);
  }

  lemma HandleEvolvesPhase(ri: RoundInfo, op: Op)
    requires RepInvariant(ri) && Started(ri) && !op.AbortOp?
    ensures var o := Handle(ri, op);
            && 1 <= PhaseOrder(o.ri.phase) <= 6 && o.ri.participants == ri.participants
            && (o.over <==> o.ri.phase.Done?)
  {
  }

  // ----- someone can always move

  /** The first position whose flag is open. */
  function FirstOpen(flags: seq<bool>): (i: nat)
    requires !AllSet(flags)
    ensures i < |flags| && !flags[i]
  {
    if !flags[0] then 0 else 1 + FirstOpen(flags[1..])
  }

  function FirstMissing(messages: seq<Msg>): (i: nat)
    requires !AllSubmitted(messages)
    ensures i < |messages| && messages[i].Nil()
  {
    if messages[0].Nil() then 0 else 1 + FirstMissing(messages[1..])
  }

  function FirstHidden(keys: seq<PrivateKey>): (i: nat)
    requires !AllRevealed(keys)
    ensures i < |keys| && keys[i].Nil()
  {
    if keys[0].Nil() then 0 else 1 + FirstHidden(keys[1..])
  }

  /** A participant whose turn it is. */
  function Mover(ri: RoundInfo): (p: nat)
    requires RepInvariant(ri) && Started(ri) && ri.participants != []
    ensures p < |ri.participants|
  {
    match ri.phase
    case Submit => FirstMissing(ri.messages)
    case Encrypt => FirstOpen(ri.encrypted)
    case Scramble => CountExtremes(ri.scrambled); Count(ri.scrambled)
    case Decrypt => FirstOpen(ri.decrypted)
    case Reveal => FirstHidden(ri.revealedKeys)
    case _ => 0
  }

  lemma DistinctIndex(ids: seq<Uuid>, p: nat)
    requires Distinct(ids) && p < |ids|
    ensures ParticipantIndex(ids, ids[p]) == p
  {
  }

  /** The guards that let a client act once in the round are still open. */
  predicate Unused(l: Local, phase: Phase, round: int) {
    && (phase.Submit? ==> l.lastKeyGen < round && l.lastMessageRound < round)
    && (phase.Scramble? ==> l.lastScrambledRound < round)
  }

  lemma MoverSubmits(size: nat, sha: Sha256, round: int, ri: RoundInfo, l: Local, ch: Choices)
    requires RepInvariant(ri) && ri.phase.Submit? && ri.participants != []
    requires ri.crypto.Some? && ri.crypto.value.Verify(size + HeaderLength)
    requires ch.active && |ch.random| == 8 && |ch.fallbackRandom| == 8 && Unused(l, ri.phase, round)
    ensures var e := ObserveSubmit(size, sha, ri.participants[Mover(ri)], l, round, ri, ch);
            e.op.Some? && e.op.value.r == round && !e.op.value.AbortOp? && Fresh(ri, e.op.value)
  {
    DistinctIndex(ri.participants, Mover(ri));
    hide VerifySysKey, TextSent, Plain;
  }

  lemma MoverScrambles(round: int, ri: RoundInfo, l: Local, ch: Choices)
    requires RepInvariant(ri) && ri.phase.Scramble? && ri.participants != []
    requires ri.crypto.Some? && ch.active && Unused(l, ri.phase, round)
    ensures var e := ObserveScramble(ri.participants[Mover(ri)], l, round, ri, ch);
            e.op.Some? && e.op.value.r == round && !e.op.value.AbortOp? && Fresh(ri, e.op.value)
  {
    DistinctIndex(ri.participants, Mover(ri));
    CountPrefix(ri.scrambled, Mover(ri));
  }

  lemma MoverEncryptsDecryptsReveals(round: int, ri: RoundInfo, l: Local, ch: Choices)
    requires RepInvariant(ri) && ri.participants != [] && ri.crypto.Some? && ch.active
    requires ri.phase.Encrypt? || ri.phase.Decrypt? || ri.phase.Reveal?
    ensures var id := ri.participants[Mover(ri)];
            var e := if ri.phase.Encrypt? then ObserveEncrypt(id, l, round, ri, ch)
                     else if ri.phase.Decrypt? then ObserveDecrypt(id, l, round, ri, ch)
                     else ObserveReveal(id, l, round, ri, ch);
            e.op.Some? && e.op.value.r == round && !e.op.value.AbortOp? && Fresh(ri, e.op.value)
  {
    DistinctIndex(ri.participants, Mover(ri));
    hide EncryptOthers, DecryptTwice;
  }

  /**
   * In a started round, with a crypto that verifies, the client whose turn it is sends an operation on seeing the
   * current state, and that operation is accepted and fresh.
   */
  lemma SomeoneCanMove(size: nat, sha: Sha256, s: State, l: Local, ch: Choices)
    requires Valid(s) && Started(Current(s)) && Current(s).participants != []
    requires Current(s).crypto.Some?
    requires Current(s).phase.Submit? ==> Current(s).crypto.value.Verify(size + HeaderLength)
    requires ch.active && |ch.random| == 8 && |ch.fallbackRandom| == 8 && Unused(l, Current(s).phase, s.round)
    ensures var ri := Current(s);
            var e := Observe(size, sha, ri.participants[Mover(ri)], l, s, ch);
            e.op.Some? && e.op.value.r == s.round && !e.op.value.AbortOp? && Fresh(ri, e.op.value)
  {
    var ri := Current(s);
    hide RepInvariant, VerifySysKey, Fresh, Mover;
    match ri.phase
    case Submit => MoverSubmits(size, sha, s.round, ri, l, ch);
    case Scramble => MoverScrambles(s.round, ri, l, ch);
    case _ => MoverEncryptsDecryptsReveals(s.round, ri, l, ch);
  }
}
