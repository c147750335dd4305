/** Exactly when a client sends an operation: when it is active and some operation of its own would be of use now. */
module Turns {
  import opened Bytes
  import opened MasseyOmura
  import opened Crypto
  import opened Ops
  import opened Rounds
  import opened Layers
  import opened ClientSteps
  import opened NoDeadlock

  /** An operation that the client sends in its own name. */
  predicate ByClient(op: Op, id: Uuid) {
    !op.StartOp? && !op.AbortOp? && op.id == id
  }

  /** Some operation of the client would be accepted now and do something that has not been done. */
  ghost predicate CanContribute(s: State, id: Uuid)
    requires Valid(s)
  {
    exists op: Op :: ByClient(op, id) && Advances(s, op)
  }

  /** What the client has left to do in the current phase. */
  predicate HasWork(ri: RoundInfo, id: Uuid)
    requires RepInvariant(ri)
  {
    var p := ParticipantIndex(ri.participants, id);
    match ri.phase
    case Prepare => p == -1
    case Submit => p >= 0 && ri.messages[p].Nil()
    case Encrypt => p >= 0 && !ri.encrypted[p]
    case Scramble => p >= 0 && p == Count(ri.scrambled)
    case Decrypt => p >= 0 && !ri.decrypted[p]
    case Reveal => p >= 0 && ri.revealedKeys[p].Nil()
    case _ => false
  }

  function WorkOp(s: State, id: Uuid): Op
    requires Valid(s)
  {
    var ri := Current(s);
    match ri.phase
    case Submit => MessageOp(id, s.round, TrivialMsg, [])
    case Encrypt => EncryptedOp(id, s.round, ri.messages, Count(ri.encrypted))
    case Scramble => ScrambledOp(id, s.round, ri.messages)
    case Decrypt => DecryptedOp(id, s.round, ri.messages, Count(ri.decrypted))
    case Reveal => RevealOp(id, s.round, TrivialKey)
    case _ => JoinOp(id, s.round)
  }

  lemma WorkOpAdvances(s: State, id: Uuid)
    requires Valid(s) && HasWork(Current(s), id)
    ensures ByClient(WorkOp(s, id), id) && Advances(s, WorkOp(s, id))
  {
    var ri := Current(s);
    if ri.phase.Scramble? {
      CountPrefix(ri.scrambled, ParticipantIndex(ri.participants, id));
    }
    hide FlagsInPhase, KeysInPhase, Count;
  }

  lemma AdvancesIsWork(s: State, id: Uuid, op: Op)
    requires Valid(s) && ByClient(op, id) && Advances(s, op)
    ensures HasWork(Current(s), id)
  {
    hide FlagsInPhase, KeysInPhase, Count;
  }

  lemma ContributesExactly(s: State, id: Uuid)
    requires Valid(s)
    ensures CanContribute(s, id) <==> HasWork(Current(s), id)
  {
    hide Advances, HasWork, RepInvariant;
    if op: Op :| ByClient(op, id) && Advances(s, op) {
      AdvancesIsWork(s, id, op);
    }
    if HasWork(Current(s), id) {
      WorkOpAdvances(s, id);
    }
  }

  /** The client has not used up its one message or its one scramble of the round. */
  predicate Open(l: Local, phase: Phase, round: int) {
    && (phase.Submit? ==> l.lastMessageRound < round)
    && (phase.Scramble? ==> l.lastScrambledRound < round)
  }

  /** The client has to take keys for the round, and the round's crypto does not verify. */
  predicate Refuses(size: nat, l: Local, s: State)
    requires Valid(s)
  {
    var ri := Current(s);
    && ri.phase.Submit? && l.lastKeyGen < s.round
    && ri.crypto.Some? && !ri.crypto.value.Verify(size + HeaderLength)
  }

  /** The client is switched on, and not about to leave when it could still join. */
  predicate Willing(s: State, ch: Choices)
    requires Valid(s)
  {
    ch.active && (Current(s).phase.Prepare? ==> !ch.leaving)
  }

  predicate SendsInTurn(size: nat, id: Uuid, l: Local, s: State, ch: Choices, e: Effect)
    requires Valid(s)
  {
    && (e.op.Some? <==> if Refuses(size, l, s) then ch.active && id in Current(s).participants
                        else Willing(s, ch) && Open(l, Current(s).phase, s.round) && HasWork(Current(s), id))
    && (e.op.Some? ==> if Refuses(size, l, s) then e.op.value == AbortOp(s.round)
                       else ByClient(e.op.value, id) && Advances(s, e.op.value))
  }

  lemma SubmitsInTurn(size: nat, sha: Sha256, id: Uuid, l: Local, s: State, ch: Choices)
    requires Valid(s) && |ch.random| == 8 && |ch.fallbackRandom| == 8
    requires Current(s).phase.Submit? && Current(s).crypto.Some?
    ensures SendsInTurn(size, id, l, s, ch, Observe(size, sha, id, l, s, ch))
  {
    hide ObserveSubmit, Advances, VerifySysKey, SubmitOp, ParticipantIndex;
    hide FlagsInPhase, KeysInPhase, Distinct, PrefixClosed, AllSubmitted;
    SubmitCases(size, sha, id, l, s.round, Current(s), ch);
    if id in Current(s).participants {
      OwnMessage(sha, s, id, l.keys, ch);
      OwnMessage(sha, s, id, ch.keys, ch);
    }
  }

  lemma OwnMessage(sha: Sha256, s: State, id: Uuid, keys: Keys, ch: Choices)
    requires Valid(s) && Current(s).phase.Submit? && Current(s).crypto.Some? && id in Current(s).participants
    requires |ch.random| == 8 && |ch.fallbackRandom| == 8
    ensures var op := SubmitOp(sha, id, s.round, Current(s).crypto.value, keys, ch);
            && ByClient(op, id)
            && (Current(s).messages[ParticipantIndex(Current(s).participants, id)].Nil() ==> Advances(s, op))
  {
    hide Advances, RepInvariant, TextSent, Plain, HashKey;
    MessageAccepted(s, SubmitOp(sha, id, s.round, Current(s).crypto.value, keys, ch));
  }

  /** What the submit case sends, whatever keys it ends up with. */
  lemma SubmitCases(size: nat, sha: Sha256, id: Uuid, l: Local, round: int, ri: RoundInfo, ch: Choices)
    requires Shape(ri) && |ri.messages| == |ri.participants| && ri.crypto.Some?
    requires |ch.random| == 8 && |ch.fallbackRandom| == 8
    ensures var c, p := ri.crypto.value, ParticipantIndex(ri.participants, id);
            var op := ObserveSubmit(size, sha, id, l, round, ri, ch).op;
            if !ch.active || p == -1 then op == None
            else if round > l.lastKeyGen && !c.Verify(size + HeaderLength) then op == Some(AbortOp(round))
            else if round > l.lastMessageRound && ri.messages[p].Nil() then
              op == Some(SubmitOp(sha, id, round, c, if round > l.lastKeyGen then ch.keys else l.keys, ch))
            else op == None
  {
    hide VerifySysKey, SubmitOp, Distinct, PrefixClosed, ParticipantIndex;
  }

  lemma MessageAccepted(s: State, op: Op)
    requires Valid(s) && Current(s).phase.Submit? && op.MessageOp? && op.r == s.round
    requires op.id in Current(s).participants
    ensures Advances(s, op) <==> Current(s).messages[ParticipantIndex(Current(s).participants, op.id)].Nil()
  {
    hide FlagsInPhase, KeysInPhase, ParticipantIndex;
  }

  lemma ScramblesInTurn(size: nat, sha: Sha256, id: Uuid, l: Local, s: State, ch: Choices)
    requires Valid(s) && |ch.random| == 8 && |ch.fallbackRandom| == 8
    requires Current(s).phase.Scramble? && Current(s).crypto.Some?
    ensures SendsInTurn(size, id, l, s, ch, Observe(size, sha, id, l, s, ch))
  {
    hide Count, VerifySysKey, FlagsInPhase, KeysInPhase, MessagesInPhase, Distinct, ParticipantIndex;
    ScrambleTurn(Current(s), id);
  }

  lemma ScrambleTurn(ri: RoundInfo, id: Uuid)
    requires RepInvariant(ri)
    ensures var p := ParticipantIndex(ri.participants, id); p >= 0 && p == Count(ri.scrambled) ==> !ri.scrambled[p]
  {
    var p := ParticipantIndex(ri.participants, id);
    if p >= 0 {
      CountPrefix(ri.scrambled, p);
    }
  }

  lemma JoinsRevealsInTurn(size: nat, sha: Sha256, id: Uuid, l: Local, s: State, ch: Choices)
    requires Valid(s) && |ch.random| == 8 && |ch.fallbackRandom| == 8
    requires Current(s).phase.Prepare? || Current(s).phase.Reveal?
    ensures SendsInTurn(size, id, l, s, ch, Observe(size, sha, id, l, s, ch))
  {
    hide VerifySysKey, EncryptOthers, DecryptTwice, FlagsInPhase, KeysInPhase, MessagesInPhase, Count, Distinct;
  }

  lemma EncryptsDecryptsInTurn(size: nat, sha: Sha256, id: Uuid, l: Local, s: State, ch: Choices)
    requires Valid(s) && |ch.random| == 8 && |ch.fallbackRandom| == 8 && Current(s).crypto.Some?
    requires Current(s).phase.Encrypt? || Current(s).phase.Decrypt?
    ensures SendsInTurn(size, id, l, s, ch, Observe(size, sha, id, l, s, ch))
  {
    hide VerifySysKey, EncryptOthers, DecryptTwice, FlagsInPhase, KeysInPhase, MessagesInPhase, Count, Distinct;
  }

  /**
   * A client sends an operation exactly if it is willing, has not used up its guard, and some operation of its own
   * would be accepted now and do something new; what it then sends is such an operation. In Prepare that is its
   * JoinOp, which a leaving client does not send. Instead of taking keys under a crypto that does not verify, it
   * sends an abort.
   */
  lemma SendsExactly(size: nat, sha: Sha256, id: Uuid, l: Local, s: State, ch: Choices)
    requires Valid(s) && |ch.random| == 8 && |ch.fallbackRandom| == 8
    requires Current(s).phase.Prepare? || Current(s).crypto.Some?
    ensures SendsWhenDue(size, id, l, s, ch, Observe(size, sha, id, l, s, ch).op)
  {
    hide *;
    ContributesExactly(s, id);
    SomeTurn(size, sha, id, l, s, ch);
    TurnFacts(size, id, l, s, ch, Observe(size, sha, id, l, s, ch));
  }

  /**
   * An operation exactly if the client is willing, has its guard left and can contribute, and then one that does; an
   * abort instead under a crypto that the client refuses.
   */
  ghost predicate SendsWhenDue(size: nat, id: Uuid, l: Local, s: State, ch: Choices, op: Option<Op>)
    requires Valid(s)
  {
    if Refuses(size, l, s) then
      && (op.Some? <==> ch.active && id in Current(s).participants)
      && (op.Some? ==> op.value == AbortOp(s.round))
    else
      && (op.Some? <==> Willing(s, ch) && Open(l, Current(s).phase, s.round) && CanContribute(s, id))
      && (op.Some? ==> ByClient(op.value, id) && Advances(s, op.value))
  }

  lemma SomeTurn(size: nat, sha: Sha256, id: Uuid, l: Local, s: State, ch: Choices)
    requires Valid(s) && |ch.random| == 8 && |ch.fallbackRandom| == 8
    requires Current(s).phase.Prepare? || Current(s).crypto.Some?
    ensures SendsInTurn(size, id, l, s, ch, Observe(size, sha, id, l, s, ch))
  {
    hide Observe, SendsInTurn, RepInvariant;
    if Current(s).phase.Submit? {
      SubmitsInTurn(size, sha, id, l, s, ch);
    } else if Current(s).phase.Scramble? {
      ScramblesInTurn(size, sha, id, l, s, ch);
    } else if Current(s).phase.Encrypt? || Current(s).phase.Decrypt? {
      EncryptsDecryptsInTurn(size, sha, id, l, s, ch);
    } else {
      JoinsRevealsInTurn(size, sha, id, l, s, ch);
    }
  }

  lemma TurnFacts(size: nat, id: Uuid, l: Local, s: State, ch: Choices, e: Effect)
    requires Valid(s) && SendsInTurn(size, id, l, s, ch, e)
    requires CanContribute(s, id) <==> HasWork(Current(s), id)
    ensures SendsWhenDue(size, id, l, s, ch, e.op)
  {
    hide Refuses, Willing, Open, HasWork, Advances, CanContribute;
  }

  /** In Prepare a client joins exactly if it is active, not leaving, and not in the round yet. */
  lemma JoinsExactly(size: nat, sha: Sha256, id: Uuid, l: Local, s: State, ch: Choices)
    requires Valid(s) && |ch.random| == 8 && |ch.fallbackRandom| == 8 && Current(s).phase.Prepare?
    ensures var op := Observe(size, sha, id, l, s, ch).op;
            && (op == Some(JoinOp(id, s.round)) <==> ch.active && !ch.leaving && id !in Current(s).participants)
            && (op == None <==> !ch.active || ch.leaving || id in Current(s).participants)
  {
    hide RepInvariant;
  }

  /** An inactive client, and an outsider once the round has started, sends nothing and keeps all that it remembers. */
  lemma BystanderKeeps(size: nat, sha: Sha256, id: Uuid, l: Local, s: State, ch: Choices)
    requires Valid(s) && |ch.random| == 8 && |ch.fallbackRandom| == 8
    requires !ch.active || (!Current(s).phase.Prepare? && id !in Current(s).participants)
    ensures var e := Observe(size, sha, id, l, s, ch);
            && e.op == None && !e.panics
            && e.local == l.(lastResChSend := e.local.lastResChSend)
  {
    hide RepInvariant, VerifySysKey, EncryptOthers, DecryptTwice, TextSent, Plain, Count;
  }
}
