/** The operations against their documentation in anonbcast/op.go: when they are no-ops, and what they do otherwise. */
module Documented {
  import opened Crypto
  import opened Ops
  import opened Rounds

  /** How many participants have their flag set. */
  function HowMany(flags: seq<bool>): nat {
    multiset(flags)[true]
  }

  lemma {:induction false} CountIsHowMany(flags: seq<bool>)
    ensures Count(flags) == HowMany(flags)
  {
    if flags != [] {
      CountIsHowMany(flags[1..]);
      assert flags == [flags[0]] + flags[1..];
    }
  }

  /** The operation's phase, in which alone it is not a no-op; an abort has none. */
  predicate OutOfPhase(phase: Phase, op: Op) {
    match op
    case JoinOp(_, _) => !phase.Prepare?
    case StartOp(_, _, _) => !phase.Prepare?
    case MessageOp(_, _, _, _) => !phase.Submit?
    case EncryptedOp(_, _, _, _) => !phase.Encrypt?
    case ScrambledOp(_, _, _) => !phase.Scramble?
    case DecryptedOp(_, _, _, _) => !phase.Decrypt?
    case RevealOp(_, _, _) => !phase.Reveal?
    case AbortOp(_) => false
  }

  predicate Unknown(ri: RoundInfo, op: Op) {
    (op.MessageOp? || RewritesMessages(op) || op.RevealOp?) && op.id !in ri.participants
  }

  /** The reasons beyond round, phase and participant, for the participant at position p. */
  predicate Refused(ri: RoundInfo, op: Op, p: nat)
    requires Shape(ri) && p < |ri.participants|
  {
    match op
    case EncryptedOp(_, _, _, prev) => prev != HowMany(ri.encrypted) || ri.encrypted[p]
    case ScrambledOp(_, _, _) => (exists i :: 0 <= i < p && !ri.scrambled[i]) || ri.scrambled[p]
    case DecryptedOp(_, _, _, prev) => prev != HowMany(ri.decrypted) || ri.decrypted[p]
    case _ => false
  }

  /** The documentation gives a reason for the operation to be a no-op. */
  predicate HasReason(s: State, op: Op)
    requires Valid(s)
  {
    var ri := Current(s);
    || op.r != s.round || OutOfPhase(ri.phase, op)
    || (op.JoinOp? && op.id in ri.participants)
    || Unknown(ri, op)
    || (RewritesMessages(op) &&
        exists p :: 0 <= p < |ri.participants| && ri.participants[p] == op.id && Refused(ri, op, p))
  }

  lemma IndexIs(ids: seq<Uuid>, p: nat)
    requires Distinct(ids) && p < |ids|
    ensures ParticipantIndex(ids, ids[p]) == p
  {
  }

  lemma TurnIs(ri: RoundInfo, p: nat)
    requires Shape(ri) && p < |ri.participants|
    ensures Count(ri.scrambled) == p <==> !ri.scrambled[p] && forall i :: 0 <= i < p ==> ri.scrambled[i]
  {
    hide Count, PrefixClosed;
    forall i | 0 <= i < |ri.scrambled| ensures ri.scrambled[i] <==> i < Count(ri.scrambled) {
      CountPrefix(ri.scrambled, i);
    }
    assert p > 0 ==> (ri.scrambled[p - 1] <==> p - 1 < Count(ri.scrambled));
  }

  lemma RewriteReason(s: State, op: Op)
    requires Valid(s) && op.r == s.round && RewritesMessages(op) && op.id in Current(s).participants
    requires !OutOfPhase(Current(s).phase, op)
    ensures !Apply(s, op).updated <==> Refused(Current(s), op, ParticipantIndex(Current(s).participants, op.id))
  {
    var ri := Current(s);
    CountIsHowMany(ri.encrypted);
    CountIsHowMany(ri.decrypted);
    TurnIs(ri, ParticipantIndex(ri.participants, op.id));
    hide HowMany, Count, FlagsInPhase, KeysInPhase, MessagesInPhase;
  }

  lemma OtherReason(s: State, op: Op)
    requires Valid(s) && !(op.r == s.round && RewritesMessages(op) && op.id in Current(s).participants)
    ensures !Apply(s, op).updated <==> HasReason(s, op)
  {
    hide Refused, Count, FlagsInPhase, KeysInPhase, MessagesInPhase, Distinct, PrefixClosed;
  }

  lemma RewriteReasons(s: State, op: Op)
    requires Valid(s) && op.r == s.round && RewritesMessages(op) && op.id in Current(s).participants
    ensures !Apply(s, op).updated <==> HasReason(s, op)
  {
    var ri := Current(s);
    if OutOfPhase(ri.phase, op) {
      hide Refused, Count, FlagsInPhase, KeysInPhase, MessagesInPhase;
    } else {
      RewriteReason(s, op);
      hide Apply, Refused, FlagsInPhase, KeysInPhase, MessagesInPhase;
      forall p | 0 <= p < |ri.participants| && ri.participants[p] == op.id
        ensures p == ParticipantIndex(ri.participants, op.id)
      {
        IndexIs(ri.participants, p);
      }
    }
  }

  /** An operation is a no-op exactly for the documented reasons, and a no-op changes nothing. */
  lemma NoOpExactly(s: State, op: Op)
    requires Valid(s)
    ensures !Apply(s, op).updated <==> HasReason(s, op)
    ensures !Apply(s, op).updated ==> Apply(s, op).state == s
  {
    ApplyKeepsValid(s, op);
    hide Apply, HasReason, RepInvariant;
    if op.r == s.round && RewritesMessages(op) && op.id in Current(s).participants {
      RewriteReasons(s, op);
    } else {
      OtherReason(s, op);
    }
  }

  // ----- what they do otherwise

  /** b is a with x at position p and nothing else changed. */
  predicate PutAt<T(==)>(a: seq<T>, p: nat, x: T, b: seq<T>) {
    |b| == |a| && p < |a| && b[p] == x && forall i :: 0 <= i < |a| && i != p ==> b[i] == a[i]
  }

  /** What an operation that is no no-op makes of the round, and whether the round is over with it. */
  predicate DoesAsDocumented(a: RoundInfo, op: Op, p: nat, b: RoundInfo, over: bool) {
    match op
    case JoinOp(id, _) =>
      && !over && b.participants == a.participants + [id] && b.messages == a.messages + [NilMsg]
      && b.phase == a.phase && b.crypto == a.crypto
    case StartOp(_, _, crypto) => !over && b == a.(phase := Submit, crypto := crypto)
    case MessageOp(_, _, m, hash) =>
      && !over && PutAt(a.messages, p, m, b.messages) && PutAt(a.revealKeyHashes, p, hash, b.revealKeyHashes)
      && b.phase == (if AllSubmitted(b.messages) then Encrypt else Submit)
      && b == a.(messages := b.messages, revealKeyHashes := b.revealKeyHashes, phase := b.phase)
    case EncryptedOp(_, _, ms, _) =>
      && !over && PutAt(a.encrypted, p, true, b.encrypted)
      && b.phase == (if AllSet(b.encrypted) then Scramble else Encrypt)
      && b == a.(messages := ms, encrypted := b.encrypted, phase := b.phase)
    case ScrambledOp(_, _, ms) =>
      && !over && PutAt(a.scrambled, p, true, b.scrambled)
      && b.phase == (if AllSet(b.scrambled) then Decrypt else Scramble)
      && b == a.(messages := ms, scrambled := b.scrambled, phase := b.phase)
    case DecryptedOp(_, _, ms, _) =>
      && !over && PutAt(a.decrypted, p, true, b.decrypted)
      && b.phase == (if AllSet(b.decrypted) then Reveal else Decrypt)
      && b == a.(messages := ms, decrypted := b.decrypted, phase := b.phase)
    case RevealOp(_, _, key) =>
      && PutAt(a.revealedKeys, p, key, b.revealedKeys) && (over <==> AllRevealed(b.revealedKeys))
      && b == a.(revealedKeys := b.revealedKeys, phase := if over then Done else Reveal)
    case AbortOp(_) => over && b == a.(phase := Failed)
  }

  lemma JoinStartAbortDo(ri: RoundInfo, op: Op, p: nat)
    requires RepInvariant(ri) && Handle(ri, op).updated && (op.JoinOp? || op.StartOp? || op.AbortOp?)
    ensures DoesAsDocumented(ri, op, p, Handle(ri, op).ri, Handle(ri, op).over)
  {
    hide RepInvariant;
  }

  lemma MessageRevealDo(ri: RoundInfo, op: Op, p: nat)
    requires RepInvariant(ri) && Handle(ri, op).updated && (op.MessageOp? || op.RevealOp?)
    requires p < |ri.participants| && ri.participants[p] == op.id
    ensures DoesAsDocumented(ri, op, p, Handle(ri, op).ri, Handle(ri, op).over)
  {
    hide Count, FlagsInPhase, KeysInPhase, ParticipantIndex;
    IndexIs(ri.participants, p);
  }

  lemma RewritesDo(ri: RoundInfo, op: Op, p: nat)
    requires RepInvariant(ri) && Handle(ri, op).updated && RewritesMessages(op)
    requires p < |ri.participants| && ri.participants[p] == op.id
    ensures DoesAsDocumented(ri, op, p, Handle(ri, op).ri, Handle(ri, op).over)
  {
    hide Count, FlagsInPhase, KeysInPhase, MessagesInPhase, ParticipantIndex, AllSet;
    IndexIs(ri.participants, p);
    var o := Handle(ri, op).ri;
    CountExtremes(o.encrypted);
    CountExtremes(o.scrambled);
    CountExtremes(o.decrypted);
  }

  lemma HandleDoes(ri: RoundInfo, op: Op, p: nat)
    requires RepInvariant(ri) && Handle(ri, op).updated
    requires op.MessageOp? || RewritesMessages(op) || op.RevealOp? ==>
               p < |ri.participants| && ri.participants[p] == op.id
    ensures DoesAsDocumented(ri, op, p, Handle(ri, op).ri, Handle(ri, op).over)
  {
    hide Handle, RepInvariant, DoesAsDocumented;
    if op.MessageOp? || op.RevealOp? {
      MessageRevealDo(ri, op, p);
    } else if RewritesMessages(op) {
      RewritesDo(ri, op, p);
    } else {
      JoinStartAbortDo(ri, op, p);
    }
  }

  /**
   * An operation that is no no-op does to the current round what is documented, stores it under its number, and opens
   * the next round exactly if this one is over.
   */
  lemma EffectExactly(s: State, op: Op, p: nat)
    requires Valid(s) && Apply(s, op).updated
    requires op.MessageOp? || RewritesMessages(op) || op.RevealOp? ==>
               p < |Current(s).participants| && Current(s).participants[p] == op.id
    ensures var t := Apply(s, op).state;
            && |t.rounds| == 3 && GetRoundInfo(t, s.round).Some?
            && DoesAsDocumented(Current(s), op, p, GetRoundInfo(t, s.round).value, t.round != s.round)
            && (t.round != s.round ==> t.round == s.round + 1 && Current(t) == FreshRound)
  {
    ApplyShape(s, op);
    HandleDoes(Current(s), op, p);
    hide Handle, RepInvariant, DoesAsDocumented;
    assert s.round % 3 != (s.round + 1) % 3;
  }
}
