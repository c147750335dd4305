/** The replicated state machine of anonbcast/statemachine.go as values and functions. */
module Rounds {
  import opened Bytes
  import opened Crypto
  import opened Ops

  /** Unset is the zero value of a ring slot that no round has used yet. */
  datatype Phase = Unset | Prepare | Submit | Encrypt | Scramble | Decrypt | Reveal | Done | Failed

  datatype RoundInfo = RoundInfo(
    phase: Phase,
    crypto: Option<Crypto>,
    participants: seq<Uuid>,
    messages: seq<Msg>,
    encrypted: seq<bool>,
    scrambled: seq<bool>,
    decrypted: seq<bool>,
    revealedKeys: seq<PrivateKey>,
    revealKeyHashes: seq<seq<byte>>)

  /** The machine: the current round and the ring of the last three rounds. */
  datatype State = State(round: nat, rounds: seq<RoundInfo>)

  const NumRoundsPersisted := 3

  function EmptyRound(phase: Phase): RoundInfo {
    RoundInfo(phase, None, [], [], [], [], [], [], [])
  }

  const FreshRound: RoundInfo := EmptyRound(Prepare)

  const InitialState: State := State(0, [FreshRound, EmptyRound(Unset), EmptyRound(Unset)])

  // ----- flag lists

  function Count(flags: seq<bool>): (n: nat)
    ensures n <= |flags|
  {
    if flags == [] then 0 else (if flags[0] then 1 else 0) + Count(flags[1..])
  }

  predicate NoneSet(flags: seq<bool>) { forall i :: 0 <= i < |flags| ==> !flags[i] }

  predicate AllSet(flags: seq<bool>) { forall i :: 0 <= i < |flags| ==> flags[i] }

  predicate PrefixClosed(flags: seq<bool>) {
    forall i :: 0 < i < |flags| && flags[i] ==> flags[i - 1]
  }

  predicate AllSubmitted(messages: seq<Msg>) {
    forall i :: 0 <= i < |messages| ==> !messages[i].Nil()
  }

  predicate AllRevealed(keys: seq<PrivateKey>) {
    forall i :: 0 <= i < |keys| ==> !keys[i].Nil()
  }

  predicate NoneRevealed(keys: seq<PrivateKey>) {
    forall i :: 0 <= i < |keys| ==> keys[i].Nil()
  }

  /** The position of a participant, or -1. */
  function ParticipantIndex(participants: seq<Uuid>, id: Uuid): (p: int)
    ensures -1 <= p < |participants|
    ensures p >= 0 ==> participants[p] == id
    ensures p == -1 <==> id !in participants
  {
    if participants == [] then -1
    else if participants[0] == id then 0
    else
      var p := ParticipantIndex(participants[1..], id);
      if p < 0 then -1 else p + 1
  }

  // ----- the representation invariant that every operation keeps, honest or not

  predicate Distinct<T(==)>(s: seq<T>) {
    forall i, j :: 0 <= i < j < |s| ==> s[i] != s[j]
  }

  predicate Shape(ri: RoundInfo) {
    var n := |ri.participants|;
    && |ri.encrypted| == n && |ri.scrambled| == n && |ri.decrypted| == n
    && |ri.revealedKeys| == n && |ri.revealKeyHashes| == n
    && Distinct(ri.participants)
    && PrefixClosed(ri.scrambled)
  }

  function PhaseOrder(phase: Phase): nat {
    match phase
    case Unset => 0
    case Prepare => 0
    case Submit => 1
    case Encrypt => 2
    case Scramble => 3
    case Decrypt => 4
    case Reveal => 5
    case Done => 6
    case Failed => 7
  }

  /** A round that can still take operations. */
  predicate Active(phase: Phase) {
    phase.Prepare? || phase.Submit? || phase.Encrypt? || phase.Scramble? || phase.Decrypt? || phase.Reveal?
  }

  /** No flag is set before its phase, some flag is open during it, and all are set after it. */
  predicate FlagsInPhase(flags: seq<bool>, phase: Phase, own: Phase) {
    var order, mine := PhaseOrder(phase), PhaseOrder(own);
    && (order < mine ==> NoneSet(flags))
    && (order == mine ==> !AllSet(flags))
    && (order > mine ==> AllSet(flags))
  }

  predicate KeysInPhase(keys: seq<PrivateKey>, phase: Phase) {
    && (PhaseOrder(phase) < PhaseOrder(Reveal) ==> NoneRevealed(keys))
    && (phase == Reveal ==> !AllRevealed(keys))
    && (phase == Done ==> AllRevealed(keys))
  }

  predicate MessagesInPhase(ri: RoundInfo)
    requires |ri.revealKeyHashes| == |ri.participants|
  {
    && (ri.phase.Prepare? || ri.phase.Submit? ==> |ri.messages| == |ri.participants|)
    && (ri.phase.Prepare? ==> ri.crypto.None?)
    && (ri.phase.Prepare? ==>
          forall i :: 0 <= i < |ri.messages| ==> ri.messages[i].Nil() && ri.revealKeyHashes[i] == [])
    && (ri.phase.Submit? && ri.messages != [] ==> !AllSubmitted(ri.messages))
    && (PhaseOrder(ri.phase) >= 2 ==> ri.participants != [])
  }

  predicate RepInvariant(ri: RoundInfo) {
    && Shape(ri)
    && (ri.phase.Unset? ==> ri == EmptyRound(Unset))
    && (Active(ri.phase) || ri.phase.Done? ==>
      && FlagsInPhase(ri.encrypted, ri.phase, Encrypt)
      && FlagsInPhase(ri.scrambled, ri.phase, Scramble)
      && FlagsInPhase(ri.decrypted, ri.phase, Decrypt)
      && KeysInPhase(ri.revealedKeys, ri.phase)
      && MessagesInPhase(ri))
  }

  // ----- the handlers, on the current round

  /** What a handler did: the new round info, whether it reports an update, whether the round is over. */
  datatype Outcome = Outcome(ri: RoundInfo, updated: bool, over: bool)

  function NoOp(ri: RoundInfo): Outcome { Outcome(ri, false, false) }

  function HandleJoin(ri: RoundInfo, id: Uuid): Outcome {
    if ri.phase != Prepare || id in ri.participants then NoOp(ri)
    else Outcome(ri.(participants := ri.participants + [id],
                     messages := ri.messages + [NilMsg],
                     encrypted := ri.encrypted + [false],
                     scrambled := ri.scrambled + [false],
                     decrypted := ri.decrypted + [false],
                     revealedKeys := ri.revealedKeys + [NilPrivateKey],
                     revealKeyHashes := ri.revealKeyHashes + [[]]), true, false)
  }

  function HandleStart(ri: RoundInfo, crypto: Option<Crypto>): Outcome {
    if ri.phase != Prepare then NoOp(ri)
    else Outcome(ri.(phase := Submit, crypto := crypto), true, false)
  }

  function HandleMessage(ri: RoundInfo, id: Uuid, message: Msg, hash: seq<byte>): Outcome
    requires RepInvariant(ri)
  {
    var p := ParticipantIndex(ri.participants, id);
    if ri.phase != Submit || p < 0 then NoOp(ri)
    else
      var messages := ri.messages[p := message];
      Outcome(ri.(messages := messages,
                  revealKeyHashes := ri.revealKeyHashes[p := hash],
                  phase := if AllSubmitted(messages) then Encrypt else Submit), true, false)
  }

  function HandleEncrypted(ri: RoundInfo, id: Uuid, messages: seq<Msg>, prev: int): Outcome
    requires RepInvariant(ri)
  {
    var p := ParticipantIndex(ri.participants, id);
    if ri.phase != Encrypt || p < 0 || Count(ri.encrypted) != prev || ri.encrypted[p] then NoOp(ri)
    else
      var flags := ri.encrypted[p := true];
      Outcome(ri.(messages := messages, encrypted := flags,
                  phase := if Count(flags) == |flags| then Scramble else Encrypt), true, false)
  }

  function HandleScrambled(ri: RoundInfo, id: Uuid, messages: seq<Msg>): Outcome
    requires RepInvariant(ri)
  {
    var p := ParticipantIndex(ri.participants, id);
    if ri.phase != Scramble || p < 0 || Count(ri.scrambled) != p || ri.scrambled[p] then NoOp(ri)
    else
      var flags := ri.scrambled[p := true];
      Outcome(ri.(messages := messages, scrambled := flags,
                  phase := if Count(flags) == |flags| then Decrypt else Scramble), true, false)
  }

  function HandleDecrypted(ri: RoundInfo, id: Uuid, messages: seq<Msg>, prev: int): Outcome
    requires RepInvariant(ri)
  {
    var p := ParticipantIndex(ri.participants, id);
    if ri.phase != Decrypt || p < 0 || Count(ri.decrypted) != prev || ri.decrypted[p] then NoOp(ri)
    else
      var flags := ri.decrypted[p := true];
      Outcome(ri.(messages := messages, decrypted := flags,
                  phase := if Count(flags) == |flags| then Reveal else Decrypt), true, false)
  }

  function HandleReveal(ri: RoundInfo, id: Uuid, key: PrivateKey): Outcome
    requires RepInvariant(ri)
  {
    var p := ParticipantIndex(ri.participants, id);
    if ri.phase != Reveal || p < 0 then NoOp(ri)
    else
      var keys := ri.revealedKeys[p := key];
      if AllRevealed(keys) then Outcome(ri.(revealedKeys := keys, phase := Done), true, true)
      else Outcome(ri.(revealedKeys := keys), true, false)
  }

  function HandleAbort(ri: RoundInfo): Outcome {
    Outcome(ri.(phase := Failed), true, true)
  }

  function Handle(ri: RoundInfo, op: Op): Outcome
    requires RepInvariant(ri)
  {
    match op
    case JoinOp(id, _) => HandleJoin(ri, id)
    case StartOp(_, _, crypto) => HandleStart(ri, crypto)
    case MessageOp(id, _, message, hash) => HandleMessage(ri, id, message, hash)
    case EncryptedOp(id, _, messages, prev) => HandleEncrypted(ri, id, messages, prev)
    case ScrambledOp(id, _, messages) => HandleScrambled(ri, id, messages)
    case DecryptedOp(id, _, messages, prev) => HandleDecrypted(ri, id, messages, prev)
    case RevealOp(id, _, key) => HandleReveal(ri, id, key)
    case AbortOp(_) => HandleAbort(ri)
  }

  // ----- the machine

  /** The invariant of every reachable state, for arbitrary operations. */
  predicate Valid(s: State) {
    && |s.rounds| == NumRoundsPersisted
    && (forall i :: 0 <= i < NumRoundsPersisted ==> RepInvariant(s.rounds[i]))
    && Active(s.rounds[s.round % 3].phase)
    && (forall r :: 0 <= r < s.round && s.round - 3 < r ==>
          s.rounds[r % 3].phase.Done? || s.rounds[r % 3].phase.Failed?)
    && (s.round < 1 ==> s.rounds[1].phase.Unset?)
    && (s.round < 2 ==> s.rounds[2].phase.Unset?)
  }

  function Current(s: State): RoundInfo
    requires |s.rounds| == NumRoundsPersisted
  {
    s.rounds[s.round % 3]
  }

  /** The new state and whether the operation reports an effect. */
  datatype Applied = Applied(state: State, updated: bool)

  function Apply(s: State, op: Op): Applied
    requires Valid(s)
  {
    if op.r != s.round then Applied(s, false)
    else
      var o := Handle(Current(s), op);
      var rounds := s.rounds[s.round % 3 := o.ri];
      if o.over then Applied(State(s.round + 1, rounds[(s.round + 1) % 3 := FreshRound]), o.updated)
      else Applied(State(s.round, rounds), o.updated)
  }

  /** GetRoundInfo: the last three rounds that exist. */
  function GetRoundInfo(s: State, round: int): Option<RoundInfo>
    requires |s.rounds| == NumRoundsPersisted
  {
    if round > s.round || round < 0 || round <= s.round - NumRoundsPersisted then None
    else Some(s.rounds[round % 3])
  }

  /** GuaranteedNoEffect: the phase has moved past the operation's own phase, or the round has ended. */
  predicate GuaranteedNoEffect(s: State, op: Op)
    requires |s.rounds| == NumRoundsPersisted
  {
    || op.r < s.round
    || (op.r == s.round && match Current(s).phase
        case Reveal =>
          op.DecryptedOp? || op.ScrambledOp? || op.EncryptedOp? || op.MessageOp? || op.JoinOp? || op.StartOp?
        case Decrypt => op.ScrambledOp? || op.EncryptedOp? || op.MessageOp? || op.JoinOp? || op.StartOp?
        case Scramble => op.EncryptedOp? || op.MessageOp? || op.JoinOp? || op.StartOp?
        case Encrypt => op.MessageOp? || op.JoinOp? || op.StartOp?
        case Submit => op.JoinOp? || op.StartOp?
        case _ => false)
  }

  /** MayPrecede compares rounds first and then phases. */
  predicate MayPrecede(s: State, t: State)
    requires |s.rounds| == NumRoundsPersisted && |t.rounds| == NumRoundsPersisted
  {
    || s.round < t.round
    || (s.round == t.round && PhaseOrder(Current(s).phase) <= PhaseOrder(Current(t).phase))
  }

  // ----- counting flags

  lemma {:induction false} CountSet(flags: seq<bool>, p: nat)
    requires p < |flags| && !flags[p]
    ensures Count(flags[p := true]) == Count(flags) + 1
  {
    if p == 0 {
      assert flags[p := true][1..] == flags[1..];
    } else {
      CountSet(flags[1..], p - 1);
      assert flags[p := true][1..] == flags[1..][p - 1 := true];
    }
  }

  lemma {:induction false} CountExtremes(flags: seq<bool>)
    ensures Count(flags) == |flags| <==> AllSet(flags)
    ensures Count(flags) == 0 <==> NoneSet(flags)
  {
    if flags != [] {
      CountExtremes(flags[1..]);
      var t := flags[1..];
      assert forall i :: 0 < i < |flags| ==> flags[i] == t[i - 1];
      assert AllSet(flags) <==> flags[0] && AllSet(t);
      assert NoneSet(flags) <==> !flags[0] && NoneSet(t);
    }
  }

  /** In a prefix-closed list the count is where the set part ends. */
  lemma {:induction false} CountPrefix(flags: seq<bool>, i: nat)
    requires PrefixClosed(flags) && i < |flags|
    ensures flags[i] <==> i < Count(flags)
  {
    var t := flags[1..];
    assert PrefixClosed(t) by {
      forall j | 0 < j < |t| && t[j] ensures t[j - 1] {
        assert flags[j + 1];
      }
    }
    if i > 0 {
      CountPrefix(t, i - 1);
      if !flags[0] {
        CountZeroAfterGap(flags);
      }
    } else if !flags[0] {
      CountZeroAfterGap(flags);
    }
  }

  lemma {:induction false} CountZeroAfterGap(flags: seq<bool>)
    requires PrefixClosed(flags) && (flags != [] ==> !flags[0])
    ensures Count(flags) == 0
  {
    if flags != [] {
      var t := flags[1..];
      assert forall j :: 0 <= j < |t| ==> t[j] == flags[j + 1];
      CountZeroAfterGap(t);
    }
  }

  /** Among pointwise comparable lists the count decides equality. */
  lemma {:induction false} CountMonotone(a: seq<bool>, b: seq<bool>)
    requires |a| == |b| && forall i :: 0 <= i < |a| && a[i] ==> b[i]
    ensures Count(a) <= Count(b)
    ensures Count(a) == Count(b) ==> a == b
  {
    if a != [] {
      CountMonotone(a[1..], b[1..]);
      assert a == [a[0]] + a[1..] && b == [b[0]] + b[1..];
    }
  }

  // ----- every operation keeps the invariant

  lemma NoneSetNotAll(flags: seq<bool>)
    requires flags != [] && NoneSet(flags)
    ensures !AllSet(flags)
  {
    assert !flags[0];
  }

  lemma JoinKeepsRep(ri: RoundInfo, id: Uuid)
    requires RepInvariant(ri)
    ensures RepInvariant(HandleJoin(ri, id).ri)
  {
  }

  lemma MessageKeepsRep(ri: RoundInfo, id: Uuid, message: Msg, hash: seq<byte>)
    requires RepInvariant(ri)
    ensures RepInvariant(HandleMessage(ri, id, message, hash).ri)
  {
    if ri.phase.Submit? && ri.participants != [] {
      NoneSetNotAll(ri.encrypted);
    }
  }

  lemma EncryptedKeepsRep(ri: RoundInfo, id: Uuid, messages: seq<Msg>, prev: int)
    requires RepInvariant(ri)
    ensures RepInvariant(HandleEncrypted(ri, id, messages, prev).ri)
  {
    var o := HandleEncrypted(ri, id, messages, prev);
    if o.updated {
      CountExtremes(o.ri.encrypted);
      NoneSetNotAll(ri.scrambled);
    }
  }

  lemma ScrambledKeepsRep(ri: RoundInfo, id: Uuid, messages: seq<Msg>)
    requires RepInvariant(ri)
    ensures RepInvariant(HandleScrambled(ri, id, messages).ri)
  {
    var o := HandleScrambled(ri, id, messages);
    if o.updated {
      var p := ParticipantIndex(ri.participants, id);
      CountExtremes(o.ri.scrambled);
      NoneSetNotAll(ri.decrypted);
      if p > 0 {
        CountPrefix(ri.scrambled, p - 1);
      }
      assert PrefixClosed(o.ri.scrambled);
    }
  }

  lemma DecryptedKeepsRep(ri: RoundInfo, id: Uuid, messages: seq<Msg>, prev: int)
    requires RepInvariant(ri)
    ensures RepInvariant(HandleDecrypted(ri, id, messages, prev).ri)
  {
    var o := HandleDecrypted(ri, id, messages, prev);
    if o.updated {
      CountExtremes(o.ri.decrypted);
      assert ri.revealedKeys[0].Nil();
    }
  }

  lemma RevealKeepsRep(ri: RoundInfo, id: Uuid, key: PrivateKey)
    requires RepInvariant(ri)
    ensures RepInvariant(HandleReveal(ri, id, key).ri)
  {
  }

  /** Whatever the operation, a handler keeps the round's invariant, and it ends the round only as Done or Failed. */
  lemma HandleKeepsRep(ri: RoundInfo, op: Op)
    requires RepInvariant(ri) && Active(ri.phase)
    ensures var o := Handle(ri, op);
            && RepInvariant(o.ri)
            && (!o.updated ==> o == NoOp(ri))
            && (o.over <==> !Active(o.ri.phase))
            && (o.over ==> o.ri.phase.Done? || o.ri.phase.Failed?)
  {
    hide RepInvariant, Count;
    match op
    case JoinOp(id, _) => JoinKeepsRep(ri, id);
    case StartOp(_, _, _) => StartAndAbortKeepRep(ri, op);
    case MessageOp(id, _, message, hash) => MessageKeepsRep(ri, id, message, hash);
    case EncryptedOp(id, _, messages, prev) => EncryptedKeepsRep(ri, id, messages, prev);
    case ScrambledOp(id, _, messages) => ScrambledKeepsRep(ri, id, messages);
    case DecryptedOp(id, _, messages, prev) => DecryptedKeepsRep(ri, id, messages, prev);
    case RevealOp(id, _, key) => RevealKeepsRep(ri, id, key);
    case AbortOp(_) => StartAndAbortKeepRep(ri, op);
  }

  lemma StartAndAbortKeepRep(ri: RoundInfo, op: Op)
    requires RepInvariant(ri) && (op.StartOp? || op.AbortOp?)
    ensures RepInvariant(Handle(ri, op).ri)
  {
    assert ri.phase.Prepare? && ri.messages != [] ==> ri.messages[0].Nil();
  }

  /** What Apply does with an operation of the current round, in terms of its handler. */
  lemma ApplyShape(s: State, op: Op)
    requires Valid(s) && op.r == s.round
    ensures var o := Handle(Current(s), op);
            && Apply(s, op).updated == o.updated
            && Apply(s, op).state
               == if o.over then State(s.round + 1, s.rounds[s.round % 3 := o.ri][(s.round + 1) % 3 := FreshRound])
                  else State(s.round, s.rounds[s.round % 3 := o.ri])
  {
    hide Handle;
  }

  /** Apply keeps Valid, and an operation that reports no update changes nothing. */
  lemma ApplyKeepsValid(s: State, op: Op)
    requires Valid(s)
    ensures Valid(Apply(s, op).state)
    ensures !Apply(s, op).updated ==> Apply(s, op).state == s
  {
    if op.r == s.round {
      CurrentRep(s);
      ApplyShape(s, op);
      HandleKeepsRep(Current(s), op);
      hide RepInvariant, Handle, Apply, Valid;
      var o := Handle(Current(s), op);
      if o.over {
        AdvanceKeepsValid(s, o.ri);
      } else {
        ReplaceKeepsValid(s, o.ri);
      }
    }
  }

  lemma CurrentRep(s: State)
    requires Valid(s)
    ensures RepInvariant(Current(s)) && Active(Current(s).phase)
  {
    hide RepInvariant;
  }

  lemma ReplaceKeepsValid(s: State, ri: RoundInfo)
    requires Valid(s) && RepInvariant(ri) && Active(ri.phase)
    ensures Valid(State(s.round, s.rounds[s.round % 3 := ri]))
    ensures ri == Current(s) ==> s.rounds[s.round % 3 := ri] == s.rounds
  {
    hide RepInvariant;
  }

  lemma AdvanceKeepsValid(s: State, last: RoundInfo)
    requires Valid(s) && RepInvariant(last) && (last.phase.Done? || last.phase.Failed?)
    ensures Valid(State(s.round + 1, s.rounds[s.round % 3 := last][(s.round + 1) % 3 := FreshRound]))
  {
    FreshRoundRep();
    hide RepInvariant;
    var t := State(s.round + 1, s.rounds[s.round % 3 := last][(s.round + 1) % 3 := FreshRound]);
    forall r | 0 <= r < t.round && t.round - 3 < r
      ensures t.rounds[r % 3].phase.Done? || t.rounds[r % 3].phase.Failed?
    {
      assert r == s.round || r == s.round - 1;
      assert r % 3 != t.round % 3;
    }
  }

  lemma FreshRoundRep()
    ensures RepInvariant(FreshRound)
    ensures Valid(InitialState)
  {
  }
}
