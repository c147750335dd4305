/** What holds in every run of the state machine, whatever operations the log carries. */
module Runs {
  import opened Bytes
  import opened Crypto
  import opened Ops
  import opened Rounds

  /** The state after a log of operations. */
  function Run(s: State, ops: seq<Op>): (t: State)
    requires Valid(s)
    ensures Valid(t)
    decreases |ops|
  {
    if ops == [] then s
    else
      ApplyKeepsValid(s, ops[0]);
      Run(Apply(s, ops[0]).state, ops[1..])
  }

  lemma {:induction false} RunConcat(s: State, a: seq<Op>, b: seq<Op>)
    requires Valid(s)
    ensures Run(s, a + b) == Run(Run(s, a), b)
    decreases |a|
  {
    if a == [] {
      assert a + b == b;
    } else {
      ApplyKeepsValid(s, a[0]);
      assert (a + b)[1..] == a[1..] + b;
      RunConcat(Apply(s, a[0]).state, a[1..], b);
    }
  }

  lemma RunOne(s: State, op: Op)
    requires Valid(s)
    ensures Run(s, [op]) == Apply(s, op).state
  {
    ApplyKeepsValid(s, op);
    hide Apply, Valid;
    assert [op][1..] == [];
  }

  lemma RunSnoc(s: State, ops: seq<Op>, op: Op)
    requires Valid(s)
    ensures Run(s, ops + [op]) == Apply(Run(s, ops), op).state
  {
    hide Apply, Valid, Run;
    RunConcat(s, ops, [op]);
    RunOne(Run(s, ops), op);
  }

  // ----- how a round changes while it lasts

  predicate FlagsGrow(a: seq<bool>, b: seq<bool>) {
    |a| <= |b| && forall i :: 0 <= i < |a| && a[i] ==> b[i]
  }

  /** In the phases that rewrite the message list, the number of set flags is the list's version. */
  predicate SameVersion(a: RoundInfo, b: RoundInfo) {
    && (a.phase.Encrypt? && b.phase.Encrypt? && Count(a.encrypted) == Count(b.encrypted)
        ==> a.messages == b.messages && a.encrypted == b.encrypted)
    && (a.phase.Scramble? && b.phase.Scramble? && Count(a.scrambled) == Count(b.scrambled)
        ==> a.messages == b.messages && a.scrambled == b.scrambled)
    && (a.phase.Decrypt? && b.phase.Decrypt? && Count(a.decrypted) == Count(b.decrypted)
        ==> a.messages == b.messages && a.decrypted == b.decrypted)
    && (PhaseOrder(a.phase) >= 5 ==> a.messages == b.messages)
  }

  /** b can be a later view of the round viewed as a. */
  predicate Evolves(a: RoundInfo, b: RoundInfo) {
    && PhaseOrder(a.phase) <= PhaseOrder(b.phase)
    && a.participants <= b.participants
    && (PhaseOrder(a.phase) >= 1 ==> a.participants == b.participants && a.crypto == b.crypto)
    && FlagsGrow(a.encrypted, b.encrypted)
    && FlagsGrow(a.scrambled, b.scrambled)
    && FlagsGrow(a.decrypted, b.decrypted)
    && (PhaseOrder(a.phase) >= 2 ==> a.revealKeyHashes == b.revealKeyHashes)
    && SameVersion(a, b)
  }

  lemma EncryptedEvolves(ri: RoundInfo, id: Uuid, messages: seq<Msg>, prev: int)
    requires RepInvariant(ri)
    ensures Evolves(ri, HandleEncrypted(ri, id, messages, prev).ri)
  {
    if HandleEncrypted(ri, id, messages, prev).updated {
      CountSet(ri.encrypted, ParticipantIndex(ri.participants, id));
    }
  }

  lemma ScrambledEvolves(ri: RoundInfo, id: Uuid, messages: seq<Msg>)
    requires RepInvariant(ri)
    ensures Evolves(ri, HandleScrambled(ri, id, messages).ri)
  {
    if HandleScrambled(ri, id, messages).updated {
      CountSet(ri.scrambled, ParticipantIndex(ri.participants, id));
    }
  }

  lemma DecryptedEvolves(ri: RoundInfo, id: Uuid, messages: seq<Msg>, prev: int)
    requires RepInvariant(ri)
    ensures Evolves(ri, HandleDecrypted(ri, id, messages, prev).ri)
  {
    if HandleDecrypted(ri, id, messages, prev).updated {
      CountSet(ri.decrypted, ParticipantIndex(ri.participants, id));
    }
  }

  lemma OtherEvolves(ri: RoundInfo, op: Op)
    requires RepInvariant(ri) && Active(ri.phase)
    requires !op.EncryptedOp? && !op.ScrambledOp? && !op.DecryptedOp?
    ensures Evolves(ri, Handle(ri, op).ri)
  {
    hide Count;
  }

  lemma HandleEvolves(ri: RoundInfo, op: Op)
    requires RepInvariant(ri) && Active(ri.phase)
    ensures Evolves(ri, Handle(ri, op).ri)
  {
    hide Evolves, RepInvariant;
    match op
    case EncryptedOp(id, _, messages, prev) => EncryptedEvolves(ri, id, messages, prev);
    case ScrambledOp(id, _, messages) => ScrambledEvolves(ri, id, messages);
    case DecryptedOp(id, _, messages, prev) => DecryptedEvolves(ri, id, messages, prev);
    case _ => OtherEvolves(ri, op);
  }

  lemma FlagsGrowCount(a: RoundInfo, b: RoundInfo)
    requires Shape(a) && Shape(b) && Evolves(a, b) && PhaseOrder(a.phase) >= 1
    ensures Count(a.encrypted) <= Count(b.encrypted)
    ensures Count(a.scrambled) <= Count(b.scrambled)
    ensures Count(a.decrypted) <= Count(b.decrypted)
  {
    CountMonotone(a.encrypted, b.encrypted);
    CountMonotone(a.scrambled, b.scrambled);
    CountMonotone(a.decrypted, b.decrypted);
  }

  lemma EvolvesTransitive(a: RoundInfo, b: RoundInfo, c: RoundInfo)
    requires Shape(a) && Shape(b) && Shape(c)
    requires Evolves(a, b) && Evolves(b, c)
    ensures Evolves(a, c)
  {
    if PhaseOrder(a.phase) >= 1 {
      FlagsGrowCount(a, b);
      FlagsGrowCount(b, c);
      hide Count;
      assert SameVersion(a, c);
    }
  }

  /** t can come after s in a run. */
  predicate StateEvolves(s: State, t: State)
    requires Valid(s) && Valid(t)
  {
    s.round < t.round || (s.round == t.round && Evolves(Current(s), Current(t)))
  }

  lemma ApplyEvolves(s: State, op: Op)
    requires Valid(s)
    ensures Valid(Apply(s, op).state)
    ensures StateEvolves(s, Apply(s, op).state)
  {
    ApplyKeepsValid(s, op);
    if op.r == s.round {
      HandleEvolves(Current(s), op);
    }
  }

  lemma StateEvolvesTransitive(s: State, t: State, u: State)
    requires Valid(s) && Valid(t) && Valid(u)
    requires StateEvolves(s, t) && StateEvolves(t, u)
    ensures StateEvolves(s, u)
  {
    if s.round == t.round == u.round {
      EvolvesTransitive(Current(s), Current(t), Current(u));
    }
  }

  lemma {:induction false} RunEvolves(s: State, ops: seq<Op>)
    requires Valid(s)
    ensures StateEvolves(s, Run(s, ops))
    decreases |ops|
  {
    if ops != [] {
      ApplyEvolves(s, ops[0]);
      var t := Apply(s, ops[0]).state;
      RunEvolves(t, ops[1..]);
      StateEvolvesTransitive(s, t, Run(s, ops));
    }
  }

  // ----- MayPrecede

  lemma MayPrecedeOrder(s: State, t: State, u: State)
    requires |s.rounds| == 3 && |t.rounds| == 3 && |u.rounds| == 3
    ensures MayPrecede(s, s)
    ensures MayPrecede(s, t) && MayPrecede(t, u) ==> MayPrecede(s, u)
    ensures MayPrecede(s, t) || MayPrecede(t, s)
  {
  }

  /**
   * Along every run states may precede one another, the round grows by at most one per operation and a new round
   * starts fresh.
   */
  lemma RunMayPrecede(s: State, ops: seq<Op>)
    requires Valid(s)
    ensures MayPrecede(s, Run(s, ops))
    ensures s.round <= Run(s, ops).round <= s.round + |ops|
    ensures |ops| == 1 && Run(s, ops).round == s.round + 1 ==> Current(Run(s, ops)) == FreshRound
    decreases |ops|
  {
    RunEvolves(s, ops);
    if ops != [] {
      ApplyKeepsValid(s, ops[0]);
      RunMayPrecede(Apply(s, ops[0]).state, ops[1..]);
    }
  }

  // ----- GuaranteedNoEffect

  lemma GuaranteedIsNoOp(s: State, op: Op)
    requires Valid(s) && GuaranteedNoEffect(s, op)
    ensures Apply(s, op) == Applied(s, false)
  {
    ApplyKeepsValid(s, op);
  }

  lemma GuaranteedStable(s: State, t: State, op: Op)
    requires Valid(s) && Valid(t) && StateEvolves(s, t)
    requires GuaranteedNoEffect(s, op)
    ensures GuaranteedNoEffect(t, op)
  {
  }

  /** The operation reports no update and changes nothing now and after any further operations. */
  ghost predicate NoEffectForever(s: State, op: Op)
    requires Valid(s)
  {
    forall ops: seq<Op> :: Apply(Run(s, ops), op) == Applied(Run(s, ops), false)
  }

  /** GuaranteedNoEffect is sound for every operation. */
  lemma GuaranteedNoEffectSound(s: State, op: Op)
    requires Valid(s) && GuaranteedNoEffect(s, op)
    ensures NoEffectForever(s, op)
  {
    forall ops: seq<Op> ensures Apply(Run(s, ops), op) == Applied(Run(s, ops), false) {
      RunEvolves(s, ops);
      GuaranteedStable(s, Run(s, ops), op);
      GuaranteedIsNoOp(Run(s, ops), op);
    }
  }

  // ----- stale operations

  /**
   * What any operation of a client that follows the protocol satisfies in the state it was computed
   * from: round and phase match, and the guard that the client checked there holds.
   */
  predicate ComputedFrom(s: State, op: Op)
    requires Valid(s)
  {
    var ri := Current(s);
    && op.r == s.round
    && match op
       case JoinOp(id, _) => id !in ri.participants
       case StartOp(id, _, _) => id in ri.participants
       case MessageOp(id, _, _, _) => ri.phase.Submit? && id in ri.participants
       case EncryptedOp(id, _, _, prev) =>
         ri.phase.Encrypt? && id in ri.participants && prev == Count(ri.encrypted)
         && !ri.encrypted[ParticipantIndex(ri.participants, id)]
       case ScrambledOp(id, _, _) =>
         ri.phase.Scramble? && ParticipantIndex(ri.participants, id) == Count(ri.scrambled)
       case DecryptedOp(id, _, _, prev) =>
         ri.phase.Decrypt? && id in ri.participants && prev == Count(ri.decrypted)
         && !ri.decrypted[ParticipantIndex(ri.participants, id)]
       case RevealOp(id, _, _) => ri.phase.Reveal? && id in ri.participants
       case AbortOp(_) => true
  }

  /** The operation's moment has passed for good. */
  predicate Dead(s: State, op: Op)
    requires Valid(s)
  {
    var ri := Current(s);
    || op.r < s.round
    || (op.r == s.round && match op
        case JoinOp(id, _) => !ri.phase.Prepare? || id in ri.participants
        case StartOp(_, _, _) => !ri.phase.Prepare?
        case MessageOp(_, _, _, _) => PhaseOrder(ri.phase) > 1
        case EncryptedOp(id, _, _, prev) =>
          PhaseOrder(ri.phase) > 2
          || (ri.phase.Encrypt? && prev < Count(ri.encrypted))
          || (ri.phase.Encrypt? && id in ri.participants && ri.encrypted[ParticipantIndex(ri.participants, id)])
        case ScrambledOp(id, _, _) =>
          PhaseOrder(ri.phase) > 3
          || (ri.phase.Scramble? && ParticipantIndex(ri.participants, id) < Count(ri.scrambled))
        case DecryptedOp(id, _, _, prev) =>
          PhaseOrder(ri.phase) > 4
          || (ri.phase.Decrypt? && prev < Count(ri.decrypted))
          || (ri.phase.Decrypt? && id in ri.participants && ri.decrypted[ParticipantIndex(ri.participants, id)])
        case RevealOp(_, _, _) => false
        case AbortOp(_) => false)
  }

  lemma DeadIsNoOp(s: State, op: Op)
    requires Valid(s) && Dead(s, op)
    ensures Apply(s, op) == Applied(s, false)
  {
    ApplyKeepsValid(s, op);
    if op.r == s.round && op.ScrambledOp? && Current(s).phase.Scramble? {
      var ri := Current(s);
      var p := ParticipantIndex(ri.participants, op.id);
      if p >= 0 {
        CountPrefix(ri.scrambled, p);
      }
    }
  }

  lemma DeadStable(s: State, t: State, op: Op)
    requires Valid(s) && Valid(t) && StateEvolves(s, t)
    requires Dead(s, op)
    ensures Dead(t, op)
  {
    if op.r == s.round == t.round {
      var a, b := Current(s), Current(t);
      if PhaseOrder(a.phase) >= 1 {
        FlagsGrowCount(a, b);
      }
    }
  }

  lemma DeadForever(s: State, op: Op)
    requires Valid(s) && Dead(s, op)
    ensures NoEffectForever(s, op)
  {
    forall ops: seq<Op> ensures Apply(Run(s, ops), op) == Applied(Run(s, ops), false) {
      RunEvolves(s, ops);
      DeadStable(s, Run(s, ops), op);
      DeadIsNoOp(Run(s, ops), op);
    }
  }

  lemma LiveOrDeadScrambled(s: State, t: State, op: Op)
    requires Valid(s) && Valid(t) && StateEvolves(s, t) && ComputedFrom(s, op) && op.r == t.round && op.ScrambledOp?
    ensures Apply(t, op).updated || Dead(t, op)
  {
    var a, b := Current(s), Current(t);
    FlagsGrowCount(a, b);
    if b.phase.Scramble? && Count(b.scrambled) < |b.scrambled| {
      CountPrefix(b.scrambled, Count(b.scrambled));
    }
    hide Count, FlagsInPhase, KeysInPhase, MessagesInPhase;
  }

  lemma LiveOrDeadCounted(s: State, t: State, op: Op)
    requires Valid(s) && Valid(t) && StateEvolves(s, t) && ComputedFrom(s, op) && op.r == t.round
    requires op.EncryptedOp? || op.DecryptedOp?
    ensures Apply(t, op).updated || Dead(t, op)
  {
    FlagsGrowCount(Current(s), Current(t));
    hide Count, FlagsInPhase, KeysInPhase, MessagesInPhase;
  }

  lemma LiveOrDeadOther(s: State, t: State, op: Op)
    requires Valid(s) && Valid(t) && StateEvolves(s, t) && ComputedFrom(s, op) && op.r == t.round
    requires !op.EncryptedOp? && !op.ScrambledOp? && !op.DecryptedOp?
    ensures Apply(t, op).updated || Dead(t, op)
  {
    hide Count, FlagsInPhase, KeysInPhase, MessagesInPhase;
  }

  /** In any later state an honest operation takes effect or is dead; it is never a no-op for now. */
  lemma LiveOrDead(s: State, t: State, op: Op)
    requires Valid(s) && Valid(t) && StateEvolves(s, t)
    requires ComputedFrom(s, op)
    ensures Apply(t, op).updated || Dead(t, op)
  {
    if op.r == t.round {
      hide RepInvariant, Apply, Handle, Evolves, Count;
      if op.ScrambledOp? {
        LiveOrDeadScrambled(s, t, op);
      } else if op.EncryptedOp? || op.DecryptedOp? {
        LiveOrDeadCounted(s, t, op);
      } else {
        LiveOrDeadOther(s, t, op);
      }
    }
  }

  /**
   * No temporary no-ops: applied anywhere later in the log, an honest operation takes effect there or never again has
   * one, whatever the rest of the log carries.
   */
  lemma NoTemporaryNoOp(s: State, op: Op, ops: seq<Op>)
    requires Valid(s) && ComputedFrom(s, op)
    ensures Apply(Run(s, ops), op).updated || NoEffectForever(Run(s, ops), op)
  {
    RunEvolves(s, ops);
    LiveOrDead(s, Run(s, ops), op);
    if !Apply(Run(s, ops), op).updated {
      DeadForever(Run(s, ops), op);
    }
  }

  /** Test-and-set: a rewrite computed from any earlier state is accepted only onto the list it was computed from. */
  lemma TestAndSet(s: State, t: State, op: Op)
    requires Valid(s) && Valid(t) && StateEvolves(s, t)
    requires RewritesMessages(op) && ComputedFrom(s, op)
    requires Apply(t, op).updated
    ensures s.round == t.round
    ensures Current(s).phase == Current(t).phase
    ensures Current(s).messages == Current(t).messages
    ensures Current(s).encrypted == Current(t).encrypted
    ensures Current(s).scrambled == Current(t).scrambled
    ensures Current(s).decrypted == Current(t).decrypted
  {
    var a, b := Current(s), Current(t);
    AllSetUnique(a.encrypted, b.encrypted);
    AllSetUnique(a.scrambled, b.scrambled);
    NoneSetUnique(a.scrambled, b.scrambled);
    NoneSetUnique(a.decrypted, b.decrypted);
  }

  lemma AllSetUnique(a: seq<bool>, b: seq<bool>)
    ensures |a| == |b| && AllSet(a) && AllSet(b) ==> a == b
  {
  }

  lemma NoneSetUnique(a: seq<bool>, b: seq<bool>)
    ensures |a| == |b| && NoneSet(a) && NoneSet(b) ==> a == b
  {
  }

  // ----- the ring of three rounds refines an unbounded ledger

  /** All rounds so far, the current one last. */
  predicate ValidLedger(l: seq<RoundInfo>) {
    && l != []
    && RepInvariant(l[|l| - 1]) && Active(l[|l| - 1].phase)
    && forall r :: 0 <= r < |l| - 1 ==> l[r].phase.Done? || l[r].phase.Failed?
  }

  /** The state machine without the ring: nothing is ever overwritten. */
  function LedgerApply(l: seq<RoundInfo>, op: Op): (m: seq<RoundInfo>)
    requires ValidLedger(l)
    ensures ValidLedger(m)
    ensures |l| <= |m| && m[..|l| - 1] == l[..|l| - 1]
  {
    var last := |l| - 1;
    if op.r != last then l
    else
      HandleKeepsRep(l[last], op);
      FreshRoundRep();
      var o := Handle(l[last], op);
      l[..last] + [o.ri] + if o.over then [FreshRound] else []
  }

  function LedgerRun(l: seq<RoundInfo>, ops: seq<Op>): (m: seq<RoundInfo>)
    requires ValidLedger(l)
    ensures ValidLedger(m)
    ensures |l| <= |m| && m[..|l| - 1] == l[..|l| - 1]
    decreases |ops|
  {
    if ops == [] then l
    else
      var k := LedgerApply(l, ops[0]);
      var m := LedgerRun(k, ops[1..]);
      assert m[..|l| - 1] == m[..|k| - 1][..|l| - 1];
      m
  }

  predicate RingOf(s: State, l: seq<RoundInfo>) {
    && |s.rounds| == 3
    && s.round == |l| - 1
    && forall r :: 0 <= r < |l| && s.round - 3 < r ==> s.rounds[r % 3] == l[r]
  }

  lemma ApplyRefines(s: State, l: seq<RoundInfo>, op: Op)
    requires Valid(s) && ValidLedger(l) && RingOf(s, l)
    ensures RingOf(Apply(s, op).state, LedgerApply(l, op))
  {
    if op.r == s.round {
      assert l[|l| - 1] == Current(s);
      var o := Handle(Current(s), op);
      RingUpdate(s, l, o.ri);
      hide Handle, RepInvariant, RingOf;
      if o.over {
        assert LedgerApply(l, op) == l[..|l| - 1] + [o.ri] + [FreshRound];
      } else {
        assert LedgerApply(l, op) == l[..|l| - 1] + [o.ri];
      }
    }
  }

  lemma RingUpdate(s: State, l: seq<RoundInfo>, x: RoundInfo)
    requires l != [] && RingOf(s, l)
    ensures RingOf(State(s.round, s.rounds[s.round % 3 := x]), l[..|l| - 1] + [x])
    ensures RingOf(State(s.round + 1, s.rounds[s.round % 3 := x][(s.round + 1) % 3 := FreshRound]),
                   l[..|l| - 1] + [x] + [FreshRound])
  {
    forall r | s.round - 3 < r < s.round ensures r % 3 != s.round % 3 {
      assert r == s.round - 1 || r == s.round - 2;
    }
    forall r | s.round - 2 < r <= s.round ensures r % 3 != (s.round + 1) % 3 {
      assert r == s.round - 1 || r == s.round;
    }
  }

  lemma {:induction false} RunRefines(s: State, l: seq<RoundInfo>, ops: seq<Op>)
    requires Valid(s) && ValidLedger(l) && RingOf(s, l)
    ensures RingOf(Run(s, ops), LedgerRun(l, ops))
    decreases |ops|
  {
    if ops != [] {
      ApplyKeepsValid(s, ops[0]);
      ApplyRefines(s, l, ops[0]);
      RunRefines(Apply(s, ops[0]).state, LedgerApply(l, ops[0]), ops[1..]);
    }
  }

  function FromStart(ops: seq<Op>): (s: State)
    ensures Valid(s)
  {
    FreshRoundRep();
    Run(InitialState, ops)
  }

  function LedgerFromStart(ops: seq<Op>): (l: seq<RoundInfo>)
    ensures ValidLedger(l)
  {
    FreshRoundRep();
    LedgerRun([FreshRound], ops)
  }

  /**
   * From the initial state, GetRoundInfo answers for exactly the last three existing rounds, and its answer is the
   * ledger's entry; entries before the last are finished and survive every continuation.
   */
  lemma RingRefinement(ops: seq<Op>, more: seq<Op>, round: int)
    ensures var s, l := FromStart(ops), LedgerFromStart(ops);
            && s.round == |l| - 1
            && GetRoundInfo(s, round) == (if 0 <= round < |l| && |l| - 4 < round then Some(l[round]) else None)
            && (0 <= round < |l| - 1 ==> (l[round].phase.Done? || l[round].phase.Failed?)
                                         && LedgerRun(l, more)[round] == l[round])
  {
    FreshRoundRep();
    RunRefines(InitialState, [FreshRound], ops);
    var l := LedgerFromStart(ops);
    var m := LedgerRun(l, more);
    assert 0 <= round < |l| - 1 ==> m[..|l| - 1][round] == l[..|l| - 1][round];
  }
}
