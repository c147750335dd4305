/** Where a round's participants and crypto come from: the operations of the log that took effect there. */
module Origins {
  import opened Bytes
  import opened Crypto
  import opened Ops
  import opened Rounds
  import opened Protocol
  import opened Deeds

  /** The j-th operation of the log is a StartOp that starts round r. */
  predicate StartOf(log: seq<Op>, r: int, j: nat) {
    j < |log| && log[j].StartOp? && log[j].r == r && Apply(StateAt(log, j), log[j]).updated
  }

  /** An accepted StartOp takes the round out of Prepare with its own crypto and changes nothing else. */
  lemma StartEffect(s: State, op: Op)
    requires Valid(s) && op.StartOp?
    ensures Apply(s, op).updated <==> op.r == s.round && Current(s).phase.Prepare?
    ensures Apply(s, op).updated ==>
              && |Apply(s, op).state.rounds| == 3 && Apply(s, op).state.round == s.round
              && Current(Apply(s, op).state) == Current(s).(phase := Submit, crypto := op.crypto)
  {
  }

  /** Nothing but an accepted StartOp touches the crypto of a round. */
  lemma CryptoKept(s: State, op: Op)
    requires Valid(s) && op.r == s.round && !(op.StartOp? && Apply(s, op).updated)
    ensures Handle(Current(s), op).ri.crypto == Current(s).crypto
    ensures !Handle(Current(s), op).over ==>
              |Apply(s, op).state.rounds| == 3 && Current(Apply(s, op).state).crypto == Current(s).crypto
  {
    ApplyShape(s, op);
    hide RepInvariant, Count;
  }

  lemma RoundsGrow(log: seq<Op>, i: nat, j: nat)
    requires i <= j <= |log|
    ensures StateAt(log, i).round <= StateAt(log, j).round
  {
    hide StateAt, Valid;
    StateAtEvolves(log, i, j);
  }

  lemma StartRound(log: seq<Op>, r: int, j: nat)
    requires StartOf(log, r, j)
    ensures j < |log| && StateAt(log, j).round == r == StateAt(log, j + 1).round
    ensures Current(StateAt(log, j)).phase.Prepare? && Current(StateAt(log, j + 1)).phase.Submit?
  {
    StateAtNext(log, j);
    hide StateAt, RepInvariant;
    StartEffect(StateAt(log, j), log[j]);
  }

  /** A round is started at most once. */
  lemma StartedOnce(log: seq<Op>, r: int, i: nat, j: nat)
    requires StartOf(log, r, i) && StartOf(log, r, j)
    ensures i == j
  {
    hide StateAt, StartOf, Valid;
    StartRound(log, r, i);
    StartRound(log, r, j);
    if i < j {
      StateAtEvolves(log, i + 1, j);
    } else if j < i {
      StateAtEvolves(log, j + 1, i);
    }
  }

  /** The crypto is the one of the StartOp among the first i operations that started round r, and none without one. */
  predicate CryptoOf(log: seq<Op>, i: nat, r: int, crypto: Option<Crypto>) {
    && (forall j :: 0 <= j < i && StartOf(log, r, j) ==> crypto == log[j].crypto)
    && ((forall j :: 0 <= j < i ==> !StartOf(log, r, j)) ==> crypto.None?)
  }

  lemma CryptoOfStart(log: seq<Op>, i: nat, r: int)
    requires i < |log| && StartOf(log, r, i)
    ensures CryptoOf(log, i + 1, r, log[i].crypto)
  {
    hide StartOf;
    forall j | 0 <= j < i + 1 && StartOf(log, r, j) ensures j == i {
      StartedOnce(log, r, i, j);
    }
  }

  lemma CryptoOfMore(log: seq<Op>, i: nat, k: nat, r: int, crypto: Option<Crypto>)
    requires i <= k <= |log| && CryptoOf(log, i, r, crypto)
    requires forall j :: i <= j < k ==> !StartOf(log, r, j)
    ensures CryptoOf(log, k, r, crypto)
  {
    hide StartOf;
  }

  lemma CryptoOfFresh(log: seq<Op>, i: nat)
    requires i <= |log| && (forall j :: 0 <= j < i ==> StateAt(log, j).round < StateAt(log, i).round)
    ensures CryptoOf(log, i, StateAt(log, i).round, None)
  {
    forall j | 0 <= j < i ensures !StartOf(log, StateAt(log, i).round, j) {
      if StartOf(log, StateAt(log, i).round, j) {
        StartRound(log, StateAt(log, i).round, j);
        assert false;
      }
    }
  }

  lemma {:induction false} CurrentCrypto(log: seq<Op>, i: nat)
    requires i <= |log|
    ensures CryptoOf(log, i, StateAt(log, i).round, Current(StateAt(log, i)).crypto)
    decreases i
  {
    hide *;
    if i == 0 {
      FreshAtStart(log);
      CryptoOfFresh(log, 0);
    } else {
      var s, op, t := StateAt(log, i - 1), log[i - 1], StateAt(log, i);
      StateAtNext(log, i - 1);
      RoundStep(s, op);
      if t.round == s.round {
        CurrentCrypto(log, i - 1);
        SameRoundCrypto(log, i);
      } else {
        FreshHasNone(t);
        forall j | 0 <= j < i ensures StateAt(log, j).round < t.round {
          RoundsGrow(log, j, i - 1);
        }
        CryptoOfFresh(log, i);
      }
    }
  }

  lemma FreshHasNone(t: State)
    requires Valid(t) && Current(t) == FreshRound
    ensures Current(t).crypto == None
  {
  }

  lemma FreshAtStart(log: seq<Op>)
    ensures Current(StateAt(log, 0)).crypto == None
  {
    assert StateAt(log, 0) == InitialState;
  }

  lemma SameRoundCrypto(log: seq<Op>, i: nat)
    requires 0 < i <= |log| && StateAt(log, i).round == StateAt(log, i - 1).round
    requires CryptoOf(log, i - 1, StateAt(log, i).round, Current(StateAt(log, i - 1)).crypto)
    ensures CryptoOf(log, i, StateAt(log, i).round, Current(StateAt(log, i)).crypto)
  {
    var s, op, r := StateAt(log, i - 1), log[i - 1], StateAt(log, i).round;
    hide *;
    StateAtNext(log, i - 1);
    ThreeRounds(StateAt(log, i));
    StartOfAt(log, r, i - 1);
    if StartOf(log, r, i - 1) {
      CryptoOfStart(log, i - 1, r);
      StartEffect(s, op);
    } else {
      StepCrypto(s, op);
      CryptoOfMore(log, i - 1, i, r, Current(s).crypto);
    }
  }

  lemma ThreeRounds(t: State)
    requires Valid(t)
    ensures |t.rounds| == 3
  {
  }

  lemma StartOfAt(log: seq<Op>, r: int, j: nat)
    requires j < |log|
    ensures StartOf(log, r, j) <==> log[j].StartOp? && log[j].r == r && Apply(StateAt(log, j), log[j]).updated
  {
    hide StateAt, Apply;
  }

  lemma StepCrypto(s: State, op: Op)
    requires Valid(s) && |Apply(s, op).state.rounds| == 3 && Apply(s, op).state.round == s.round
    requires !(op.StartOp? && op.r == s.round && Apply(s, op).updated)
    ensures Current(Apply(s, op).state).crypto == Current(s).crypto
  {
    RoundStep(s, op);
    if op.r == s.round {
      ApplyShape(s, op);
      hide Handle;
      CryptoKept(s, op);
    }
  }

  /**
   * In every log, whatever it carries: the crypto that any state stores for a round is the one of the only StartOp that
   * ever took effect in that round, and a round that was never started has none.
   */
  lemma StoredCrypto(log: seq<Op>, i: nat, r: int)
    requires i <= |log| && GetRoundInfo(StateAt(log, i), r).Some?
    ensures CryptoOf(log, i, r, GetRoundInfo(StateAt(log, i), r).value.crypto)
    ensures forall j, k :: StartOf(log, r, j) && StartOf(log, r, k) ==> j == k
  {
    forall j, k | StartOf(log, r, j) && StartOf(log, r, k) ensures j == k {
      StartedOnce(log, r, j, k);
    }
    if r == StateAt(log, i).round {
      CurrentCrypto(log, i);
    } else {
      hide StateAt, Valid, StartOf, CryptoOf;
      OverCrypto(log, i, r);
    }
  }

  lemma OverCrypto(log: seq<Op>, i: nat, r: int)
    requires i <= |log| && 0 <= r < StateAt(log, i).round && GetRoundInfo(StateAt(log, i), r).Some?
    ensures CryptoOf(log, i, r, GetRoundInfo(StateAt(log, i), r).value.crypto)
  {
    hide *;
    var k := RoundEnd(log, i, r);
    var crypto := EndCrypto(log, k, r);
    forall j | k <= j < i ensures !StartOf(log, r, j) {
      if j == k {
        IsStart(log, r, k);
      } else {
        RoundsGrow(log, k + 1, j);
        if StartOf(log, r, j) {
          StartRound(log, r, j);
        }
      }
    }
    CryptoOfMore(log, k, i, r, crypto);
  }

  lemma EndCrypto(log: seq<Op>, k: nat, r: int) returns (crypto: Option<Crypto>)
    requires k < |log| && StateAt(log, k).round == r && StateAt(log, k + 1).round == r + 1
    ensures !log[k].StartOp? && GetRoundInfo(StateAt(log, k + 1), r).Some?
    ensures crypto == GetRoundInfo(StateAt(log, k + 1), r).value.crypto && CryptoOf(log, k, r, crypto)
  {
    StateAtNext(log, k);
    CurrentCrypto(log, k);
    hide StateAt, Handle, Apply, CryptoOf, RepInvariant;
    EndedRound(StateAt(log, k), log[k]);
    NotStart(StateAt(log, k), log[k]);
    CryptoKept(StateAt(log, k), log[k]);
    crypto := Current(StateAt(log, k)).crypto;
  }

  lemma NotStart(s: State, op: Op)
    requires Valid(s) && Handle(Current(s), op).over
    ensures !op.StartOp?
  {
  }

  lemma IsStart(log: seq<Op>, r: int, j: nat)
    requires j < |log|
    ensures StartOf(log, r, j) ==> log[j].StartOp?
  {
  }

  // ----- the participants

  /** The j-th operation of the log makes the client a participant of round r. */
  predicate JoinOf(log: seq<Op>, r: int, id: Uuid, j: nat) {
    j < |log| && log[j] == JoinOp(id, r) && Apply(StateAt(log, j), log[j]).updated
  }

  /** A JoinOp takes effect exactly for a newcomer in Prepare, who is then the last participant. */
  lemma JoinEffect(s: State, op: Op)
    requires Valid(s) && op.JoinOp?
    ensures Apply(s, op).updated <==> op.r == s.round && Current(s).phase.Prepare? && op.id !in Current(s).participants
    ensures Apply(s, op).updated ==>
              && |Apply(s, op).state.rounds| == 3 && Apply(s, op).state.round == s.round
              && Current(Apply(s, op).state).participants == Current(s).participants + [op.id]
              && Current(Apply(s, op).state).phase.Prepare?
  {
  }

  lemma HandleParticipants(s: State, op: Op)
    requires Valid(s) && op.r == s.round && !(op.JoinOp? && Apply(s, op).updated)
    ensures Handle(Current(s), op).ri.participants == Current(s).participants
  {
    hide RepInvariant, Count;
  }

  /** Nothing but an accepted JoinOp makes a participant, and nobody is ever removed. */
  lemma StepParticipants(s: State, op: Op, id: Uuid)
    requires Valid(s) && |Apply(s, op).state.rounds| == 3 && Apply(s, op).state.round == s.round
    ensures id in Current(Apply(s, op).state).participants
            <==> id in Current(s).participants || (op == JoinOp(id, s.round) && Apply(s, op).updated)
  {
    RoundStep(s, op);
    if op.r == s.round {
      ApplyShape(s, op);
      hide Handle, RepInvariant;
      if op.JoinOp? && Apply(s, op).updated {
        JoinEffect(s, op);
      } else {
        HandleParticipants(s, op);
      }
    }
  }

  predicate JoinedBefore(log: seq<Op>, i: nat, r: int, id: Uuid) {
    exists j :: 0 <= j < i && JoinOf(log, r, id, j)
  }

  lemma JoinRound(log: seq<Op>, r: int, id: Uuid, j: nat)
    requires JoinOf(log, r, id, j)
    ensures j < |log| && StateAt(log, j).round == r
  {
    hide StateAt, RepInvariant;
    JoinEffect(StateAt(log, j), log[j]);
  }

  lemma NobodyIn(log: seq<Op>, i: nat, id: Uuid)
    requires i <= |log| && (forall j :: 0 <= j < i ==> StateAt(log, j).round < StateAt(log, i).round)
    ensures !JoinedBefore(log, i, StateAt(log, i).round, id)
  {
    if j :| 0 <= j < i && JoinOf(log, StateAt(log, i).round, id, j) {
      JoinRound(log, StateAt(log, i).round, id, j);
      assert false;
    }
  }

  lemma JoinedStep(log: seq<Op>, i: nat, r: int, id: Uuid)
    requires 0 < i <= |log|
    ensures JoinedBefore(log, i, r, id) <==> JoinedBefore(log, i - 1, r, id) || JoinOf(log, r, id, i - 1)
  {
    hide JoinOf;
  }

  lemma SameRoundParticipants(log: seq<Op>, i: nat, id: Uuid)
    requires 0 < i <= |log| && StateAt(log, i).round == StateAt(log, i - 1).round
    requires id in Current(StateAt(log, i - 1)).participants <==> JoinedBefore(log, i - 1, StateAt(log, i).round, id)
    ensures id in Current(StateAt(log, i)).participants <==> JoinedBefore(log, i, StateAt(log, i).round, id)
  {
    hide *;
    var s, op, t := StateAt(log, i - 1), log[i - 1], StateAt(log, i);
    StateAtNext(log, i - 1);
    ThreeRounds(t);
    JoinedStep(log, i, t.round, id);
    JoinOfAt(log, t.round, id, i - 1);
    StepParticipants(s, op, id);
  }

  lemma JoinOfAt(log: seq<Op>, r: int, id: Uuid, j: nat)
    requires j < |log|
    ensures JoinOf(log, r, id, j) <==> log[j] == JoinOp(id, r) && Apply(StateAt(log, j), log[j]).updated
  {
    hide StateAt, Apply;
  }

  lemma FreshIsEmpty(t: State, id: Uuid)
    requires Valid(t) && Current(t) == FreshRound
    ensures id !in Current(t).participants
  {
  }

  lemma EmptyAtStart(log: seq<Op>, id: Uuid)
    ensures id !in Current(StateAt(log, 0)).participants
  {
    assert StateAt(log, 0) == InitialState;
  }

  lemma {:induction false} CurrentParticipants(log: seq<Op>, i: nat, id: Uuid)
    requires i <= |log|
    ensures id in Current(StateAt(log, i)).participants <==> JoinedBefore(log, i, StateAt(log, i).round, id)
    decreases i
  {
    hide *;
    if i == 0 {
      EmptyAtStart(log, id);
      NobodyIn(log, 0, id);
    } else {
      var s, op, t := StateAt(log, i - 1), log[i - 1], StateAt(log, i);
      StateAtNext(log, i - 1);
      RoundStep(s, op);
      if t.round == s.round {
        CurrentParticipants(log, i - 1, id);
        SameRoundParticipants(log, i, id);
      } else {
        FreshIsEmpty(t, id);
        forall j | 0 <= j < i ensures StateAt(log, j).round < t.round {
          RoundsGrow(log, j, i - 1);
        }
        NobodyIn(log, i, id);
      }
    }
  }

  /**
   * In every log, whatever it carries: the participants that any state stores for a round are exactly the clients of
   * which a JoinOp took effect in that round.
   */
  lemma StoredParticipants(log: seq<Op>, i: nat, r: int, id: Uuid)
    requires i <= |log| && GetRoundInfo(StateAt(log, i), r).Some?
    ensures id in GetRoundInfo(StateAt(log, i), r).value.participants <==> JoinedBefore(log, i, r, id)
  {
    if r == StateAt(log, i).round {
      CurrentParticipants(log, i, id);
    } else {
      hide StateAt, Valid, JoinOf, JoinedBefore;
      OverParticipants(log, i, r, id);
    }
  }

  lemma OverParticipants(log: seq<Op>, i: nat, r: int, id: Uuid)
    requires i <= |log| && 0 <= r < StateAt(log, i).round && GetRoundInfo(StateAt(log, i), r).Some?
    ensures id in GetRoundInfo(StateAt(log, i), r).value.participants <==> JoinedBefore(log, i, r, id)
  {
    hide *;
    var k := RoundEnd(log, i, r);
    EndParticipants(log, k, r, id);
    forall j | k <= j < i ensures !JoinOf(log, r, id, j) {
      if j == k {
        NotJoin(log, r, id, k);
      } else {
        RoundsGrow(log, k + 1, j);
        if JoinOf(log, r, id, j) {
          JoinRound(log, r, id, j);
        }
      }
    }
    JoinedMore(log, k, i, r, id);
  }

  lemma JoinedMore(log: seq<Op>, k: nat, i: nat, r: int, id: Uuid)
    requires k <= i <= |log| && forall j :: k <= j < i ==> !JoinOf(log, r, id, j)
    ensures JoinedBefore(log, i, r, id) <==> JoinedBefore(log, k, r, id)
  {
    hide JoinOf;
  }

  lemma NotJoin(log: seq<Op>, r: int, id: Uuid, j: nat)
    requires j < |log|
    ensures JoinOf(log, r, id, j) ==> log[j].JoinOp?
  {
  }

  lemma OverIsNoJoin(s: State, op: Op)
    requires Valid(s) && Handle(Current(s), op).over
    ensures !op.JoinOp?
  {
  }

  lemma EndParticipants(log: seq<Op>, k: nat, r: int, id: Uuid)
    requires k < |log| && StateAt(log, k).round == r && StateAt(log, k + 1).round == r + 1
    ensures !log[k].JoinOp? && GetRoundInfo(StateAt(log, k + 1), r).Some?
    ensures id in GetRoundInfo(StateAt(log, k + 1), r).value.participants <==> JoinedBefore(log, k, r, id)
  {
    StateAtNext(log, k);
    CurrentParticipants(log, k, id);
    hide StateAt, Handle, Apply, JoinedBefore, RepInvariant;
    EndedRound(StateAt(log, k), log[k]);
    OverIsNoJoin(StateAt(log, k), log[k]);
    HandleParticipants(StateAt(log, k), log[k]);
  }
}
