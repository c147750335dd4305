/**
 * Who did what: every mark that a round carries for a participant goes back to an operation of that participant in
 * the log.
 */
module Deeds {
  import opened Bytes
  import opened Ops
  import opened Rounds
  import opened Runs
  import opened Protocol

  lemma StateAtNext(log: seq<Op>, k: nat)
    requires k < |log|
    ensures StateAt(log, k + 1) == Apply(StateAt(log, k), log[k]).state
  {
    FreshRoundRep();
    assert log[..k + 1] == log[..k] + [log[k]];
    RunSnoc(InitialState, log[..k], log[k]);
  }

  /** A new round always starts fresh, and the step that starts it is delivered. */
  lemma RoundStep(s: State, op: Op)
    requires Valid(s)
    ensures var a := Apply(s, op);
            && (a.state.round == s.round || a.state.round == s.round + 1)
            && (a.state.round == s.round + 1 ==> a.updated && Current(a.state) == FreshRound && op.r == s.round)
            && (!a.updated ==> a.state == s)
  {
    ApplyKeepsValid(s, op);
    if op.r == s.round {
      HandleKeepsRep(Current(s), op);
      hide Handle, RepInvariant;
    }
  }

  datatype Deed = Joins | Submits | Scrambles | Reveals

  /** The participant has done its deed in this round. */
  predicate Acted(ri: RoundInfo, id: Uuid, deed: Deed)
    requires RepInvariant(ri)
  {
    && id in ri.participants
    && var q := ParticipantIndex(ri.participants, id);
       match deed
       case Joins => true
       case Submits => ri.phase.Submit? && !ri.messages[q].Nil()
       case Scrambles => ri.scrambled[q]
       case Reveals => !ri.revealedKeys[q].Nil()
  }

  predicate ActsBy(op: Op, id: Uuid, deed: Deed) {
    match deed
    case Joins => op.JoinOp? && op.id == id
    case Submits => op.MessageOp? && op.id == id
    case Scrambles => op.ScrambledOp? && op.id == id
    case Reveals => op.RevealOp? && op.id == id
  }

  lemma JoinedIndex(ids: seq<Uuid>, joining: Uuid, id: Uuid)
    requires Distinct(ids + [joining]) && id in ids
    ensures id in ids + [joining] && ParticipantIndex(ids + [joining], id) == ParticipantIndex(ids, id)
  {
    assert (ids + [joining])[ParticipantIndex(ids, id)] == id;
  }

  /** Only a participant's own operation marks it as having acted. */
  lemma HandleActs(ri: RoundInfo, op: Op, id: Uuid, deed: Deed)
    requires RepInvariant(ri) && RepInvariant(Handle(ri, op).ri)
    requires Acted(Handle(ri, op).ri, id, deed) && !ActsBy(op, id, deed)
    ensures Acted(ri, id, deed)
  {
    hide FlagsInPhase, KeysInPhase, Count, PrefixClosed;
    if op.JoinOp? && id in ri.participants && Handle(ri, op).ri != ri {
      JoinedIndex(ri.participants, op.id, id);
    }
  }

  lemma ApplyActs(s: State, op: Op, id: Uuid, deed: Deed)
    requires Valid(s) && Valid(Apply(s, op).state) && Acted(Current(Apply(s, op).state), id, deed)
    ensures Apply(s, op).state.round == s.round
    ensures (op.r == s.round && ActsBy(op, id, deed)) || Acted(Current(s), id, deed)
  {
    RoundStep(s, op);
    if op.r == s.round && !ActsBy(op, id, deed) {
      ApplyShape(s, op);
      if !Handle(Current(s), op).over {
        HandleActs(Current(s), op, id, deed);
      }
      hide Handle, RepInvariant;
    }
  }

  lemma NobodyActedYet(log: seq<Op>, id: Uuid, deed: Deed)
    ensures !Acted(Current(StateAt(log, 0)), id, deed)
  {
    FreshRoundRep();
    assert StateAt(log, 0) == InitialState;
  }

  /** Whoever has acted in the current round did so by an operation of its own. */
  lemma {:induction false} ActedBy(log: seq<Op>, k: nat, id: Uuid, deed: Deed) returns (j: nat)
    requires k <= |log| && Acted(Current(StateAt(log, k)), id, deed)
    ensures j < k && ActsBy(log[j], id, deed) && log[j].r == StateAt(log, k).round
    decreases k
  {
    hide *;
    NobodyActedYet(log, id, deed);
    var s, op := StateAt(log, k - 1), log[k - 1];
    StateAtNext(log, k - 1);
    ApplyActs(s, op, id, deed);
    if op.r == s.round && ActsBy(op, id, deed) {
      j := k - 1;
    } else {
      j := ActedBy(log, k - 1, id, deed);
    }
  }

  // ----- how a round ended

  /**
   * A round ends as Done only out of the reveal phase, with the messages and hashes it had there; everybody has
   * scrambled, and everybody but the last has revealed.
   */
  lemma DoneFromReveal(s: State, op: Op, id: Uuid)
    requires Valid(s) && op.r == s.round
    requires Handle(Current(s), op).over && Handle(Current(s), op).ri.phase.Done?
    ensures var ri, o := Current(s), Handle(Current(s), op).ri;
            && ri.phase.Reveal? && o.participants == ri.participants
            && o.messages == ri.messages && o.revealKeyHashes == ri.revealKeyHashes
            && (id in ri.participants ==>
                  Acted(ri, id, Scrambles) && (ActsBy(op, id, Reveals) || Acted(ri, id, Reveals)))
  {
    var ri := Current(s);
    assert op.RevealOp?;
    if id in ri.participants {
      var q := ParticipantIndex(ri.participants, id);
      assert ri.scrambled[q];
      assert !Handle(ri, op).ri.revealedKeys[q].Nil();
    }
  }

  lemma EndedRound(s: State, op: Op)
    requires Valid(s) && Apply(s, op).state.round == s.round + 1
    ensures |Apply(s, op).state.rounds| == 3 && op.r == s.round && Handle(Current(s), op).over
    ensures GetRoundInfo(Apply(s, op).state, s.round) == Some(Handle(Current(s), op).ri)
  {
    ApplyKeepsValid(s, op);
    RoundStep(s, op);
    ApplyShape(s, op);
    hide Handle;
    assert s.round % 3 != (s.round + 1) % 3;
  }

  /** A step leaves the rounds before the current one alone while they are stored. */
  lemma SlotKept(s: State, op: Op, r: int)
    requires Valid(s) && 0 <= r < s.round && Apply(s, op).state.round - 3 < r
    ensures |Apply(s, op).state.rounds| == 3 && GetRoundInfo(Apply(s, op).state, r) == GetRoundInfo(s, r)
  {
    ApplyKeepsValid(s, op);
    if op.r == s.round {
      ApplyShape(s, op);
      hide Handle, Apply;
      var t := if Handle(Current(s), op).over then s.round + 1 else s.round;
      assert r == s.round - 1 || r == s.round - 2;
      assert r % 3 != s.round % 3 && (t == s.round + 1 ==> r % 3 != t % 3);
    }
  }

  /** One step back a stored round was the current one, or was stored the same. */
  lemma StepBack(s: State, op: Op, r: int)
    requires Valid(s) && Valid(Apply(s, op).state)
    requires 0 <= r < Apply(s, op).state.round && GetRoundInfo(Apply(s, op).state, r).Some?
    ensures || (s.round == r && Apply(s, op).state.round == r + 1)
            || (r < s.round && GetRoundInfo(s, r).Some? && GetRoundInfo(s, r) == GetRoundInfo(Apply(s, op).state, r))
  {
    RoundStep(s, op);
    hide Apply;
    if s.round != r {
      SlotKept(s, op, r);
    }
  }

  lemma StartsAtZero(log: seq<Op>)
    ensures StateAt(log, 0).round == 0
  {
    assert StateAt(log, 0) == InitialState;
  }

  /** The log position where a round that is over ended; what is stored of it was stored there. */
  lemma {:induction false} RoundEnd(log: seq<Op>, i: nat, r: int) returns (k: nat)
    requires i <= |log| && 0 <= r < StateAt(log, i).round && GetRoundInfo(StateAt(log, i), r).Some?
    ensures k < i && StateAt(log, k).round == r && StateAt(log, k + 1).round == r + 1
    ensures GetRoundInfo(StateAt(log, k + 1), r) == GetRoundInfo(StateAt(log, i), r)
    decreases i
  {
    hide *;
    StartsAtZero(log);
    StateAtNext(log, i - 1);
    StepBack(StateAt(log, i - 1), log[i - 1], r);
    if StateAt(log, i - 1).round == r {
      k := i - 1;
    } else {
      k := RoundEnd(log, i - 1, r);
    }
  }
}
