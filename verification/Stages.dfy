/**
 * Which rounds and phases can follow one another: MayPrecede and GuaranteedNoEffect answer exactly what they are asked.
 */
module Stages {
  import opened Bytes
  import opened Ops
  import opened Rounds
  import opened Runs
  import opened Progress
  import opened NoDeadlock

  function Order(s: State): nat
    requires Valid(s)
  {
    PhaseOrder(Current(s).phase)
  }

  /** The round is started and has participants, so that it can move on. */
  predicate Moving(s: State)
    requires Valid(s)
  {
    Started(Current(s)) && Current(s).participants != []
  }

  // ----- one phase after the other

  lemma PhaseStep(ri: RoundInfo, op: Op)
    requires RepInvariant(ri) && Started(ri) && !op.AbortOp?
    ensures PhaseOrder(ri.phase) <= PhaseOrder(Handle(ri, op).ri.phase) <= PhaseOrder(ri.phase) + 1
  {
    hide FlagsInPhase, KeysInPhase, MessagesInPhase, Count;
  }

  lemma TurnOpFresh(s: State)
    requires Valid(s) && Moving(s)
    ensures TurnOp(s).r == s.round && Fresh(Current(s), TurnOp(s)) && Substantial(TurnOp(s)) && !TurnOp(s).AbortOp?
  {
    TurnOpAccepted(s);
    var ri := Current(s);
    DistinctIndex(ri.participants, Mover(ri));
  }

  /** What a turn before the reveal phase leads to. */
  lemma TurnStep(s: State)
    requires Valid(s) && Moving(s) && Order(s) < 5
    ensures var t := Apply(s, TurnOp(s)).state;
            && Valid(t) && t.round == s.round && Moving(t) && Order(s) <= Order(t) <= Order(s) + 1
            && Outstanding(Current(t)) < Outstanding(Current(s))
  {
    var ri, op := Current(s), TurnOp(s);
    TurnOpFresh(s);
    ApplyKeepsValid(s, op);
    ApplyShape(s, op);
    HandleOutstanding(ri, op);
    HandleEvolvesPhase(ri, op);
    PhaseStep(ri, op);
    hide Handle, RepInvariant, Outstanding, Fresh, TurnOp, Apply;
  }

  /** A round that can move on reaches every later phase. */
  lemma {:induction false} Advance(s: State, order: nat) returns (ops: seq<Op>)
    requires Valid(s) && Moving(s) && Order(s) <= order <= 5
    ensures Run(s, ops).round == s.round && Order(Run(s, ops)) == order && Moving(Run(s, ops))
    decreases Outstanding(Current(s))
  {
    if Order(s) == order {
      ops := [];
    } else {
      hide Valid, Moving, Order, TurnOp, Apply, Outstanding;
      TurnStep(s);
      var rest := Advance(Apply(s, TurnOp(s)).state, order);
      ops := [TurnOp(s)] + rest;
      assert ops[1..] == rest;
    }
  }

  lemma StartWithSomeone(s: State) returns (ops: seq<Op>)
    requires Valid(s) && Current(s).phase.Prepare?
    ensures Run(s, ops).round == s.round && Order(Run(s, ops)) == 1 && Moving(Run(s, ops))
  {
    var id := Uuid(0);
    var join: Op, start: Op := JoinOp(id, s.round), StartOp(id, s.round, None);
    ApplyKeepsValid(s, join);
    var t := Apply(s, join).state;
    assert t.round == s.round && id in Current(t).participants && Current(t).phase.Prepare?;
    ApplyKeepsValid(t, start);
    var u := Apply(t, start).state;
    assert u.round == s.round && Current(u).phase.Submit? && Current(u).participants == Current(t).participants;
    hide Apply, RepInvariant;
    ops := [join, start];
    assert ops[1..] == [start] && [start][1..] == [];
    assert Run(s, ops) == Run(t, [start]) == Run(u, []) == u;
  }

  lemma FromPrepare(s: State, order: nat) returns (ops: seq<Op>)
    requires Valid(s) && Current(s).phase.Prepare? && order <= 5
    ensures Run(s, ops).round == s.round && Order(Run(s, ops)) == order
    ensures order > 0 ==> Moving(Run(s, ops))
  {
    if order == 0 {
      ops := [];
    } else {
      hide Valid, Moving, Order, Run;
      var first := StartWithSomeone(s);
      var rest := Advance(Run(s, first), order);
      ops := first + rest;
      RunConcat(s, first, rest);
    }
  }

  lemma AbortStep(s: State)
    requires Valid(s)
    ensures var t := Apply(s, AbortOp(s.round)).state;
            Valid(t) && t.round == s.round + 1 && Current(t).phase.Prepare? && Apply(s, AbortOp(s.round)).updated
  {
    ApplyKeepsValid(s, AbortOp(s.round));
    ApplyShape(s, AbortOp(s.round));
    hide RepInvariant;
  }

  /** Every later round is reached, and is in Prepare at first. */
  lemma {:induction false} Skip(s: State, r: int) returns (ops: seq<Op>)
    requires Valid(s) && s.round <= r
    ensures Run(s, ops).round == r && if s.round == r then ops == [] else Current(Run(s, ops)).phase.Prepare?
    decreases r - s.round
  {
    if s.round == r {
      ops := [];
    } else {
      AbortStep(s);
      hide Apply, RepInvariant;
      var t := Apply(s, AbortOp(s.round)).state;
      var rest := Skip(t, r);
      ops := [AbortOp(s.round)] + rest;
      assert ops[1..] == rest;
    }
  }

  // ----- MayPrecede

  predicate SameStage(s: State, t: State)
    requires Valid(s) && Valid(t)
  {
    s.round == t.round && Current(s).phase == Current(t).phase
  }

  lemma SameOrderSameStage(s: State, t: State)
    requires Valid(s) && Valid(t) && s.round == t.round && Order(s) == Order(t)
    ensures SameStage(s, t)
  {
    hide RepInvariant;
  }

  /** Some run of the machine is in the round and phase of s, and then or later in those of t. */
  ghost predicate ComesBefore(s: State, t: State)
    requires Valid(s) && Valid(t)
  {
    exists first: seq<Op>, rest: seq<Op> ::
      SameStage(FromStart(first), s) && SameStage(Run(FromStart(first), rest), t)
  }

  /** A run to any round and phase, ending in a round that can move on. */
  lemma ReachStage(r: nat, order: nat) returns (ops: seq<Op>)
    requires order <= 5
    ensures FromStart(ops).round == r && Order(FromStart(ops)) == order
    ensures order > 0 ==> Moving(FromStart(ops))
  {
    FreshRoundRep();
    hide RepInvariant, Run;
    var first := Skip(InitialState, r);
    assert Run(InitialState, []) == InitialState by { NoOps(); }
    var rest := FromPrepare(Run(InitialState, first), order);
    ops := first + rest;
    RunConcat(InitialState, first, rest);
  }

  lemma NoOps()
    ensures Valid(InitialState) && Run(InitialState, []) == InitialState
  {
    FreshRoundRep();
  }

  /**
   * Every later round and phase is reached, unless the current round is stuck and it is that round that is asked for.
   */
  lemma ReachLater(s: State, r: int, order: nat) returns (ops: seq<Op>)
    requires Valid(s) && order <= 5 && (s.round < r || (s.round == r && Order(s) <= order))
    requires s.round == r && Order(s) > 0 ==> Moving(s)
    ensures Run(s, ops).round == r && Order(Run(s, ops)) == order
    ensures order > 0 ==> Moving(Run(s, ops))
  {
    hide RepInvariant, Run;
    if s.round < r {
      var first := Skip(s, r);
      var rest := FromPrepare(Run(s, first), order);
      ops := first + rest;
      RunConcat(s, first, rest);
    } else if Order(s) == 0 {
      ops := FromPrepare(s, order);
    } else {
      ops := Advance(s, order);
    }
  }

  lemma StageBefore(s: State, t: State)
    requires Valid(s) && Valid(t) && MayPrecede(s, t)
    ensures ComesBefore(s, t)
  {
    ActiveOrder(s);
    ActiveOrder(t);
    hide RepInvariant, Run, FromStart, Moving, SameStage;
    var first := ReachStage(s.round, Order(s));
    SameOrderSameStage(FromStart(first), s);
    var rest := ReachLater(FromStart(first), t.round, Order(t));
    SameOrderSameStage(Run(FromStart(first), rest), t);
  }

  lemma ActiveOrder(s: State)
    requires Valid(s)
    ensures Order(s) <= 5
  {
    hide RepInvariant;
  }

  /**
   * MayPrecede is true exactly if the round and phase of s can come before those of t: if some run passes through the
   * one and then, or later, through the other.
   */
  lemma MayPrecedeExactly(s: State, t: State)
    requires Valid(s) && Valid(t)
    ensures MayPrecede(s, t) <==> ComesBefore(s, t)
  {
    hide RepInvariant, Run, FromStart;
    if MayPrecede(s, t) {
      StageBefore(s, t);
    }
    if first: seq<Op>, rest: seq<Op> :| SameStage(FromStart(first), s) && SameStage(Run(FromStart(first), rest), t) {
      RunMayPrecede(FromStart(first), rest);
    }
  }

  /** States that precede each other are in the same round and phase, and a state that is rejected is never reached. */
  lemma MayPrecedeRejects(s: State, t: State, ops: seq<Op>)
    requires Valid(s) && Valid(t)
    ensures MayPrecede(s, t) && MayPrecede(t, s) <==> SameStage(s, t)
    ensures !MayPrecede(s, t) ==> Run(s, ops) != t
  {
    RunMayPrecede(s, ops);
    hide RepInvariant, Run;
  }

  // ----- GuaranteedNoEffect

  predicate SameKind(a: Op, b: Op) {
    match a
    case JoinOp(_, _) => b.JoinOp?
    case StartOp(_, _, _) => b.StartOp?
    case MessageOp(_, _, _, _) => b.MessageOp?
    case EncryptedOp(_, _, _, _) => b.EncryptedOp?
    case ScrambledOp(_, _, _) => b.ScrambledOp?
    case DecryptedOp(_, _, _, _) => b.DecryptedOp?
    case RevealOp(_, _, _) => b.RevealOp?
    case AbortOp(_) => b.AbortOp?
  }

  /** The phase in which an operation of this kind is taken. */
  function OwnOrder(op: Op): nat {
    match op
    case MessageOp(_, _, _, _) => 1
    case EncryptedOp(_, _, _, _) => 2
    case ScrambledOp(_, _, _) => 3
    case DecryptedOp(_, _, _, _) => 4
    case RevealOp(_, _, _) => 5
    case _ => 0
  }

  /** No operation of this kind for this round has an effect any more, whatever happens. */
  ghost predicate KindIsOver(s: State, op: Op)
    requires Valid(s)
  {
    forall b: Op :: SameKind(op, b) && b.r == op.r ==> NoEffectForever(s, b)
  }

  /** The operation is for the current round, which was started with nobody in it. */
  predicate ForEmptyRound(s: State, op: Op)
    requires Valid(s)
  {
    op.r == s.round && !op.AbortOp? && Started(Current(s)) && Current(s).participants == []
  }

  lemma {:induction false} NewId(ids: seq<Uuid>) returns (id: Uuid)
    ensures forall i :: 0 <= i < |ids| ==> ids[i].bits < id.bits
  {
    if ids == [] {
      id := Uuid(0);
    } else {
      var rest := NewId(ids[1..]);
      id := Uuid(rest.bits + ids[0].bits + 1);
      forall i | 0 <= i < |ids| ensures ids[i].bits < id.bits {
        assert i > 0 ==> ids[i] == ids[1..][i - 1];
      }
    }
  }

  /** In an operation's own phase some operation of its kind is accepted. */
  lemma KindAccepted(s: State, op: Op) returns (b: Op)
    requires Valid(s) && !op.AbortOp? && Order(s) == OwnOrder(op) && (Order(s) > 0 ==> Moving(s))
    ensures SameKind(op, b) && b.r == s.round && Apply(s, b).updated
  {
    if op.JoinOp? {
      var id := NewId(Current(s).participants);
      b := JoinOp(id, s.round);
      assert id !in Current(s).participants;
    } else if op.StartOp? {
      b := StartOp(Uuid(0), s.round, None);
    } else {
      b := TurnOp(s);
      TurnOpAccepted(s);
      TurnKind(s, op);
    }
  }

  lemma TurnKind(s: State, op: Op)
    requires Valid(s) && Moving(s) && Order(s) == OwnOrder(op) && !op.AbortOp?
    ensures SameKind(op, TurnOp(s)) && TurnOp(s).r == s.round
  {
    hide RepInvariant, Mover;
  }

  lemma NotGuaranteed(s: State, op: Op)
    requires Valid(s) && !GuaranteedNoEffect(s, op) && !op.AbortOp?
    ensures s.round < op.r || (s.round == op.r && Order(s) <= OwnOrder(op))
  {
    hide RepInvariant;
  }

  /** Without the guarantee, some operation of the kind has an effect after some further operations. */
  lemma MayHaveEffect(s: State, op: Op) returns (ops: seq<Op>, b: Op)
    requires Valid(s) && !GuaranteedNoEffect(s, op) && !ForEmptyRound(s, op)
    ensures SameKind(op, b) && b.r == op.r && Apply(Run(s, ops), b).updated
  {
    if op.AbortOp? {
      ops := Skip(s, op.r);
      b := op;
      AbortStep(Run(s, ops));
    } else {
      NotGuaranteed(s, op);
      hide RepInvariant, Run, Apply, GuaranteedNoEffect;
      ops := ReachLater(s, op.r, OwnOrder(op));
      b := KindAccepted(Run(s, ops), op);
    }
  }

  /** A round that was started empty stays as it is until it is aborted. */
  lemma EmptyForever(s: State, b: Op)
    requires Valid(s) && ForEmptyRound(s, b)
    ensures NoEffectForever(s, b)
  {
    forall ops: seq<Op> ensures Apply(Run(s, ops), b) == Applied(Run(s, ops), false) {
      RunEvolves(s, ops);
      EmptyLater(s, Run(s, ops), b);
    }
  }

  lemma EmptyLater(s: State, t: State, b: Op)
    requires Valid(s) && Valid(t) && StateEvolves(s, t) && ForEmptyRound(s, b)
    ensures Apply(t, b) == Applied(t, false)
  {
    if t.round == s.round {
      EmptyStays(s, t);
      EmptyIsStuck(t, b);
    }
  }

  lemma EmptyStays(s: State, t: State)
    requires Valid(s) && Valid(t) && StateEvolves(s, t) && s.round == t.round
    requires Started(Current(s)) && Current(s).participants == []
    ensures Started(Current(t)) && Current(t).participants == []
  {
    hide RepInvariant, SameVersion, FlagsGrow;
  }

  /**
   * GuaranteedNoEffect is exact: no operation of this kind can ever again have an effect in this round if, and only if,
   * it says so, or the round was started with nobody in it, which it does not look at.
   */
  lemma GuaranteedExactly(s: State, op: Op)
    requires Valid(s)
    ensures KindIsOver(s, op) <==> GuaranteedNoEffect(s, op) || ForEmptyRound(s, op)
  {
    hide Apply, Run, RepInvariant;
    if GuaranteedNoEffect(s, op) || ForEmptyRound(s, op) {
      forall b: Op | SameKind(op, b) && b.r == op.r ensures NoEffectForever(s, b) {
        if GuaranteedNoEffect(s, op) {
          GuaranteedNoEffectSound(s, b);
        } else {
          EmptyForever(s, b);
        }
      }
    } else {
      var ops, b := MayHaveEffect(s, op);
      assert !NoEffectForever(s, b);
    }
  }
}
