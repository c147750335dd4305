/**
 * No run gets stuck: in a started round some step takes a piece of outstanding work off, or ends a round with a bad
 * crypto.
 */
module NoDeadlock {
  import opened Bytes
  import opened MasseyOmura
  import opened Crypto
  import opened Ops
  import opened Rounds
  import opened Runs
  import opened Layers
  import opened ClientSteps
  import opened Honest
  import opened Protocol
  import opened Deeds
  import opened Progress

  // ----- what the clients have sent is still there to be committed

  ghost predicate Sent(issued: set<Issued>, id: Uuid, r: int, deed: Deed) {
    exists e :: e in issued && ActsBy(e.op, id, deed) && e.op.r == r
  }

  ghost predicate InIssued(issued: set<Issued>, op: Op) {
    exists e :: e in issued && e.op == op
  }

  /** The operation was sent, and computed from one of the first n states. */
  ghost predicate SentBefore(issued: set<Issued>, op: Op, n: nat) {
    exists e :: e in issued && e.op == op && e.origin <= n
  }

  /** A guard that has been used up stands for an operation that was sent. */
  ghost predicate GuardsKept(issued: set<Issued>, id: Uuid, l: Local) {
    && (l.lastMessageRound >= 0 ==> Sent(issued, id, l.lastMessageRound, Submits))
    && (l.lastScrambledRound >= 0 ==> Sent(issued, id, l.lastScrambledRound, Scrambles))
    && (l.revealKeyHashesRound >= 0 ==> Sent(issued, id, l.revealKeyHashesRound, Reveals))
  }

  ghost predicate NothingLost(sys: System) {
    && (forall i :: 0 <= i < |sys.log| ==> SentBefore(sys.issued, sys.log[i], i))
    && (forall e :: e in sys.issued ==> e.origin <= |sys.log| && (e.op.JoinOp? ==> e.op.id in sys.clients))
    && (forall id :: id in sys.clients ==> GuardsKept(sys.issued, id, sys.clients[id].local))
  }

  /** Whoever carries a mark in a state of the log has sent the operation that put it there. */
  lemma MarkSent(sys: System, at: nat, id: Uuid, deed: Deed)
    requires NothingLost(sys) && at <= |sys.log| && Acted(Current(StateAt(sys.log, at)), id, deed)
    ensures Sent(sys.issued, id, StateAt(sys.log, at).round, deed)
  {
    hide StateAt, Acted, Valid;
    var j := ActedBy(sys.log, at, id, deed);
    assert SentBefore(sys.issued, sys.log[j], j);
  }

  lemma GuardsMonotone(a: set<Issued>, b: set<Issued>, id: Uuid, l: Local)
    requires a <= b && GuardsKept(a, id, l)
    ensures GuardsKept(b, id, l)
  {
  }

  /** A mark moves to the current round only when the deed is sent now, or is in the log already. */
  predicate MarkMoves(id: Uuid, sm: State, e: Effect, before: int, after: int, deed: Deed)
    requires Valid(sm)
  {
    || after == before
    || (after == sm.round
        && ((e.op.Some? && ActsBy(e.op.value, id, deed) && e.op.value.r == sm.round) || Acted(Current(sm), id, deed)))
  }

  predicate GuardsMove(id: Uuid, l: Local, sm: State, e: Effect)
    requires Valid(sm)
  {
    && (e.op.Some? && e.op.value.JoinOp? ==> e.op.value.id == id)
    && MarkMoves(id, sm, e, l.lastMessageRound, e.local.lastMessageRound, Submits)
    && MarkMoves(id, sm, e, l.lastScrambledRound, e.local.lastScrambledRound, Scrambles)
    && MarkMoves(id, sm, e, l.revealKeyHashesRound, e.local.revealKeyHashesRound, Reveals)
  }

  /** An update that uses up a guard sends the operation, or the participant has it in the log already. */
  lemma UpdateGuards(size: nat, sha: Sha256, id: Uuid, l: Local, sm: State, ch: Choices)
    requires Valid(sm) && |ch.random| == 8 && |ch.fallbackRandom| == 8
    ensures GuardsMove(id, l, sm, Observe(size, sha, id, l, sm, ch))
  {
    hide RepInvariant, GuardsMove, Observe;
    match Current(sm).phase
    case Submit => SubmitGuards(size, sha, id, l, sm, ch);
    case Scramble => ScrambleGuards(size, sha, id, l, sm, ch);
    case _ => OtherGuards(size, sha, id, l, sm, ch);
  }

  lemma SubmitGuards(size: nat, sha: Sha256, id: Uuid, l: Local, sm: State, ch: Choices)
    requires Valid(sm) && |ch.random| == 8 && |ch.fallbackRandom| == 8 && Current(sm).phase.Submit?
    ensures GuardsMove(id, l, sm, Observe(size, sha, id, l, sm, ch))
  {
    hide VerifySysKey, TextSent, Plain, FlagsInPhase, KeysInPhase, MessagesInPhase, Distinct, PrefixClosed;
  }

  lemma ScrambleGuards(size: nat, sha: Sha256, id: Uuid, l: Local, sm: State, ch: Choices)
    requires Valid(sm) && |ch.random| == 8 && |ch.fallbackRandom| == 8 && Current(sm).phase.Scramble?
    ensures GuardsMove(id, l, sm, Observe(size, sha, id, l, sm, ch))
  {
    hide Count, FlagsInPhase, KeysInPhase, MessagesInPhase, Distinct, PrefixClosed;
  }

  lemma OtherGuards(size: nat, sha: Sha256, id: Uuid, l: Local, sm: State, ch: Choices)
    requires Valid(sm) && |ch.random| == 8 && |ch.fallbackRandom| == 8
    requires !Current(sm).phase.Submit? && !Current(sm).phase.Scramble?
    ensures GuardsMove(id, l, sm, Observe(size, sha, id, l, sm, ch))
  {
    hide EncryptOthers, DecryptTwice, Count, FlagsInPhase, KeysInPhase, MessagesInPhase, Distinct, PrefixClosed;
  }

  lemma MarkKept(sys: System, id: Uuid, at: nat, e: Effect, issued: set<Issued>, before: int, after: int, deed: Deed)
    requires NothingLost(sys) && at <= |sys.log| && sys.issued <= issued
    requires e.op.Some? ==> Issued(e.op.value, at) in issued
    requires before >= 0 ==> Sent(sys.issued, id, before, deed)
    requires MarkMoves(id, StateAt(sys.log, at), e, before, after, deed)
    ensures after >= 0 ==> Sent(issued, id, after, deed)
  {
    hide StateAt, Acted, ActsBy, NothingLost;
    if Acted(Current(StateAt(sys.log, at)), id, deed) {
      MarkSent(sys, at, id, deed);
    }
  }

  lemma UpdateKeepsGuards(sys: System, id: Uuid, at: nat, l: Local, e: Effect, issued: set<Issued>)
    requires NothingLost(sys) && at <= |sys.log| && GuardsKept(sys.issued, id, l)
    requires issued == if e.op.Some? then sys.issued + {Issued(e.op.value, at)} else sys.issued
    requires GuardsMove(id, l, StateAt(sys.log, at), e)
    ensures GuardsKept(issued, id, e.local)
  {
    hide StateAt, NothingLost, MarkMoves, Sent;
    MarkKept(sys, id, at, e, issued, l.lastMessageRound, e.local.lastMessageRound, Submits);
    MarkKept(sys, id, at, e, issued, l.lastScrambledRound, e.local.lastScrambledRound, Scrambles);
    MarkKept(sys, id, at, e, issued, l.revealKeyHashesRound, e.local.revealKeyHashesRound, Reveals);
  }

  lemma UpdateLosesNothing(size: nat, sha: Sha256, sys: System, id: Uuid, at: nat, ch: Choices)
    requires NothingLost(sys) && Enabled(size, sys, Update(id, at, ch))
    ensures NothingLost(Do(size, sha, sys, Update(id, at, ch)))
  {
    var sm, l := StateAt(sys.log, at), sys.clients[id].local;
    assert GuardsKept(sys.issued, id, l);
    hide Observe, StateAt, Valid, NextHistory, Admissible, NothingLost, GuardsKept, MarkMoves;
    UpdateGuards(size, sha, id, l, sm, ch);
    var e := Observe(size, sha, id, l, sm, ch);
    var next := Do(size, sha, sys, Update(id, at, ch));
    UpdateKeepsGuards(sys, id, at, l, e, next.issued);
    IssuingLosesNothing(sys, next, id);
  }

  lemma LogStaysSent(log: seq<Op>, a: set<Issued>, b: set<Issued>)
    requires a <= b && forall i :: 0 <= i < |log| ==> SentBefore(a, log[i], i)
    ensures forall i :: 0 <= i < |log| ==> SentBefore(b, log[i], i)
  {
    forall i | 0 <= i < |log| ensures SentBefore(b, log[i], i) {
      assert SentBefore(a, log[i], i);
    }
  }

  /** More operations and one changed client, whose guards are kept. */
  lemma IssuingLosesNothing(sys: System, next: System, id: Uuid)
    requires NothingLost(sys) && next.log == sys.log && sys.issued <= next.issued
    requires id in next.clients && next.clients == sys.clients[id := next.clients[id]]
    requires GuardsKept(next.issued, id, next.clients[id].local)
    requires forall e :: e in next.issued && e !in sys.issued ==>
               e.origin <= |sys.log| && (e.op.JoinOp? ==> e.op.id == id)
    ensures NothingLost(next)
  {
    LogStaysSent(sys.log, sys.issued, next.issued);
    forall k | k in next.clients ensures GuardsKept(next.issued, k, next.clients[k].local) {
      if k != id {
        GuardsMonotone(sys.issued, next.issued, k, sys.clients[k].local);
      }
    }
  }

  lemma IssueLosesNothing(sys: System, op: Op, at: nat)
    requires NothingLost(sys) && at <= |sys.log| && (op.JoinOp? ==> op.id in sys.clients)
    ensures NothingLost(Issue(sys, op, at))
  {
    var next := Issue(sys, op, at);
    LogStaysSent(sys.log, sys.issued, next.issued);
    forall k | k in next.clients ensures GuardsKept(next.issued, k, next.clients[k].local) {
      GuardsMonotone(sys.issued, next.issued, k, sys.clients[k].local);
    }
  }

  lemma CommitLosesNothing(sys: System, e: Issued)
    requires NothingLost(sys) && e in sys.issued
    ensures NothingLost(sys.(log := sys.log + [e.op]))
  {
    hide GuardsKept;
    var next := sys.(log := sys.log + [e.op]);
    forall i | 0 <= i < |next.log| ensures SentBefore(next.issued, next.log[i], i) {
      if i < |sys.log| {
        assert SentBefore(sys.issued, sys.log[i], i);
      }
    }
  }

  lemma StepLosesNothing(size: nat, sha: Sha256, sys: System, step: Step)
    requires NothingLost(sys) && Enabled(size, sys, step)
    ensures NothingLost(Do(size, sha, sys, step))
  {
    hide StateAt, Valid, Admissible;
    match step
    case NewClient(id, at) =>
    case Update(id, at, ch) => UpdateLosesNothing(size, sha, sys, id, at, ch);
    case Rejoin(id, at) => IssueLosesNothing(sys, JoinOp(id, StateAt(sys.log, at).round), at);
    case StartRound(id, at, crypto) =>
      IssueLosesNothing(sys, StartOp(id, StateAt(sys.log, at).round, Some(crypto)), at);
    case AbortRound(at) => IssueLosesNothing(sys, AbortOp(StateAt(sys.log, at).round), at);
    case Commit(entry) => CommitLosesNothing(sys, entry);
  }

  lemma {:induction false} RunLosesNothing(size: nat, sha: Sha256, run: seq<System>)
    requires IsRun(size, sha, run)
    ensures NothingLost(run[|run| - 1])
    decreases |run|
  {
    if |run| > 1 {
      hide *;
      var step := LastStep(size, sha, run);
      RunLosesNothing(size, sha, run[..|run| - 1]);
      StepLosesNothing(size, sha, run[|run| - 2], step);
    }
  }

  // ----- no started round is empty

  predicate NotEmpty(s: State)
    requires Valid(s)
  {
    Started(Current(s)) ==> Current(s).participants != []
  }

  predicate NeverEmpty(log: seq<Op>) {
    forall i :: 0 <= i <= |log| ==> NotEmpty(StateAt(log, i))
  }

  /** Nothing but an abort has an effect. */
  ghost predicate Stuck(s: State)
    requires Valid(s)
  {
    forall op: Op :: !op.AbortOp? ==> Apply(s, op) == Applied(s, false)
  }

  /** The state machine itself would start a round that nobody joined. */
  lemma EmptyRoundStarts(id: Uuid, crypto: Option<Crypto>)
    ensures Valid(InitialState) && Valid(Apply(InitialState, StartOp(id, 0, crypto)).state)
    ensures var ri := Current(Apply(InitialState, StartOp(id, 0, crypto)).state); Started(ri) && ri.participants == []
  {
    FreshRoundRep();
    ApplyKeepsValid(InitialState, StartOp(id, 0, crypto));
  }

  const TrivialMsg: Msg := Msg([1])

  const TrivialKey: PrivateKey := PrivateKey([1], [1])

  /** An operation that the round accepts from the participant whose turn it is. */
  function TurnOp(s: State): Op
    requires Valid(s) && Started(Current(s)) && Current(s).participants != []
  {
    var ri := Current(s);
    var id := ri.participants[Mover(ri)];
    match ri.phase
    case Encrypt => EncryptedOp(id, s.round, ri.messages, Count(ri.encrypted))
    case Scramble => ScrambledOp(id, s.round, ri.messages)
    case Decrypt => DecryptedOp(id, s.round, ri.messages, Count(ri.decrypted))
    case Reveal => RevealOp(id, s.round, TrivialKey)
    case _ => MessageOp(id, s.round, TrivialMsg, [])
  }

  lemma TurnOpAccepted(s: State)
    requires Valid(s) && Started(Current(s)) && Current(s).participants != []
    ensures Apply(s, TurnOp(s)).updated && !TurnOp(s).AbortOp?
  {
    var ri := Current(s);
    DistinctIndex(ri.participants, Mover(ri));
    if ri.phase.Scramble? {
      CountPrefix(ri.scrambled, Mover(ri));
    }
  }

  lemma EmptyIsStuck(s: State, op: Op)
    requires Valid(s) && Started(Current(s)) && Current(s).participants == [] && !op.AbortOp?
    ensures Apply(s, op) == Applied(s, false)
  {
  }

  /** Exactly when a started round cannot move: when nobody takes part in it. */
  lemma StuckExactly(s: State)
    requires Valid(s) && Started(Current(s))
    ensures Stuck(s) <==> Current(s).participants == []
  {
    hide Apply;
    if Current(s).participants == [] {
      forall op: Op | !op.AbortOp? ensures Apply(s, op) == Applied(s, false) {
        EmptyIsStuck(s, op);
      }
    } else {
      TurnOpAccepted(s);
    }
  }

  lemma HandleNotEmpty(ri: RoundInfo, op: Op)
    requires RepInvariant(ri) && Active(ri.phase) && (Started(ri) || op.StartOp? ==> ri.participants != [])
    ensures var o := Handle(ri, op).ri; Started(o) ==> o.participants != []
  {
  }

  lemma ApplyNotEmpty(s: State, t: State, op: Op)
    requires Valid(s) && Valid(t) && StateEvolves(s, t) && NotEmpty(t)
    requires ComputedFrom(s, op)
    ensures Valid(Apply(t, op).state) && NotEmpty(Apply(t, op).state)
  {
    hide Handle, RepInvariant, StateEvolves, ComputedFrom;
    ApplyKeepsValid(t, op);
    if op.r == t.round {
      if op.StartOp? {
        StartedBySomeone(s, t, op);
      }
      HandleNotEmpty(Current(t), op);
      ApplyShape(t, op);
      hide Apply;
    }
  }

  /** Whoever starts a round was in it, and still is. */
  lemma StartedBySomeone(s: State, t: State, op: Op)
    requires Valid(s) && Valid(t) && StateEvolves(s, t) && ComputedFrom(s, op) && op.StartOp? && op.r == t.round
    ensures Current(t).participants != []
  {
    hide RepInvariant, Count, FlagsGrow, SameVersion;
  }

  lemma NeverEmptySnoc(log: seq<Op>, op: Op)
    requires NeverEmpty(log) && NotEmpty(StateAt(log + [op], |log| + 1))
    ensures NeverEmpty(log + [op])
  {
    hide StateAt, NotEmpty;
    forall i | 0 <= i <= |log| + 1 ensures NotEmpty(StateAt(log + [op], i)) {
      if i <= |log| {
        StateAtPrefix(log, [op], i);
      }
    }
  }

  lemma CommitNeverEmpty(size: nat, sha: Sha256, sys: System, e: Issued)
    requires Inv(size, sha, sys) && NeverEmpty(sys.log) && e in sys.issued
    ensures NeverEmpty(sys.log + [e.op])
  {
    InvEntry(size, sha, sys, e);
    assert NotEmpty(StateAt(sys.log, |sys.log|));
    hide Inv, StateAt, Valid, NotEmpty, NeverEmpty, Apply, Content, ComputedFrom, StateEvolves;
    StateAtEvolves(sys.log, e.origin, |sys.log|);
    ApplyNotEmpty(StateAt(sys.log, e.origin), StateAt(sys.log, |sys.log|), e.op);
    StateAtSnoc(sys.log, e.op);
    NeverEmptySnoc(sys.log, e.op);
  }

  lemma StepNeverEmpty(size: nat, sha: Sha256, sys: System, step: Step)
    requires Inv(size, sha, sys) && NeverEmpty(sys.log) && Enabled(size, sys, step)
    ensures NeverEmpty(Do(size, sha, sys, step).log)
  {
    hide Inv, NeverEmpty, StateAt, Valid, Admissible;
    if step.Commit? {
      CommitNeverEmpty(size, sha, sys, step.entry);
    }
  }

  /** Honest starters: no round of a run is started empty. */
  lemma {:induction false} RunNeverEmpty(size: nat, sha: Sha256, run: seq<System>)
    requires IsRun(size, sha, run)
    ensures NeverEmpty(run[|run| - 1].log)
    decreases |run|
  {
    if |run| == 1 {
      FreshRoundRep();
      assert StateAt([], 0) == InitialState;
    } else {
      hide *;
      var step := LastStep(size, sha, run);
      RunNeverEmpty(size, sha, run[..|run| - 1]);
      RunKeepsInv(size, sha, run[..|run| - 1]);
      StepNeverEmpty(size, sha, run[|run| - 2], step);
    }
  }

  // ----- some step makes progress

  /** Committing the operation now takes one piece of work off. */
  predicate Advances(s: State, op: Op)
    requires Valid(s)
  {
    op.r == s.round && !op.AbortOp? && Fresh(Current(s), op)
  }

  /** The operation ends a round whose crypto does not verify. */
  predicate GivesUp(size: nat, s: State, op: Op)
    requires Valid(s)
  {
    && op == AbortOp(s.round) && Current(s).phase.Submit?
    && Current(s).crypto.Some? && !Current(s).crypto.value.Verify(size + HeaderLength)
  }

  /** A message or scramble of the participant whose turn it is, sent earlier in this round, is accepted now. */
  lemma SentAdvances(s: State, op: Op)
    requires Valid(s) && Started(Current(s)) && Current(s).participants != [] && op.r == s.round
    requires var id := Current(s).participants[Mover(Current(s))];
             || (Current(s).phase.Submit? && ActsBy(op, id, Submits))
             || (Current(s).phase.Scramble? && ActsBy(op, id, Scrambles))
    ensures Advances(s, op)
  {
    var ri := Current(s);
    DistinctIndex(ri.participants, Mover(ri));
    if ri.phase.Scramble? {
      CountPrefix(ri.scrambled, Mover(ri));
    }
  }

  lemma MoverAdvances(size: nat, sha: Sha256, s: State, l: Local, ch: Choices)
    requires Valid(s) && Started(Current(s)) && Current(s).participants != [] && Current(s).crypto.Some?
    requires ch.active && |ch.random| == 8 && |ch.fallbackRandom| == 8 && Unused(l, Current(s).phase, s.round)
    ensures var op := Observe(size, sha, Current(s).participants[Mover(Current(s))], l, s, ch).op;
            op.Some? && (Advances(s, op.value) || GivesUp(size, s, op.value))
  {
    var ri := Current(s);
    if ri.phase.Submit? && !ri.crypto.value.Verify(size + HeaderLength) {
      DistinctIndex(ri.participants, Mover(ri));
      hide VerifySysKey, RepInvariant;
    } else {
      SomeoneCanMove(size, sha, s, l, ch);
    }
  }

  /** A used guard of the participant whose turn it is leaves an operation to commit. */
  lemma UsedGuardAdvances(size: nat, sha: Sha256, sys: System, id: Uuid)
    requires Inv(size, sha, sys) && NothingLost(sys) && id in sys.clients
    requires var s := StateAt(sys.log, |sys.log|);
             && Started(Current(s)) && Current(s).participants != [] && Current(s).participants[Mover(Current(s))] == id
             && !Unused(sys.clients[id].local, Current(s).phase, s.round)
    ensures exists e :: e in sys.issued && Advances(StateAt(sys.log, |sys.log|), e.op)
  {
    var s, l := StateAt(sys.log, |sys.log|), sys.clients[id].local;
    assert ClientOk(sys.log, sys.history, id, sys.clients[id]);
    assert GuardsKept(sys.issued, id, l);
    var deed, r := (if Current(s).phase.Submit? then Submits else Scrambles),
                   (if Current(s).phase.Submit? then l.lastMessageRound else l.lastScrambledRound);
    assert r >= s.round && Sent(sys.issued, id, r, deed);
    var e :| e in sys.issued && ActsBy(e.op, id, deed) && e.op.r == r;
    InvEntry(size, sha, sys, e);
    StateAtEvolves(sys.log, e.origin, |sys.log|);
    hide Inv, NothingLost, StateAt, Mover, Content, Valid;
    SentAdvances(s, e.op);
  }

  lemma LatestUpdateEnabled(size: nat, sha: Sha256, sys: System, id: Uuid, ch: Choices)
    requires Inv(size, sha, sys) && id in sys.clients
    ensures Admissible(size, sys.clients[id].local, StateAt(sys.log, |sys.log|), ch) ==>
              Enabled(size, sys, Update(id, |sys.log|, ch))
  {
    assert ClientOk(sys.log, sys.history, id, sys.clients[id]);
    hide Admissible, StateAt;
  }

  lemma ParticipantIsClient(sys: System, id: Uuid)
    requires NothingLost(sys) && id in Current(StateAt(sys.log, |sys.log|)).participants
    ensures id in sys.clients
  {
    MarkSent(sys, |sys.log|, id, Joins);
    hide StateAt, Valid, Acted;
  }

  /**
   * In every reachable state with a started round, an operation that was sent can be committed and takes a piece of
   * work off, or the participant whose turn it is can see this state, and then sends such an operation or gives up a
   * bad crypto.
   */
  lemma NeverStuck(size: nat, sha: Sha256, run: seq<System>, ch: Choices)
    requires IsRun(size, sha, run) && ch.active && |ch.random| == 8 && |ch.fallbackRandom| == 8
    requires Started(Current(StateAt(run[|run| - 1].log, |run[|run| - 1].log|)))
    ensures Current(StateAt(run[|run| - 1].log, |run[|run| - 1].log|)).participants != []
    ensures var sys := run[|run| - 1];
            var s := StateAt(sys.log, |sys.log|);
            var id := Current(s).participants[Mover(Current(s))];
            && id in sys.clients
            && (Admissible(size, sys.clients[id].local, s, ch) ==> Enabled(size, sys, Update(id, |sys.log|, ch)))
            && ((exists e :: e in sys.issued && Advances(s, e.op))
                || var op := Observe(size, sha, id, sys.clients[id].local, s, ch).op;
                   op.Some? && (Advances(s, op.value) || GivesUp(size, s, op.value)))
  {
    RunKeepsInv(size, sha, run);
    RunLosesNothing(size, sha, run);
    RunNeverEmpty(size, sha, run);
    var sys := run[|run| - 1];
    var s := StateAt(sys.log, |sys.log|);
    assert NotEmpty(s);
    var id := Current(s).participants[Mover(Current(s))];
    assert StateGood(sha, sys.history, s);
    CurrentGood(sha, sys.history, s);
    hide IsRun, Inv, NothingLost, StateAt, Mover, Observe, Valid, Advances, GivesUp, Admissible, Enabled, RoundGood;
    ParticipantIsClient(sys, id);
    LatestUpdateEnabled(size, sha, sys, id, ch);
    if Unused(sys.clients[id].local, Current(s).phase, s.round) {
      MoverAdvances(size, sha, s, sys.clients[id].local, ch);
    } else {
      UsedGuardAdvances(size, sha, sys, id);
    }
  }
}
