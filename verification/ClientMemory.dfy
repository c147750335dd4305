/** What the clients of a run remember, and what they have sent at most once. */
module ClientMemory {
  import opened Bytes
  import opened MasseyOmura
  import opened Crypto
  import opened Ops
  import opened Rounds
  import opened Layers
  import opened ClientSteps
  import opened Protocol
  import opened Deeds
  import opened NoDeadlock

  // ----- the invariant

  predicate ScrambleAt(log: seq<Op>, i: nat, r: int, n: nat)
    requires i <= |log|
  {
    var s := StateAt(log, i);
    s.round == r && Current(s).phase.Scramble? && |Current(s).messages| == n
  }

  predicate RevealAt(log: seq<Op>, i: nat, r: int, hashes: seq<seq<byte>>, messages: seq<Msg>)
    requires i <= |log|
  {
    var s := StateAt(log, i);
    && s.round == r && Current(s).phase.Reveal?
    && Current(s).revealKeyHashes == hashes && Current(s).messages == messages
  }

  /** Some state up to the client's cursor is where the scramble snapshot comes from. */
  ghost predicate SawScramble(log: seq<Op>, cursor: nat, r: int, n: nat)
    requires cursor <= |log|
  {
    exists i :: 0 <= i <= cursor && ScrambleAt(log, i, r, n)
  }

  ghost predicate SawReveal(log: seq<Op>, cursor: nat, r: int, hashes: seq<seq<byte>>, messages: seq<Msg>)
    requires cursor <= |log|
  {
    exists i :: 0 <= i <= cursor && RevealAt(log, i, r, hashes, messages)
  }

  /** The client's marks are for rounds it has seen, and its snapshots are of states it has seen. */
  ghost predicate SnapshotsOk(log: seq<Op>, l: Local, cursor: nat)
    requires cursor <= |log|
  {
    var round := StateAt(log, cursor).round;
    && l.lastScrambledRound <= round && l.revealKeyHashesRound <= round
    && (l.lastScrambledRound >= 0 ==> SawScramble(log, cursor, l.lastScrambledRound, l.messagesWhenScrambled))
    && (l.revealKeyHashesRound >= 0 ==>
          SawReveal(log, cursor, l.revealKeyHashesRound, l.revealKeyHashes, l.messagesBeforeReveal))
  }

  predicate NoJoinBefore(log: seq<Op>, id: Uuid, n: nat)
    requires n <= |log|
  {
    forall q :: 0 <= q < n ==> !ActsBy(log[q], id, Joins)
  }

  /** The client has dispatched all rounds before the one at its cursor, if it has seen the beginning of that one. */
  predicate DispatchOk(log: seq<Op>, id: Uuid, l: Local, cursor: nat)
    requires cursor <= |log|
  {
    var s := StateAt(log, cursor);
    l.lastResChSend >= s.round - 1 || !Current(s).phase.Prepare? || NoJoinBefore(log, id, cursor)
  }

  ghost predicate ClientRemembers(log: seq<Op>, id: Uuid, cs: ClientState) {
    cs.cursor <= |log| && SnapshotsOk(log, cs.local, cs.cursor) && DispatchOk(log, id, cs.local, cs.cursor)
  }

  /** Scrambles and reveals have been sent up to the client's marks only. */
  predicate Covered(clients: map<Uuid, ClientState>, op: Op) {
    && (op.ScrambledOp? ==> op.id in clients && op.r <= clients[op.id].local.lastScrambledRound)
    && (op.RevealOp? ==> op.id in clients && op.r <= clients[op.id].local.revealKeyHashesRound)
  }

  predicate ScramblesUnique(issued: set<Issued>) {
    forall e, f | e in issued && f in issued && e.op.ScrambledOp? && f.op.ScrambledOp? ::
      e.op.id == f.op.id && e.op.r == f.op.r ==> e.op == f.op
  }

  ghost predicate Remembering(sys: System) {
    && (forall id :: id in sys.clients ==> ClientRemembers(sys.log, id, sys.clients[id]))
    && (forall e :: e in sys.issued ==> Covered(sys.clients, e.op))
    && ScramblesUnique(sys.issued)
  }

  // ----- one update

  /** How an update moves the marks: they go up to the current round, with a snapshot of the current state. */
  predicate MarksMove(id: Uuid, l: Local, round: int, ri: RoundInfo, e: Effect) {
    var l' := e.local;
    && (|| (l'.lastScrambledRound == l.lastScrambledRound && l'.messagesWhenScrambled == l.messagesWhenScrambled)
        || (l.lastScrambledRound < l'.lastScrambledRound == round && ri.phase.Scramble?
            && l'.messagesWhenScrambled == |ri.messages|))
    && (|| (l'.revealKeyHashesRound == l.revealKeyHashesRound && l'.revealKeyHashes == l.revealKeyHashes
            && l'.messagesBeforeReveal == l.messagesBeforeReveal)
        || (l.revealKeyHashesRound < l'.revealKeyHashesRound == round && ri.phase.Reveal?
            && l'.revealKeyHashes == ri.revealKeyHashes && l'.messagesBeforeReveal == ri.messages))
    && (e.op.Some? && e.op.value.ScrambledOp? ==>
          e.op.value.id == id && e.op.value.r == l'.lastScrambledRound > l.lastScrambledRound)
    && (e.op.Some? && e.op.value.RevealOp? ==> e.op.value.id == id && e.op.value.r <= l'.revealKeyHashesRound)
    && (ri.phase.Prepare? ==> l'.lastResChSend >= round - 1)
  }

  lemma UpdateMarks(size: nat, sha: Sha256, id: Uuid, l: Local, round: int, ri: RoundInfo, ch: Choices)
    requires Readable(ri) && |ch.random| == 8 && |ch.fallbackRandom| == 8
    ensures MarksMove(id, l, round, ri, ObserveView(size, sha, id, l, round, ri, ch))
  {
    hide VerifySysKey, EncryptOthers, DecryptTwice, TextSent, Plain, Count, ParticipantIndex;
  }

  lemma SnapshotsMove(log: seq<Op>, id: Uuid, l: Local, cursor: nat, at: nat, e: Effect)
    requires cursor <= at <= |log| && SnapshotsOk(log, l, cursor)
    requires MarksMove(id, l, StateAt(log, at).round, Current(StateAt(log, at)), e)
    ensures SnapshotsOk(log, e.local, at)
  {
    StateAtEvolves(log, cursor, at);
    var l' := e.local;
    hide StateAt, Valid;
    if l'.lastScrambledRound != l.lastScrambledRound {
      assert ScrambleAt(log, at, l'.lastScrambledRound, l'.messagesWhenScrambled);
    } else if l.lastScrambledRound >= 0 {
      var i :| 0 <= i <= cursor && ScrambleAt(log, i, l.lastScrambledRound, l.messagesWhenScrambled);
    }
    if l'.revealKeyHashesRound != l.revealKeyHashesRound {
      assert RevealAt(log, at, l'.revealKeyHashesRound, l'.revealKeyHashes, l'.messagesBeforeReveal);
    } else if l.revealKeyHashesRound >= 0 {
      var i :| 0 <= i <= cursor && RevealAt(log, i, l.revealKeyHashesRound, l.revealKeyHashes, l.messagesBeforeReveal);
    }
  }

  /** One client moves, with marks that do not go down, and sends at most one operation that its marks cover. */
  lemma MoveRemembers(sys: System, next: System, id: Uuid, at: nat, l: Local, e: Effect, round: int, ri: RoundInfo)
    requires Remembering(sys) && id in sys.clients && l == sys.clients[id].local
    requires next.log == sys.log && next.clients == sys.clients[id := ClientState(e.local, at)]
    requires next.issued == if e.op.Some? then sys.issued + {Issued(e.op.value, at)} else sys.issued
    requires MarksMove(id, l, round, ri, e) && ClientRemembers(sys.log, id, ClientState(e.local, at))
    ensures Remembering(next)
  {
    hide ClientRemembers;
    forall f | f in next.issued ensures Covered(next.clients, f.op) {
      if f in sys.issued {
        assert Covered(sys.clients, f.op);
      }
    }
    forall f, g | f in next.issued && g in next.issued && f.op.ScrambledOp? && g.op.ScrambledOp?
                  && f.op.id == g.op.id && f.op.r == g.op.r ensures f.op == g.op
    {
      if f in sys.issued {
        assert Covered(sys.clients, f.op);
      }
      if g in sys.issued {
        assert Covered(sys.clients, g.op);
      }
    }
  }

  lemma UpdatedClient(log: seq<Op>, id: Uuid, cs: ClientState, at: nat, e: Effect)
    requires ClientRemembers(log, id, cs) && cs.cursor <= at <= |log|
    requires MarksMove(id, cs.local, StateAt(log, at).round, Current(StateAt(log, at)), e)
    ensures ClientRemembers(log, id, ClientState(e.local, at))
  {
    hide SnapshotsOk, StateAt, Valid;
    SnapshotsMove(log, id, cs.local, cs.cursor, at, e);
  }

  lemma UpdateMarksIn(size: nat, sha: Sha256, id: Uuid, l: Local, sm: State, ch: Choices)
    requires Valid(sm) && |ch.random| == 8 && |ch.fallbackRandom| == 8
    ensures MarksMove(id, l, sm.round, Current(sm), Observe(size, sha, id, l, sm, ch))
  {
    hide ObserveView, MarksMove;
    UpdateMarks(size, sha, id, l, sm.round, Current(sm), ch);
  }

  lemma UpdateShape(size: nat, sha: Sha256, sys: System, id: Uuid, at: nat, ch: Choices)
    requires Enabled(size, sys, Update(id, at, ch))
    ensures id in sys.clients && sys.clients[id].cursor <= at <= |sys.log|
    ensures |ch.random| == 8 && |ch.fallbackRandom| == 8
    ensures var e := Observe(size, sha, id, sys.clients[id].local, StateAt(sys.log, at), ch);
            var next := Do(size, sha, sys, Update(id, at, ch));
            && next.log == sys.log && next.clients == sys.clients[id := ClientState(e.local, at)]
            && next.issued == if e.op.Some? then sys.issued + {Issued(e.op.value, at)} else sys.issued
  {
    hide Observe, StateAt, Valid, NextHistory, ShuffleAdmissible;
  }

  lemma UpdateRemembers(size: nat, sha: Sha256, sys: System, id: Uuid, at: nat, ch: Choices)
    requires Remembering(sys) && Enabled(size, sys, Update(id, at, ch))
    ensures Remembering(Do(size, sha, sys, Update(id, at, ch)))
  {
    hide ClientRemembers, MarksMove, Observe, StateAt, RepInvariant, Do, Enabled;
    UpdateShape(size, sha, sys, id, at, ch);
    var sm, l := StateAt(sys.log, at), sys.clients[id].local;
    assert ClientRemembers(sys.log, id, sys.clients[id]);
    hide Remembering;
    UpdateMarksIn(size, sha, id, l, sm, ch);
    var e := Observe(size, sha, id, l, sm, ch);
    UpdatedClient(sys.log, id, sys.clients[id], at, e);
    MoveRemembers(sys, Do(size, sha, sys, Update(id, at, ch)), id, at, l, e, sm.round, Current(sm));
  }

  // ----- the other steps

  lemma CommitScramble(log: seq<Op>, op: Op, cursor: nat, r: int, n: nat)
    requires cursor <= |log| && SawScramble(log, cursor, r, n)
    ensures SawScramble(log + [op], cursor, r, n)
  {
    var i :| 0 <= i <= cursor && ScrambleAt(log, i, r, n);
    hide StateAt, Valid;
    StateAtPrefix(log, [op], i);
    assert ScrambleAt(log + [op], i, r, n);
  }

  lemma CommitReveal(log: seq<Op>, op: Op, cursor: nat, r: int, hashes: seq<seq<byte>>, messages: seq<Msg>)
    requires cursor <= |log| && SawReveal(log, cursor, r, hashes, messages)
    ensures SawReveal(log + [op], cursor, r, hashes, messages)
  {
    var i :| 0 <= i <= cursor && RevealAt(log, i, r, hashes, messages);
    hide StateAt, Valid;
    StateAtPrefix(log, [op], i);
    assert RevealAt(log + [op], i, r, hashes, messages);
  }

  lemma CommitSnapshots(log: seq<Op>, op: Op, l: Local, cursor: nat)
    requires cursor <= |log| && SnapshotsOk(log, l, cursor)
    ensures SnapshotsOk(log + [op], l, cursor)
  {
    hide StateAt, SawScramble, SawReveal, Valid;
    StateAtPrefix(log, [op], cursor);
    if l.lastScrambledRound >= 0 {
      CommitScramble(log, op, cursor, l.lastScrambledRound, l.messagesWhenScrambled);
    }
    if l.revealKeyHashesRound >= 0 {
      CommitReveal(log, op, cursor, l.revealKeyHashesRound, l.revealKeyHashes, l.messagesBeforeReveal);
    }
  }

  lemma CommitRemembers(sys: System, op: Op)
    requires Remembering(sys)
    ensures Remembering(sys.(log := sys.log + [op]))
  {
    hide StateAt, SnapshotsOk, ScramblesUnique, Covered;
    forall id | id in sys.clients ensures ClientRemembers(sys.log + [op], id, sys.clients[id]) {
      var cs := sys.clients[id];
      assert ClientRemembers(sys.log, id, cs);
      CommitSnapshots(sys.log, op, cs.local, cs.cursor);
      StateAtPrefix(sys.log, [op], cs.cursor);
    }
  }

  lemma NewNeverJoined(sys: System, id: Uuid, at: nat)
    requires NothingLost(sys) && id !in sys.clients && at <= |sys.log|
    ensures NoJoinBefore(sys.log, id, at)
  {
    forall q | 0 <= q < at ensures !ActsBy(sys.log[q], id, Joins) {
      assert SentBefore(sys.issued, sys.log[q], q);
    }
  }

  lemma NewClientRemembers(sys: System, id: Uuid, at: nat)
    requires Remembering(sys) && NothingLost(sys) && id !in sys.clients && at <= |sys.log|
    ensures Remembering(sys.(clients := sys.clients[id := ClientState(InitialLocal, at)]))
  {
    NewNeverJoined(sys, id, at);
    hide StateAt, ScramblesUnique, NothingLost, NoJoinBefore, SawScramble, SawReveal;
    var next := sys.(clients := sys.clients[id := ClientState(InitialLocal, at)]);
    assert ClientRemembers(sys.log, id, ClientState(InitialLocal, at));
    hide ClientRemembers;
    forall e | e in next.issued ensures Covered(next.clients, e.op) {
      assert Covered(sys.clients, e.op);
    }
  }

  lemma IssueRemembers(sys: System, op: Op, at: nat)
    requires Remembering(sys) && !op.ScrambledOp? && !op.RevealOp?
    ensures Remembering(Issue(sys, op, at))
  {
    hide ClientRemembers;
  }

  lemma StepRemembers(size: nat, sha: Sha256, sys: System, step: Step)
    requires Remembering(sys) && NothingLost(sys) && Enabled(size, sys, step)
    ensures Remembering(Do(size, sha, sys, step))
  {
    hide Remembering, NothingLost, StateAt, Valid, Admissible;
    match step
    case NewClient(id, at) => NewClientRemembers(sys, id, at);
    case Update(id, at, ch) => UpdateRemembers(size, sha, sys, id, at, ch);
    case Rejoin(id, at) => IssueRemembers(sys, JoinOp(id, StateAt(sys.log, at).round), at);
    case StartRound(id, at, crypto) => IssueRemembers(sys, StartOp(id, StateAt(sys.log, at).round, Some(crypto)), at);
    case AbortRound(at) => IssueRemembers(sys, AbortOp(StateAt(sys.log, at).round), at);
    case Commit(entry) => CommitRemembers(sys, entry.op);
  }

  lemma {:induction false} RunRemembering(size: nat, sha: Sha256, run: seq<System>)
    requires IsRun(size, sha, run)
    ensures Remembering(run[|run| - 1])
    decreases |run|
  {
    if |run| > 1 {
      hide *;
      var step := LastStep(size, sha, run);
      RunRemembering(size, sha, run[..|run| - 1]);
      RunLosesNothing(size, sha, run[..|run| - 1]);
      StepRemembers(size, sha, run[|run| - 2], step);
    }
  }
}
