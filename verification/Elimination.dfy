/** Why the operations that the queue throws away could never have mattered. */
module Elimination {
  import opened Bytes
  import opened Crypto
  import opened Ops
  import opened Rounds
  import opened Runs
  import opened Layers
  import opened ClientSteps
  import opened Honest
  import opened Protocol
  import opened EliminationQueues
  import opened Progress
  import opened NoDeadlock
  import opened ClientMemory

  /** The two operations come from the same client. */
  predicate SameClient(a: Op, b: Op) {
    !a.AbortOp? && !b.AbortOp? ==> a.id == b.id
  }

  /** An operation older than one computed in t has had its moment by t. */
  lemma OlderIsDead(t: State, a: Op, b: Op)
    requires Valid(t) && ComputedFrom(t, b) && !b.AbortOp? && SameClient(a, b)
    requires Compare(b, a) == Newer
    ensures Dead(t, a)
  {
    hide RepInvariant;
  }

  /**
   * Elimination is harmless: when a newer operation of the client replaces a pending one, the older one is a no-op in
   * the state the newer one was computed from and ever after, so a log with it and a log without it reach the same
   * state.
   */
  lemma EliminationHarmless(t: State, a: Op, b: Op, before: seq<Op>, after: seq<Op>)
    requires Valid(t) && ComputedFrom(t, b) && !b.AbortOp? && SameClient(a, b)
    requires Compare(b, a) == Newer
    ensures NoEffectForever(t, a)
    ensures Run(t, before + [a] + after) == Run(t, before + after)
  {
    OlderIsDead(t, a, b);
    DeadForever(t, a);
    NoEffectDropped(t, a, before, after);
  }

  lemma NoEffectDropped(t: State, a: Op, before: seq<Op>, after: seq<Op>)
    requires Valid(t) && NoEffectForever(t, a)
    ensures Run(t, before + [a] + after) == Run(t, before + after)
  {
    var u := Run(t, before);
    RunConcat(t, before + [a], after);
    RunSnoc(t, before, a);
    RunConcat(t, before, after);
    assert Apply(u, a) == Applied(u, false);
  }

  // ----- aborts

  /** Dropping the operation, now or after other operations, never makes a difference. */
  ghost predicate DropHarmless(t: State, a: Op)
    requires Valid(t)
  {
    forall before: seq<Op>, after: seq<Op> :: Run(t, before + [a] + after) == Run(t, before + after)
  }

  /**
   * An abort may replace an operation that still matters: the client that waits for its message to be committed times
   * out, and its abort takes the place of the message, which would have been accepted.
   */
  lemma AbortDropsLiveOp(id: Uuid, c: Crypto, message: Msg, hash: seq<byte>)
    requires !message.Nil()
    ensures var s, a := FromStart([JoinOp(id, 0), StartOp(id, 0, Some(c))]), MessageOp(id, 0, message, hash);
            && Current(s).phase.Submit? && Current(s).messages == [NilMsg]
            && ComputedFrom(s, a) && ComputedFrom(s, AbortOp(0)) && Compare(AbortOp(0), a) == Newer
            && Apply(s, a).updated && Run(s, [a]) != s
  {
    FreshRoundRep();
    var join, start: Op := JoinOp(id, 0), StartOp(id, 0, Some(c));
    var s1 := Apply(InitialState, join).state;
    ApplyKeepsValid(InitialState, join);
    var s := Apply(s1, start).state;
    ApplyKeepsValid(s1, start);
    RunOne(InitialState, join);
    RunSnoc(InitialState, [join], start);
    assert [join] + [start] == [join, start];
    assert FromStart([join, start]) == s;
    RunOne(s, MessageOp(id, 0, message, hash));
    assert Current(s).participants == [id];
    assert Current(Apply(s, MessageOp(id, 0, message, hash)).state).messages == [message];
  }

  /** A message or key other than the given one, and not nil. */
  function OtherMsg(m: Msg): Msg { if m == TrivialMsg then Msg([2]) else TrivialMsg }

  function OtherKey(k: PrivateKey): PrivateKey { if k == TrivialKey then PrivateKey([2], [1]) else TrivialKey }

  /** The operation that would first replace what the given one writes. */
  function Rival(a: Op): Op {
    match a
    case MessageOp(id, r, m, hash) => MessageOp(id, r, OtherMsg(m), hash)
    case RevealOp(id, r, k) => RevealOp(id, r, OtherKey(k))
    case _ => a
  }

  /** An accepted operation changes the state, or at least would after its rival. */
  lemma AcceptedMatters(t: State, a: Op)
    requires Valid(t) && Apply(t, a).updated && Substantial(a)
    ensures Apply(t, a).state != t
         || (Valid(Apply(t, Rival(a)).state)
             && Apply(Apply(t, Rival(a)).state, a).state != Apply(t, Rival(a)).state)
  {
    ApplyKeepsValid(t, a);
    if Apply(t, a).state == t {
      assert a.r == t.round;
      HandleSame(t, a);
      ApplyKeepsValid(t, Rival(a));
      RivalOverwritten(t, a);
    }
  }

  lemma HandleSame(t: State, a: Op)
    requires Valid(t) && Apply(t, a).updated && Apply(t, a).state == t && a.r == t.round
    ensures !Handle(Current(t), a).over && Handle(Current(t), a).ri == Current(t) && Handle(Current(t), a).updated
    ensures a.MessageOp? || a.RevealOp?
  {
    ApplyShape(t, a);
    CurrentSlot(t, a);
    if !a.MessageOp? && !a.RevealOp? {
      HandleChanges(Current(t), a);
    }
    hide Handle, RepInvariant, Apply;
  }

  lemma CurrentSlot(t: State, a: Op)
    requires Valid(t) && a.r == t.round && Apply(t, a).state == t
    ensures !Handle(Current(t), a).over && Handle(Current(t), a).ri == Current(t)
  {
    ApplyShape(t, a);
    hide Handle, RepInvariant, Apply;
    var ri := Handle(Current(t), a).ri;
    assert t.rounds[t.round % 3 := ri][t.round % 3] == ri;
  }

  /** Operations other than messages and keys cannot be accepted twice. */
  lemma HandleChanges(ri: RoundInfo, a: Op)
    requires RepInvariant(ri) && Handle(ri, a).updated && !a.MessageOp? && !a.RevealOp?
    ensures Handle(ri, a).over || Handle(ri, a).ri != ri
  {
    var o := Handle(ri, a);
    match a
    case JoinOp(_, _) => assert |o.ri.participants| == |ri.participants| + 1;
    case EncryptedOp(id, _, _, _) => assert o.ri.encrypted[ParticipantIndex(ri.participants, id)];
    case ScrambledOp(id, _, _) => assert o.ri.scrambled[ParticipantIndex(ri.participants, id)];
    case DecryptedOp(id, _, _, _) => assert o.ri.decrypted[ParticipantIndex(ri.participants, id)];
    case _ =>
  }

  lemma RivalOverwritten(t: State, a: Op)
    requires Valid(t) && a.r == t.round && Substantial(a) && (a.MessageOp? || a.RevealOp?)
    requires Handle(Current(t), a).updated && !Handle(Current(t), a).over && Handle(Current(t), a).ri == Current(t)
    requires Valid(Apply(t, Rival(a)).state)
    ensures Apply(Apply(t, Rival(a)).state, a).state != Apply(t, Rival(a)).state
  {
    RivalHandled(Current(t), a);
    ApplyShape(t, Rival(a));
    hide Handle, RepInvariant, Apply, Substantial;
    var u := Apply(t, Rival(a)).state;
    assert Current(u) == Handle(Current(t), Rival(a)).ri;
    if Apply(u, a).state == u {
      CurrentSlot(u, a);
    }
  }

  lemma RivalHandled(ri: RoundInfo, a: Op)
    requires RepInvariant(ri) && Active(ri.phase) && Substantial(a) && (a.MessageOp? || a.RevealOp?)
    requires Handle(ri, a).updated && !Handle(ri, a).over && Handle(ri, a).ri == ri
    ensures var o := Handle(ri, Rival(a));
            && !o.over && RepInvariant(o.ri)
            && (Handle(o.ri, a).over || Handle(o.ri, a).ri != o.ri)
  {
    var rival := Rival(a);
    HandleKeepsRep(ri, rival);
    var p, u := ParticipantIndex(ri.participants, a.id), Handle(ri, rival).ri;
    if a.MessageOp? {
      assert ri.messages[p] == a.message;
      var q :| 0 <= q < |ri.messages| && ri.messages[q].Nil();
      assert u.messages[q].Nil();
      assert u.phase.Submit? && u.messages[p] == OtherMsg(a.message);
      assert Handle(u, a).ri.messages[p] == a.message;
    } else {
      assert ri.revealedKeys[p] == a.revealKey;
      var q :| 0 <= q < |ri.revealedKeys| && ri.revealedKeys[q].Nil();
      assert u.revealedKeys[q].Nil();
      assert u.phase.Reveal? && u.revealedKeys[p] == OtherKey(a.revealKey);
      assert Handle(u, a).ri.revealedKeys[p] == a.revealKey;
    }
  }

  lemma DeadIsHarmless(t: State, a: Op)
    requires Valid(t) && Dead(t, a)
    ensures DropHarmless(t, a)
  {
    DeadForever(t, a);
    forall before: seq<Op>, after: seq<Op> ensures Run(t, before + [a] + after) == Run(t, before + after) {
      NoEffectDropped(t, a, before, after);
    }
  }

  lemma LiveIsHarmful(t: State, a: Op)
    requires Valid(t) && Apply(t, a).updated && Substantial(a)
    ensures !DropHarmless(t, a)
  {
    AcceptedMatters(t, a);
    RunOne(t, a);
    var none: seq<Op> := [];
    assert none + [a] + none == [a] && none + none == none;
    if Apply(t, a).state == t {
      var rival := [Rival(a)];
      RunOne(t, Rival(a));
      RunSnoc(t, rival, a);
      assert rival + [a] + none == rival + [a] && rival + none == rival;
    } else {
      assert Run(t, none + [a] + none) != Run(t, none + none);
    }
  }

  /**
   * Exactly when a computed operation may be dropped: when its moment has passed, which the round number, the phase,
   * the count and the flag tell.
   */
  lemma DropHarmlessExactly(s: State, t: State, a: Op)
    requires Valid(s) && Valid(t) && StateEvolves(s, t) && ComputedFrom(s, a) && Substantial(a)
    ensures DropHarmless(t, a) <==> Dead(t, a)
    ensures NoEffectForever(t, a) <==> Dead(t, a)
  {
    LiveOrDead(s, t, a);
    hide RepInvariant, Apply, Dead, ComputedFrom, StateEvolves, DropHarmless;
    if Dead(t, a) {
      DeadForever(t, a);
      DeadIsHarmless(t, a);
    } else {
      LiveIsHarmful(t, a);
      assert Apply(Run(t, []), a) != Applied(Run(t, []), false);
    }
  }

  /**
   * In every run: when the abort of a client comes into its queue, the operation that was pending there is gone. No
   * continuation of the log, from any position on, can tell exactly if that operation is dead.
   */
  lemma AbortDropExactly(size: nat, sha: Sha256, run: seq<System>, q: Queue, e: Issued, abort: Op, k: nat)
    requires IsRun(size, sha, run) && e in run[|run| - 1].issued && e.origin <= k <= |run[|run| - 1].log|
    requires q.ops == [e.op] && abort.AbortOp?
    requires Compare(abort, q.lastFinished) == Newer && Compare(abort, e.op) == Newer
    ensures Add(q, abort).ops == [abort]
    ensures var t := StateAt(run[|run| - 1].log, k);
            DropHarmless(t, e.op) <==> Dead(t, e.op)
  {
    RunKeepsInv(size, sha, run);
    var sys := run[|run| - 1];
    InvEntry(size, sha, sys, e);
    assert HistoryOk(size, sys.history);
    CompareIsKeyOrder(abort, e.op);
    CompareIsKeyOrder(e.op, abort);
    KeyOrderTotal(KeyOf(abort), KeyOf(e.op), KeyOf(abort));
    hide IsRun, Inv, HistoryOk, StateAt, Valid, ComputedFrom, Content, DropHarmless, Dead, Substantial, Compare, KeyOf;
    HonestSubstantial(size, sha, sys.history, Current(StateAt(sys.log, e.origin)), e.op);
    StateAtEvolves(sys.log, e.origin, k);
    DropHarmlessExactly(StateAt(sys.log, e.origin), StateAt(sys.log, k), e.op);
  }

  /** What an abort replaces is dead as soon as the abort has been applied, in whatever state that happens. */
  lemma AbortedIsDead(t: State, a: Op, abort: Op)
    requires Valid(t) && abort.AbortOp? && Compare(abort, a) == Newer && abort.r <= t.round
    ensures Valid(Apply(t, abort).state) && Dead(Apply(t, abort).state, a)
  {
    ApplyKeepsValid(t, abort);
    if abort.r == t.round {
      HandleKeepsRep(Current(t), abort);
    }
  }

  // ----- equally new operations

  lemma EqualSymmetric(a: Op, b: Op)
    requires Compare(a, b) == Equal
    ensures Compare(b, a) == Equal
    ensures SameClient(a, b) ==> SameClient(b, a)
    ensures Recomputed(a) ==> Recomputed(b)
    ensures a.r == b.r && (a.ScrambledOp? <==> b.ScrambledOp?) && (a.StartOp? <==> b.StartOp?)
  {
  }

  /** A client computes these operations without a fresh choice. */
  predicate Recomputed(op: Op) {
    !op.StartOp? && !op.ScrambledOp?
  }

  lemma SameMessages(s: State, t: State, a: Op, b: Op)
    requires Valid(s) && Valid(t) && StateEvolves(s, t)
    requires ComputedFrom(s, a) && ComputedFrom(t, b) && Compare(a, b) == Equal
    requires a.EncryptedOp? || a.DecryptedOp?
    ensures s.round == t.round && Current(s).messages == Current(t).messages
    ensures Current(s).participants == Current(t).participants
  {
    hide RepInvariant;
  }

  /** The history and the round info determine the content. */
  lemma ContentDetermines(sha: Sha256, h: History, a: RoundInfo, b: RoundInfo, x: Op, y: Op)
    requires Content(sha, h, a, x) && Content(sha, h, b, y)
    requires SameClient(x, y) && Recomputed(x) && Compare(x, y) == Equal
    requires x.EncryptedOp? || x.DecryptedOp? ==> a.messages == b.messages && a.participants == b.participants
    ensures x == y
  {
    hide Wrap, Plain, EncryptOthers, DecryptTwice, HashKey;
    match x
    case JoinOp(_, _) => assert y.JoinOp?;
    case MessageOp(_, _, _, _) => assert y.MessageOp?;
    case EncryptedOp(_, _, _, _) => assert y.EncryptedOp?;
    case DecryptedOp(_, _, _, _) => assert y.DecryptedOp?;
    case RevealOp(_, _, _) => assert y.RevealOp?;
    case AbortOp(_) => assert y.AbortOp?;
  }

  lemma EqualEntries(sha: Sha256, log: seq<Op>, h: History, e: Issued, f: Issued)
    requires EntryOk(sha, log, h, e) && EntryOk(sha, log, h, f)
    requires e.origin <= f.origin && SameClient(e.op, f.op) && Recomputed(e.op)
    requires Compare(e.op, f.op) == Equal
    ensures e.op == f.op
  {
    var s, t := StateAt(log, e.origin), StateAt(log, f.origin);
    StateAtEvolves(log, e.origin, f.origin);
    hide StateAt, Valid, ComputedFrom, StateEvolves, Content, Compare;
    if e.op.EncryptedOp? || e.op.DecryptedOp? {
      SameMessages(s, t, e.op, f.op);
    }
    ContentDetermines(sha, h, Current(s), Current(t), e.op, f.op);
  }

  lemma EqualScrambles(sys: System, e: Issued, f: Issued)
    requires Remembering(sys) && e in sys.issued && f in sys.issued && e.op.ScrambledOp? && f.op.ScrambledOp?
    requires SameClient(e.op, f.op) && e.op.r == f.op.r
    ensures e.op == f.op
  {
    hide ClientRemembers, Covered;
  }

  /**
   * An operation that the queue drops because an equally new one of the same client is there is that very operation,
   * in every run. Only a start, whose crypto the user's call generates afresh, may differ.
   */
  lemma EqualMeansSame(size: nat, sha: Sha256, run: seq<System>, e: Issued, f: Issued)
    requires IsRun(size, sha, run)
    requires e in run[|run| - 1].issued && f in run[|run| - 1].issued
    requires SameClient(e.op, f.op) && !e.op.StartOp? && Compare(e.op, f.op) == Equal
    ensures e.op == f.op
  {
    RunKeepsInv(size, sha, run);
    RunRemembering(size, sha, run);
    var sys := run[|run| - 1];
    EqualSymmetric(e.op, f.op);
    hide IsRun, Inv, Remembering, EntryOk, Compare, SameClient;
    if e.op.ScrambledOp? {
      EqualScrambles(sys, e, f);
    } else {
      InvEntry(size, sha, sys, e);
      InvEntry(size, sha, sys, f);
      if e.origin <= f.origin {
        EqualEntries(sha, sys.log, sys.history, e, f);
      } else {
        EqualEntries(sha, sys.log, sys.history, f, e);
      }
    }
  }

  /** Of two starts of a round the second is dead once the first has been accepted. */
  lemma SecondStartIsDead(t: State, a: Op, b: Op)
    requires Valid(t) && a.StartOp? && b.StartOp? && Compare(a, b) == Equal && Apply(t, a).updated
    ensures Valid(Apply(t, a).state) && Dead(Apply(t, a).state, b)
    ensures NoEffectForever(Apply(t, a).state, b)
  {
    ApplyKeepsValid(t, a);
    DeadForever(Apply(t, a).state, b);
  }

  // ----- the queue of a client in a run

  /** Everything that was ever added to the queue is an operation of this client, or an abort, that was computed. */
  ghost predicate FedBy(sys: System, id: Uuid, added: seq<Op>) {
    forall i :: 0 <= i < |added| ==> InIssued(sys.issued, added[i]) && (added[i].AbortOp? || added[i].id == id)
  }

  /**
   * What the queue has thrown away: for every client of every run, and however its adds interleave with the consumer,
   * each operation ever added is the newest one, or can never again have an effect from the state that the newest one
   * was computed from, or is another start of the same round.
   */
  lemma QueueLosesNothing(size: nat, sha: Sha256, run: seq<System>, trace: seq<Track>, id: Uuid, top: Issued, i: nat)
    requires IsRun(size, sha, run) && IsTrace(trace) && i < |trace[|trace| - 1].added|
    requires FedBy(run[|run| - 1], id, trace[|trace| - 1].added)
    requires top in run[|run| - 1].issued && top.op == Top(trace[|trace| - 1].q)
    requires !top.op.AbortOp? && top.op.id == id
    ensures top.origin <= |run[|run| - 1].log|
    ensures var a := trace[|trace| - 1].added[i];
            || a == top.op
            || NoEffectForever(StateAt(run[|run| - 1].log, top.origin), a)
            || (a.StartOp? && top.op.StartOp? && a.r == top.op.r)
  {
    var sys, a := run[|run| - 1], trace[|trace| - 1].added[i];
    var e := FedEntry(sys, id, trace[|trace| - 1].added, i);
    hide IsRun, IsTrace, Inv, StateAt, FedBy, Compare, SameClient;
    TopIsNewest(trace, i);
    RunKeepsInv(size, sha, run);
    InvEntry(size, sha, sys, top);
    if Compare(top.op, a) == Newer {
      NewerMakesDead(sha, sys, top, a);
    } else {
      EqualSymmetric(a, top.op);
      if !a.StartOp? {
        EqualMeansSame(size, sha, run, e, top);
      }
    }
  }

  lemma NewerMakesDead(sha: Sha256, sys: System, top: Issued, a: Op)
    requires EntryOk(sha, sys.log, sys.history, top) && !top.op.AbortOp? && SameClient(a, top.op)
    requires Compare(top.op, a) == Newer
    ensures top.origin <= |sys.log| && NoEffectForever(StateAt(sys.log, top.origin), a)
  {
    hide StateAt, ComputedFrom, Content, Compare, SameClient, RepInvariant;
    EliminationHarmless(StateAt(sys.log, top.origin), a, top.op, [], []);
  }

  lemma FedEntry(sys: System, id: Uuid, added: seq<Op>, i: nat) returns (e: Issued)
    requires FedBy(sys, id, added) && i < |added|
    ensures e in sys.issued && e.op == added[i] && (added[i].AbortOp? || added[i].id == id)
  {
    assert InIssued(sys.issued, added[i]);
    e :| e in sys.issued && e.op == added[i];
  }

  /** Everything ever added is older than the newest operation, or equally new. */
  lemma TopIsNewest(trace: seq<Track>, i: nat)
    requires IsTrace(trace) && i < |trace[|trace| - 1].added|
    ensures var t := trace[|trace| - 1];
            || Compare(Top(t.q), t.added[i]) == Newer
            || Compare(t.added[i], Top(t.q)) == Equal
  {
    RunningMaximum(trace);
    var t := trace[|trace| - 1];
    var a, top := t.added[i], Top(t.q);
    CompareIsKeyOrder(top, a);
    CompareIsKeyOrder(a, top);
    KeyOrderTotal(KeyOf(a), KeyOf(top), KeyOf(a));
    hide Compare, KeyOf, Below, IsTrace;
  }

  /** Every computed operation, committed anywhere, takes effect there or never again can: no temporary no-ops. */
  lemma RunNoTemporaryNoOp(size: nat, sha: Sha256, run: seq<System>, e: Issued, k: nat)
    requires IsRun(size, sha, run) && e in run[|run| - 1].issued
    requires e.origin <= k <= |run[|run| - 1].log|
    ensures var s := StateAt(run[|run| - 1].log, k); Apply(s, e.op).updated || NoEffectForever(s, e.op)
  {
    RunKeepsInv(size, sha, run);
    var sys := run[|run| - 1];
    assert EntryOk(sha, sys.log, sys.history, e);
    var s := StateAt(sys.log, k);
    StateAtEvolves(sys.log, e.origin, k);
    LiveOrDead(StateAt(sys.log, e.origin), s, e.op);
    if Dead(s, e.op) {
      DeadForever(s, e.op);
    }
  }
}
