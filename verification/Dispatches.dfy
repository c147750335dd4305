/** The update at which a participant tells its user how a round ended. */
module Dispatches {
  import opened Crypto
  import opened Ops
  import opened Rounds
  import opened ClientSteps
  import opened Protocol
  import opened Deeds
  import opened Origins
  import opened NoDeadlock
  import opened ClientMemory
  import opened ClientLoops
  import opened RoundResults
  import opened EndToEnd
  import opened Reports

  // ----- dispatching in time

  /** Round r is stored, and the client took part in it. */
  predicate TookPart(t: State, r: int, id: Uuid)
    requires Valid(t)
  {
    GetRoundInfo(t, r).Some? && id in GetRoundInfo(t, r).value.participants
  }

  /** On this update the client dispatches the result of the previous round, which it took part in. */
  predicate Dispatches(size: nat, sha: Sha256, sys: System, id: Uuid, at: nat, ch: Choices)
    requires Enabled(size, sys, Update(id, at, ch))
  {
    var t := StateAt(sys.log, at);
    Observe(size, sha, id, sys.clients[id].local, t, ch).sendsResult && TookPart(t, t.round - 1, id)
  }

  lemma DispatchFacts(size: nat, sha: Sha256, sys: System, id: Uuid, at: nat, ch: Choices)
    requires Enabled(size, sys, Update(id, at, ch)) && Dispatches(size, sha, sys, id, at, ch)
    ensures id in sys.clients && sys.clients[id].cursor <= at <= |sys.log|
    ensures TookPart(StateAt(sys.log, at), StateAt(sys.log, at).round - 1, id)
    ensures Current(StateAt(sys.log, at)).phase.Prepare?
    ensures StateAt(sys.log, at).round - 1 > sys.clients[id].local.lastResChSend
  {
    hide Observe, StateAt, RepInvariant;
    ObserveSends(size, sha, id, sys.clients[id].local, StateAt(sys.log, at), ch);
  }

  lemma OverKeepsParticipants(ri: RoundInfo, op: Op)
    requires RepInvariant(ri) && Handle(ri, op).over
    ensures Handle(ri, op).ri.participants == ri.participants
  {
  }

  /** Whoever took part in a round that is over had joined it before it ended. */
  lemma JoinedBeforeEnd(log: seq<Op>, at: nat, r: int, id: Uuid) returns (k: nat)
    requires at <= |log| && 0 <= r < StateAt(log, at).round && TookPart(StateAt(log, at), r, id)
    ensures k < at && StateAt(log, k).round == r && Acted(Current(StateAt(log, k)), id, Joins)
  {
    k := RoundEnd(log, at, r);
    StateAtNext(log, k);
    hide StateAt, Handle, Apply;
    EndedRound(StateAt(log, k), log[k]);
    OverKeepsParticipants(Current(StateAt(log, k)), log[k]);
    hide RepInvariant;
  }

  /** A participant of the previous round that dispatches its result has not been in the new round before. */
  lemma DispatchInTime(log: seq<Op>, id: Uuid, cs: ClientState, at: nat, k: nat)
    requires ClientRemembers(log, id, cs) && cs.cursor <= at <= |log| && k < |log|
    requires Current(StateAt(log, at)).phase.Prepare? && StateAt(log, at).round - 1 > cs.local.lastResChSend
    requires StateAt(log, k).round == StateAt(log, at).round - 1 && Acted(Current(StateAt(log, k)), id, Joins)
    ensures StateAt(log, cs.cursor).round < StateAt(log, at).round
  {
    var t := StateAt(log, at).round;
    var j := ActedBy(log, k, id, Joins);
    hide StateAt, Acted, RepInvariant, SnapshotsOk;
    StateAtEvolves(log, cs.cursor, at);
    if StateAt(log, cs.cursor).round == t {
      LaterRoundLater(log, k, cs.cursor);
    }
  }

  lemma LaterRoundLater(log: seq<Op>, i: nat, j: nat)
    requires i <= |log| && j <= |log| && StateAt(log, i).round < StateAt(log, j).round
    ensures i < j
  {
    if i >= j {
      StateAtEvolves(log, j, i);
    }
  }

  lemma ClientIsRemembering(sys: System, id: Uuid)
    requires Remembering(sys) && id in sys.clients
    ensures ClientRemembers(sys.log, id, sys.clients[id])
  {
    hide ClientRemembers;
  }

  /** When a participant dispatches, its variables are still those of the round that it reports. */
  lemma DispatchCursor(size: nat, sha: Sha256, sys: System, id: Uuid, at: nat, ch: Choices)
    requires Remembering(sys) && Enabled(size, sys, Update(id, at, ch)) && Dispatches(size, sha, sys, id, at, ch)
    ensures sys.clients[id].cursor <= |sys.log|
    ensures StateAt(sys.log, sys.clients[id].cursor).round <= StateAt(sys.log, at).round - 1
  {
    DispatchFacts(size, sha, sys, id, at, ch);
    hide Remembering, ClientRemembers, StateAt, Admissible, RepInvariant, Dispatches, Enabled, Acted;
    ClientIsRemembering(sys, id);
    var r := StateAt(sys.log, at).round - 1;
    assert 0 <= r;
    var k := JoinedBeforeEnd(sys.log, at, r, id);
    DispatchInTime(sys.log, id, sys.clients[id], at, k);
  }

  // ----- Done rounds

  predicate DispatchesDone(size: nat, sha: Sha256, sys: System, id: Uuid, at: nat, ch: Choices)
    requires Enabled(size, sys, Update(id, at, ch))
  {
    var t := StateAt(sys.log, at);
    Dispatches(size, sha, sys, id, at, ch) && GetRoundInfo(t, t.round - 1).value.phase.Done?
  }

  /** The client still remembers the Done round that it dispatches. */
  lemma DispatchRemembers(size: nat, sha: Sha256, run: seq<System>, sys: System, id: Uuid, at: nat,
                          ch: Choices, t: State)
    requires run != [] && IsRun(size, sha, run) && sys == run[|run| - 1]
    requires Enabled(size, sys, Update(id, at, ch)) && DispatchesDone(size, sha, sys, id, at, ch)
    requires at <= |sys.log| && t == StateAt(sys.log, at) && id in sys.clients
    ensures RemembersDone(sys, t, id)
  {
    hide *;
    DoneNotPassed(size, sha, run, sys, id, at, ch, t);
    RememberedBy(size, sha, run, sys, id, at, t);
  }

  /** Round r is Done with the client, which has not moved past it. */
  predicate NotPassed(sys: System, t: State, id: Uuid)
    requires Valid(t) && id in sys.clients
  {
    && DoneWith(t, t.round - 1, id) && sys.clients[id].cursor <= |sys.log|
    && StateAt(sys.log, sys.clients[id].cursor).round <= t.round - 1
  }

  lemma DoneNotPassed(size: nat, sha: Sha256, run: seq<System>, sys: System, id: Uuid, at: nat, ch: Choices, t: State)
    requires run != [] && IsRun(size, sha, run) && sys == run[|run| - 1]
    requires Enabled(size, sys, Update(id, at, ch)) && DispatchesDone(size, sha, sys, id, at, ch)
    requires at <= |sys.log| && t == StateAt(sys.log, at) && id in sys.clients
    ensures NotPassed(sys, t, id)
  {
    hide *;
    RunRemembering(size, sha, run);
    DoneCursor(size, sha, sys, id, at, ch);
  }

  lemma DoneCursor(size: nat, sha: Sha256, sys: System, id: Uuid, at: nat, ch: Choices)
    requires Remembering(sys) && Enabled(size, sys, Update(id, at, ch)) && DispatchesDone(size, sha, sys, id, at, ch)
    ensures at <= |sys.log| && id in sys.clients && NotPassed(sys, StateAt(sys.log, at), id)
  {
    DoneFacts(size, sha, sys, id, at, ch);
    DispatchCursor(size, sha, sys, id, at, ch);
    hide Enabled, StateAt, Dispatches, DispatchesDone, DoneWith, Remembering, Valid;
  }

  predicate RemembersDone(sys: System, t: State, id: Uuid)
    requires Valid(t) && id in sys.clients
  {
    DoneWith(t, t.round - 1, id) && Remembers(MemoryOf(sys.clients[id].local), GetRoundInfo(t, t.round - 1).value)
  }

  lemma RememberedBy(size: nat, sha: Sha256, run: seq<System>, sys: System, id: Uuid, at: nat, t: State)
    requires run != [] && IsRun(size, sha, run) && sys == run[|run| - 1] && at <= |sys.log| && t == StateAt(sys.log, at)
    requires id in sys.clients && NotPassed(sys, t, id)
    ensures RemembersDone(sys, t, id)
  {
    hide IsRun, StateAt, RepInvariant, Remembers;
    RunRemembers(size, sha, run, at, t.round - 1, id);
  }

  lemma DoneFacts(size: nat, sha: Sha256, sys: System, id: Uuid, at: nat, ch: Choices)
    requires Enabled(size, sys, Update(id, at, ch)) && DispatchesDone(size, sha, sys, id, at, ch)
    ensures Dispatches(size, sha, sys, id, at, ch) && id in sys.clients && at <= |sys.log|
    ensures DoneWith(StateAt(sys.log, at), StateAt(sys.log, at).round - 1, id)
  {
    hide StateAt, Observe, Admissible, RepInvariant;
  }

  /**
   * At the very update where a participant dispatches the result of a Done round, the report that it sends carries what
   * the users said if, and only if, that was sayable; with a text that is lost it panics.
   */
  lemma DispatchReports(size: nat, sha: Sha256, run: seq<System>, id: Uuid, at: nat, ch: Choices)
    requires run != [] && IsRun(size, sha, run) && Enabled(size, run[|run| - 1], Update(id, at, ch))
    requires DispatchesDone(size, sha, run[|run| - 1], id, at, ch)
    ensures var sys := run[|run| - 1];
            var t := StateAt(sys.log, at);
            && DoneWith(t, t.round - 1, id)
            && ReportsExactly(size, sha, sys.history, GetRoundInfo(t, t.round - 1).value, t.round - 1, id,
                              MemoryOf(sys.clients[id].local))
            && PanicsOnLostText(size, sha, sys.history, GetRoundInfo(t, t.round - 1).value, t.round - 1, id,
                                MemoryOf(sys.clients[id].local))
  {
    var sys := run[|run| - 1];
    DispatchRemembers(size, sha, run, sys, id, at, ch, StateAt(sys.log, at));
    var r := StateAt(sys.log, at).round - 1;
    hide IsRun, StateAt, Admissible, RepInvariant, DispatchesDone, ReportsExactly, PanicsOnLostText, Remembers;
    RunReports(size, sha, run, at, r, id, MemoryOf(sys.clients[id].local));
    RunLostText(size, sha, run, at, r, id, MemoryOf(sys.clients[id].local));
  }

  // ----- Failed rounds

  predicate DispatchesFailed(size: nat, sha: Sha256, sys: System, id: Uuid, at: nat, ch: Choices)
    requires Enabled(size, sys, Update(id, at, ch))
  {
    var t := StateAt(sys.log, at);
    Dispatches(size, sha, sys, id, at, ch) && GetRoundInfo(t, t.round - 1).value.phase.Failed?
  }

  /** The client holds a reveal snapshot of its round exactly if it has sent its reveal key there. */
  lemma SnapshotMeansRevealed(sys: System, id: Uuid, r: int)
    requires NothingLost(sys) && Remembering(sys) && id in sys.clients && 0 <= r
    requires sys.clients[id].cursor <= |sys.log| && StateAt(sys.log, sys.clients[id].cursor).round <= r
    ensures sys.clients[id].local.revealKeyHashesRound == r <==> NoDeadlock.Sent(sys.issued, id, r, Reveals)
  {
    ClientSnapshots(sys, id);
    assert GuardsKept(sys.issued, id, sys.clients[id].local);
    hide StateAt, SnapshotsOk, ClientRemembers;
    if NoDeadlock.Sent(sys.issued, id, r, Reveals) {
      var e :| e in sys.issued && ActsBy(e.op, id, Reveals) && e.op.r == r;
      assert Covered(sys.clients, e.op);
    }
  }

  /** The report of the round before t is a failure without messages, with a warning if the reveal key was sent. */
  ghost predicate FailsWithWarning(sha: Sha256, sys: System, t: State, id: Uuid)
    requires Valid(t) && id in sys.clients
  {
    var r := t.round - 1;
    && TookPart(t, r, id)
    && var v := Verdict(sha, id, GetRoundInfo(t, r).value, r + 1, MemoryOf(sys.clients[id].local));
       && v.Sent? && v.result.round == r && !v.result.succeeded && v.result.messages == []
       && v.result.malice == if NoDeadlock.Sent(sys.issued, id, r, Reveals) then FailedAfterReveal else NoMalice
  }

  /**
   * In every run: when a participant dispatches a Failed round, the report is a failure without messages, and it warns
   * the user exactly if the client has ever sent its reveal key for that round.
   */
  lemma FailedReports(size: nat, sha: Sha256, run: seq<System>, id: Uuid, at: nat, ch: Choices)
    requires run != [] && IsRun(size, sha, run) && Enabled(size, run[|run| - 1], Update(id, at, ch))
    requires DispatchesFailed(size, sha, run[|run| - 1], id, at, ch)
    ensures FailsWithWarning(sha, run[|run| - 1], StateAt(run[|run| - 1].log, at), id)
  {
    hide *;
    var sys := run[|run| - 1];
    FailedFacts(size, sha, sys, id, at, ch);
    RunRemembering(size, sha, run);
    RunLosesNothing(size, sha, run);
    DispatchCursor(size, sha, sys, id, at, ch);
    ClientSnapshots(sys, id);
    FailedWith(sha, sys, StateAt(sys.log, at), id);
  }

  lemma FailedWith(sha: Sha256, sys: System, t: State, id: Uuid)
    requires NothingLost(sys) && Remembering(sys) && id in sys.clients && Valid(t) && 0 <= t.round - 1
    requires sys.clients[id].cursor <= |sys.log| && StateAt(sys.log, sys.clients[id].cursor).round <= t.round - 1
    requires TookPart(t, t.round - 1, id) && GetRoundInfo(t, t.round - 1).value.phase.Failed?
    ensures FailsWithWarning(sha, sys, t, id)
  {
    hide NothingLost, Remembering, StateAt, RepInvariant, Verdict, NoDeadlock.Sent;
    SnapshotMeansRevealed(sys, id, t.round - 1);
    FailedVerdict(sha, id, GetRoundInfo(t, t.round - 1).value, t.round - 1, sys.clients[id].local);
  }

  lemma FailedFacts(size: nat, sha: Sha256, sys: System, id: Uuid, at: nat, ch: Choices)
    requires Enabled(size, sys, Update(id, at, ch)) && DispatchesFailed(size, sha, sys, id, at, ch)
    ensures Dispatches(size, sha, sys, id, at, ch) && id in sys.clients && at <= |sys.log|
    ensures var t := StateAt(sys.log, at);
            0 <= t.round - 1 && TookPart(t, t.round - 1, id) && GetRoundInfo(t, t.round - 1).value.phase.Failed?
  {
    hide StateAt, Observe, Admissible, RepInvariant;
  }

  lemma FailedVerdict(sha: Sha256, id: Uuid, ri: RoundInfo, r: int, l: Local)
    requires ri.phase.Failed? && id in ri.participants
    ensures Verdict(sha, id, ri, r + 1, MemoryOf(l))
         == Report.Sent(RoundResult(r, false, [], if l.revealKeyHashesRound == r then FailedAfterReveal else NoMalice))
  {
    hide DoneVerdict;
  }

  // ----- clients that did not take part

  predicate SentUpTo(sys: System) {
    forall id :: id in sys.clients ==> sys.clients[id].local.lastResChSend >= -1
  }

  lemma UpdateSentUpTo(size: nat, sha: Sha256, sys: System, id: Uuid, at: nat, ch: Choices)
    requires SentUpTo(sys) && Enabled(size, sys, Update(id, at, ch))
    ensures SentUpTo(Do(size, sha, sys, Update(id, at, ch)))
  {
    hide Observe, StateAt, Valid, Enabled, Do;
    UpdateShape(size, sha, sys, id, at, ch);
    ObserveSends(size, sha, id, sys.clients[id].local, StateAt(sys.log, at), ch);
  }

  lemma StepSentUpTo(size: nat, sha: Sha256, sys: System, step: Step)
    requires SentUpTo(sys) && Enabled(size, sys, step)
    ensures SentUpTo(Do(size, sha, sys, step))
  {
    if step.Update? {
      UpdateSentUpTo(size, sha, sys, step.id, step.at, step.choices);
    } else {
      hide StateAt, Observe, Valid;
    }
  }

  lemma {:induction false} RunSentUpTo(size: nat, sha: Sha256, run: seq<System>)
    requires IsRun(size, sha, run)
    ensures SentUpTo(run[|run| - 1])
    decreases |run|
  {
    if |run| > 1 {
      hide *;
      var step := LastStep(size, sha, run);
      RunSentUpTo(size, sha, run[..|run| - 1]);
      StepSentUpTo(size, sha, run[|run| - 2], step);
    }
  }

  /** In t the round before is stored, and with any memory the client reports nothing exactly if it never joined it. */
  ghost predicate ToldIfJoined(sha: Sha256, log: seq<Op>, at: nat, t: State, id: Uuid)
    requires Valid(t)
  {
    var ri := GetRoundInfo(t, t.round - 1);
    && ri.Some?
    && forall mem: Memory :: Told(sha, id, ri.value, t.round, mem) <==> JoinedBefore(log, at, t.round - 1, id)
  }

  /** The user hears something, if only the panic of the client. */
  predicate Told(sha: Sha256, id: Uuid, ri: RoundInfo, round: int, mem: Memory) {
    Verdict(sha, id, ri, round, mem) != NotSent
  }

  /**
   * In every run: whenever a client dispatches the result of a round, the user hears of it exactly if a JoinOp of the
   * client took effect in that round.
   */
  lemma RunToldIfJoined(size: nat, sha: Sha256, run: seq<System>, id: Uuid, at: nat, ch: Choices)
    requires run != [] && IsRun(size, sha, run) && Enabled(size, run[|run| - 1], Update(id, at, ch))
    requires var sys := run[|run| - 1];
             Observe(size, sha, id, sys.clients[id].local, StateAt(sys.log, at), ch).sendsResult
    ensures ToldIfJoined(sha, run[|run| - 1].log, at, StateAt(run[|run| - 1].log, at), id)
  {
    var sys := run[|run| - 1];
    RunSentUpTo(size, sha, run);
    ObserveSends(size, sha, id, sys.clients[id].local, StateAt(sys.log, at), ch);
    assert 0 < StateAt(sys.log, at).round;
    hide *;
    PreviousTold(sha, sys.log, at, id);
  }

  lemma PreviousTold(sha: Sha256, log: seq<Op>, at: nat, id: Uuid)
    requires at <= |log| && 0 < StateAt(log, at).round
    ensures ToldIfJoined(sha, log, at, StateAt(log, at), id)
  {
    hide StateAt, RepInvariant, Verdict, JoinedBefore;
    var t := StateAt(log, at);
    StoredParticipants(log, at, t.round - 1, id);
    var ri := GetRoundInfo(t, t.round - 1).value;
    forall mem: Memory ensures Told(sha, id, ri, t.round, mem) <==> JoinedBefore(log, at, t.round - 1, id) {
      ToldExactly(sha, id, ri, t.round, mem);
    }
  }
}
