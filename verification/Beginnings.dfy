/** From a round that nobody has started yet to its end: joining, starting, finishing. */
module Beginnings {
  import opened Bytes
  import opened Crypto
  import opened Ops
  import opened Rounds
  import opened ClientSteps
  import opened Honest
  import opened Protocol
  import opened Origins
  import opened Turns
  import opened NoDeadlock
  import opened Completion

  /** The round is in Prepare. */
  predicate Waiting(s: State)
    requires Valid(s)
  {
    Current(s).phase.Prepare?
  }

  predicate TakesPart(s: State, id: Uuid)
    requires Valid(s)
  {
    id in Current(s).participants
  }

  /** A JoinOp for the round that is still in Prepare makes the client a participant, whoever sent it and when. */
  lemma JoinCommitted(s: State, id: Uuid)
    requires Valid(s) && Waiting(s)
    ensures var t := Apply(s, JoinOp(id, s.round)).state;
            Valid(t) && t.round == s.round && Waiting(t) && TakesPart(t, id)
  {
    ApplyKeepsValid(s, JoinOp(id, s.round));
    JoinEffect(s, JoinOp(id, s.round));
    hide RepInvariant;
  }

  lemma StartCommitted(s: State, id: Uuid, crypto: Option<Crypto>)
    requires Valid(s) && Waiting(s)
    ensures var t := Apply(s, StartOp(id, s.round, crypto)).state;
            && Valid(t) && t.round == s.round
            && Current(t) == Current(s).(phase := Submit, crypto := crypto)
  {
    ApplyKeepsValid(s, StartOp(id, s.round, crypto));
    StartEffect(s, StartOp(id, s.round, crypto));
    hide RepInvariant;
  }

  /**
   * In every run: on a Prepare update an active client that is not leaving and not in the round issues its JoinOp, and
   * whenever that is committed with the round still in Prepare, the client takes part.
   */
  lemma RunJoins(size: nat, sha: Sha256, run: seq<System>, id: Uuid, at: nat, ch: Choices)
    requires IsRun(size, sha, run) && Enabled(size, run[|run| - 1], Update(id, at, ch))
    requires Waiting(StateAt(run[|run| - 1].log, at))
    ensures var sys := run[|run| - 1];
            var s, next := StateAt(sys.log, at), Do(size, sha, sys, Update(id, at, ch));
            && (ch.active && !ch.leaving && !TakesPart(s, id) ==> Issued(JoinOp(id, s.round), at) in next.issued)
            && (!ch.active || ch.leaving || TakesPart(s, id) ==> next.issued == sys.issued)
            && forall t: State :: Valid(t) && t.round == s.round && Waiting(t) ==>
                 Valid(Apply(t, JoinOp(id, s.round)).state) && TakesPart(Apply(t, JoinOp(id, s.round)).state, id)
  {
    var sys := run[|run| - 1];
    var s := StateAt(sys.log, at);
    JoinsExactly(size, sha, id, sys.clients[id].local, s, ch);
    hide IsRun, Observe, StateAt, RepInvariant, Admissible, NextHistory, Apply;
    forall t: State | Valid(t) && t.round == s.round && Waiting(t)
      ensures Valid(Apply(t, JoinOp(id, s.round)).state) && TakesPart(Apply(t, JoinOp(id, s.round)).state, id)
    {
      JoinCommitted(t, id);
    }
  }

  lemma CryptoThere(sha: Sha256, h: History, s: State)
    requires Valid(s) && RoundGood(sha, h, Current(s), s.round)
    ensures Current(s).phase.Prepare? || Current(s).crypto.Some?
  {
  }

  /** In every run, at every update: the client sends an operation exactly when one is due. */
  lemma RunSendsExactly(size: nat, sha: Sha256, run: seq<System>, id: Uuid, at: nat, ch: Choices)
    requires IsRun(size, sha, run) && Enabled(size, run[|run| - 1], Update(id, at, ch))
    ensures var sys := run[|run| - 1];
            var s, l := StateAt(sys.log, at), sys.clients[id].local;
            SendsWhenDue(size, id, l, s, ch, Observe(size, sha, id, l, s, ch).op)
  {
    RunKeepsInv(size, sha, run);
    var sys := run[|run| - 1];
    assert StateGood(sha, sys.history, StateAt(sys.log, at));
    hide IsRun, Inv, StateAt, RoundGood, Observe, RepInvariant, SendsWhenDue;
    CurrentGood(sha, sys.history, StateAt(sys.log, at));
    CryptoThere(sha, sys.history, StateAt(sys.log, at));
    SendsExactly(size, sha, id, sys.clients[id].local, StateAt(sys.log, at), ch);
  }

  /** One more operation in the log, which was issued before or is issued now. */
  lemma CommitNow(size: nat, sha: Sha256, run: seq<System>, e: Issued) returns (longer: seq<System>)
    requires run != [] && IsRun(size, sha, run) && e in run[|run| - 1].issued
    ensures longer != [] && IsRun(size, sha, longer) && run <= longer
    ensures LastState(longer) == Apply(LastState(run), e.op).state
    ensures longer[|longer| - 1].clients == run[|run| - 1].clients
  {
    hide IsRun, StateAt, Apply, Valid;
    CommitState(size, sha, run[|run| - 1], e);
    longer := ExtendRun(size, sha, run, Commit(e));
  }

  lemma IssueJoin(size: nat, sha: Sha256, run: seq<System>, id: Uuid) returns (longer: seq<System>, e: Issued)
    requires run != [] && IsRun(size, sha, run) && id in run[|run| - 1].clients
    requires Waiting(LastState(run)) && !TakesPart(LastState(run), id)
    ensures longer != [] && IsRun(size, sha, longer) && run <= longer
    ensures longer[|longer| - 1].log == run[|run| - 1].log && id in longer[|longer| - 1].clients
    ensures e in longer[|longer| - 1].issued && e.op == JoinOp(id, LastState(run).round)
  {
    var sys, s := run[|run| - 1], LastState(run);
    RunKeepsInv(size, sha, run);
    var ch := SomeChoices(sys.clients[id].local, Current(s));
    assert ch.active && !ch.leaving && |ch.random| == 8 && |ch.fallbackRandom| == 8;
    hide IsRun, Inv, Observe, StateAt, RepInvariant, Admissible, SomeChoices;
    SomeChoicesAdmissible(size, sys.clients[id].local, s);
    LatestUpdateEnabled(size, sha, sys, id, ch);
    JoinsExactly(size, sha, id, sys.clients[id].local, s, ch);
    hide Enabled, Do;
    e := IssueUpdate(size, sha, run, id, ch);
    longer := ExtendRun(size, sha, run, Update(id, |sys.log|, ch));
  }

  lemma IssueUpdate(size: nat, sha: Sha256, run: seq<System>, id: Uuid, ch: Choices) returns (e: Issued)
    requires run != []
    requires var sys := run[|run| - 1];
             && Enabled(size, sys, Update(id, |sys.log|, ch))
             && Observe(size, sha, id, sys.clients[id].local, LastState(run), ch).op.Some?
    ensures var sys := run[|run| - 1];
            var next := Do(size, sha, sys, Update(id, |sys.log|, ch));
            && e.op == Observe(size, sha, id, sys.clients[id].local, LastState(run), ch).op.value
            && e in next.issued && next.log == sys.log && next.clients.Keys == sys.clients.Keys
  {
    var sys := run[|run| - 1];
    hide Observe, StateAt, Valid, Admissible, NextHistory;
    e := Issued(Observe(size, sha, id, sys.clients[id].local, LastState(run), ch).op.value, |sys.log|);
  }

  /** A client that is in the round, or can be brought into it by an update and a commit. */
  lemma JoinNow(size: nat, sha: Sha256, run: seq<System>, id: Uuid) returns (longer: seq<System>)
    requires run != [] && IsRun(size, sha, run) && id in run[|run| - 1].clients && Waiting(LastState(run))
    ensures longer != [] && IsRun(size, sha, longer) && run <= longer && id in longer[|longer| - 1].clients
    ensures LastState(longer).round == LastState(run).round
    ensures Waiting(LastState(longer)) && TakesPart(LastState(longer), id)
  {
    hide *;
    if TakesPart(LastState(run), id) {
      longer := run;
    } else {
      var ready, e := IssueJoin(size, sha, run, id);
      SameLog(run, ready);
      longer := CommitNow(size, sha, ready, e);
      JoinCommitted(LastState(run), id);
    }
  }

  lemma SameLog(a: seq<System>, b: seq<System>)
    requires a != [] && b != [] && a[|a| - 1].log == b[|b| - 1].log
    ensures LastState(a) == LastState(b)
  {
  }

  lemma IssueStart(size: nat, sha: Sha256, run: seq<System>, id: Uuid, c: Crypto)
    returns (longer: seq<System>, e: Issued)
    requires run != [] && IsRun(size, sha, run) && id in run[|run| - 1].clients && TakesPart(LastState(run), id)
    ensures longer != [] && IsRun(size, sha, longer) && run <= longer
    ensures longer[|longer| - 1].log == run[|run| - 1].log
    ensures e in longer[|longer| - 1].issued && e.op == StartOp(id, LastState(run).round, Some(c))
  {
    var sys := run[|run| - 1];
    hide IsRun, StateAt, RepInvariant;
    longer := ExtendRun(size, sha, run, StartRound(id, |sys.log|, c));
    e := Issued(StartOp(id, LastState(run).round, Some(c)), |sys.log|);
  }

  /** A participant starts the round with a crypto of its choice. */
  lemma StartNow(size: nat, sha: Sha256, run: seq<System>, id: Uuid, c: Crypto) returns (longer: seq<System>)
    requires run != [] && IsRun(size, sha, run) && id in run[|run| - 1].clients
    requires Waiting(LastState(run)) && TakesPart(LastState(run), id)
    ensures longer != [] && IsRun(size, sha, longer) && run <= longer
    ensures LastState(longer).round == LastState(run).round
    ensures Current(LastState(longer)) == Current(LastState(run)).(phase := Submit, crypto := Some(c))
  {
    hide *;
    var ready, e := IssueStart(size, sha, run, id, c);
    SameLog(run, ready);
    longer := CommitNow(size, sha, ready, e);
    StartCommitted(LastState(run), id, Some(c));
  }

  /**
   * Every run that ends in a round nobody has started, with any client and any crypto that verifies, can go on so that
   * this client takes part in the round and the round ends as Done under that crypto.
   */
  lemma RunFinishesFromPrepare(size: nat, sha: Sha256, run: seq<System>, id: Uuid, c: Crypto)
    returns (longer: seq<System>)
    requires run != [] && IsRun(size, sha, run) && id in run[|run| - 1].clients && Waiting(LastState(run))
    requires c.Verify(size + HeaderLength)
    ensures longer != [] && IsRun(size, sha, longer) && run <= longer
    ensures var r, t := LastState(run).round, LastState(longer);
            && t.round == r + 1 && GetRoundInfo(t, r).Some? && GetRoundInfo(t, r).value.phase.Done?
            && id in GetRoundInfo(t, r).value.participants && GetRoundInfo(t, r).value.crypto == Some(c)
  {
    hide *;
    var joined := JoinNow(size, sha, run, id);
    var started := StartNow(size, sha, joined, id, c);
    NowUnderWay(size, LastState(joined), LastState(started), id, c);
    longer := RunFinishes(size, sha, started);
    EndsWith(LastState(started), LastState(longer), id, c);
  }

  lemma NowUnderWay(size: nat, s: State, t: State, id: Uuid, c: Crypto)
    requires Valid(s) && Valid(t) && TakesPart(s, id) && c.Verify(size + HeaderLength)
    requires Current(t) == Current(s).(phase := Submit, crypto := Some(c))
    ensures UnderWay(size, t) && TakesPart(t, id) && Current(t).crypto == Some(c)
  {
    hide RepInvariant;
  }

  lemma EndsWith(s: State, t: State, id: Uuid, c: Crypto)
    requires Valid(s) && Valid(t) && EndsWell(s, t) && TakesPart(s, id) && Current(s).crypto == Some(c)
    ensures var ri := GetRoundInfo(t, s.round);
            ri.Some? && ri.value.phase.Done? && id in ri.value.participants && ri.value.crypto == Some(c)
  {
    hide RepInvariant;
  }
}
