/** Every started round with a good crypto can be brought to its end. */
module Completion {
  import opened NumberTheory
  import opened Bytes
  import opened MasseyOmura
  import opened Crypto
  import opened Ops
  import opened Rounds
  import opened Runs
  import opened Layers
  import opened ClientSteps
  import opened Protocol
  import opened Progress
  import opened NoDeadlock

  // ----- choices that can always be made

  function SomeChoices(l: Local, ri: RoundInfo): Choices {
    var zeros := seq<byte>(8, i => 0);
    var shuffled := if ri.crypto.None? then []
                    else EncryptTwice(ri.crypto.value, l.keys.scrambleKey, l.keys.revealKey, ri.messages);
    Choices(true, false, Keys(TrivialKey, TrivialKey, TrivialKey), zeros, zeros, [], shuffled)
  }

  lemma LargeModulus(size: nat, c: Crypto)
    requires c.Verify(size + HeaderLength)
    ensures c.P() >= 3
  {
    assert BitLen(c.P()) > 2;
    hide Prime;
  }

  lemma TrivialKeyGenerated(size: nat, c: Crypto)
    requires c.Verify(size + HeaderLength)
    ensures c.Generates(TrivialKey)
  {
    LargeModulus(size, c);
    hide VerifySysKey;
    var p := c.P();
    assert ToNat([1]) == 1;
    SmallMod(1, p - 1);
  }

  lemma SomeChoicesAdmissible(size: nat, l: Local, s: State)
    requires Valid(s)
    ensures Admissible(size, l, s, SomeChoices(l, Current(s)))
  {
    var ri := Current(s);
    if ri.crypto.Some? && ri.crypto.value.Verify(size + HeaderLength) {
      TrivialKeyGenerated(size, ri.crypto.value);
    }
    hide VerifySysKey, EncryptTwice, RepInvariant;
  }

  // ----- one more operation

  lemma ExtendRun(size: nat, sha: Sha256, run: seq<System>, step: Step) returns (longer: seq<System>)
    requires IsRun(size, sha, run) && Enabled(size, run[|run| - 1], step)
    ensures longer != [] && IsRun(size, sha, longer) && run <= longer
    ensures longer[|longer| - 1] == Do(size, sha, run[|run| - 1], step)
  {
    longer := run + [Do(size, sha, run[|run| - 1], step)];
    hide Enabled, Do;
    forall i | 0 < i < |longer| ensures Next(size, sha, longer[i - 1], longer[i]) {
      if i < |run| {
        assert Next(size, sha, run[i - 1], run[i]);
      }
    }
  }

  function LastState(run: seq<System>): (s: State)
    requires run != []
    ensures Valid(s)
  {
    StateAt(run[|run| - 1].log, |run[|run| - 1].log|)
  }

  /** The round is started, and while it waits for messages its crypto is one that the clients accept. */
  predicate UnderWay(size: nat, s: State)
    requires Valid(s)
  {
    var ri := Current(s);
    Started(ri) && (ri.phase.Submit? ==> ri.crypto.Some? && ri.crypto.value.Verify(size + HeaderLength))
  }

  lemma UpdateIssues(size: nat, sha: Sha256, sys: System, id: Uuid, at: nat, ch: Choices)
    requires Enabled(size, sys, Update(id, at, ch))
    requires Observe(size, sha, id, sys.clients[id].local, StateAt(sys.log, at), ch).op.Some?
    ensures var op := Observe(size, sha, id, sys.clients[id].local, StateAt(sys.log, at), ch).op.value;
            var next := Do(size, sha, sys, Update(id, at, ch));
            next.log == sys.log && Issued(op, at) in next.issued
  {
    hide Observe, StateAt, Valid, Admissible, NextHistory;
  }

  /** A client can act at the end of the log, with choices that can always be made. */
  lemma NotStuckNow(size: nat, sha: Sha256, run: seq<System>) returns (id: Uuid, ch: Choices)
    requires IsRun(size, sha, run) && UnderWay(size, LastState(run))
    ensures var sys := run[|run| - 1]; Enabled(size, sys, Update(id, |sys.log|, ch))
    ensures var sys, s := run[|run| - 1], LastState(run);
            (exists e :: e in sys.issued && Advances(s, e.op)) || Sends(size, sha, sys, id, ch)
  {
    var sys, s := run[|run| - 1], LastState(run);
    RunNeverEmpty(size, sha, run);
    assert NotEmpty(StateAt(sys.log, |sys.log|));
    id := Current(s).participants[Mover(Current(s))];
    RunLosesNothing(size, sha, run);
    hide IsRun, NeverEmpty, NotEmpty, StateAt, Mover, Observe, Valid, Advances, NothingLost, VerifySysKey;
    ParticipantIsClient(sys, id);
    ch := SomeChoices(sys.clients[id].local, Current(s));
    SomeChoicesAdmissible(size, sys.clients[id].local, s);
    NeverStuck(size, sha, run, ch);
  }

  /** On the update at the end of the log the client sends an operation that takes work off. */
  predicate Sends(size: nat, sha: Sha256, sys: System, id: Uuid, ch: Choices)
    requires Enabled(size, sys, Update(id, |sys.log|, ch))
  {
    var s := StateAt(sys.log, |sys.log|);
    var op := Observe(size, sha, id, sys.clients[id].local, s, ch).op;
    op.Some? && Advances(s, op.value)
  }

  lemma SendNow(size: nat, sha: Sha256, run: seq<System>, id: Uuid, ch: Choices)
    returns (longer: seq<System>, e: Issued)
    requires run != [] && IsRun(size, sha, run)
    requires var sys := run[|run| - 1]; Enabled(size, sys, Update(id, |sys.log|, ch)) && Sends(size, sha, sys, id, ch)
    ensures longer != [] && IsRun(size, sha, longer) && run <= longer
    ensures longer[|longer| - 1].log == run[|run| - 1].log
    ensures e in longer[|longer| - 1].issued && Advances(LastState(run), e.op)
  {
    var sys := run[|run| - 1];
    assert id in sys.clients;
    hide IsRun, StateAt, Observe, Valid, Advances, Enabled, Do;
    UpdateIssues(size, sha, sys, id, |sys.log|, ch);
    longer := ExtendRun(size, sha, run, Update(id, |sys.log|, ch));
    e := Issued(Observe(size, sha, id, sys.clients[id].local, StateAt(sys.log, |sys.log|), ch).op.value, |sys.log|);
  }

  /** Some operation that takes work off has been sent, if need be after one more update. */
  lemma OpAvailable(size: nat, sha: Sha256, run: seq<System>) returns (longer: seq<System>, e: Issued)
    requires run != [] && IsRun(size, sha, run) && UnderWay(size, LastState(run))
    ensures longer != [] && IsRun(size, sha, longer) && run <= longer
    ensures longer[|longer| - 1].log == run[|run| - 1].log
    ensures e in longer[|longer| - 1].issued && Advances(LastState(run), e.op)
  {
    hide *;
    var id, ch := NotStuckNow(size, sha, run);
    if e' :| e' in run[|run| - 1].issued && Advances(LastState(run), e'.op) {
      longer, e := run, e';
    } else {
      longer, e := SendNow(size, sha, run, id, ch);
    }
  }

  /** What committing an operation that takes work off leads to. */
  lemma CommitAdvances(size: nat, sha: Sha256, run: seq<System>, e: Issued)
    requires IsRun(size, sha, run) && UnderWay(size, LastState(run)) && e in run[|run| - 1].issued
    requires Advances(LastState(run), e.op)
    ensures Valid(Apply(LastState(run), e.op).state)
    ensures var s, t := LastState(run), Apply(LastState(run), e.op).state;
            if t.round == s.round then
              && UnderWay(size, t) && Outstanding(Current(t)) < Outstanding(Current(s))
              && SameParty(Current(s), Current(t))
            else EndsWell(s, t)
  {
    var sys, s := run[|run| - 1], LastState(run);
    RunNeverEmpty(size, sha, run);
    assert NotEmpty(StateAt(sys.log, |sys.log|));
    ApplyKeepsValid(s, e.op);
    CommitOutstanding(size, sha, run, e);
    hide IsRun, NeverEmpty, StateAt, Apply, Handle, RepInvariant, VerifySysKey, Outstanding;
    AcceptedShape(size, s, e.op);
  }

  /** The same participants under the same crypto. */
  predicate SameParty(a: RoundInfo, b: RoundInfo) {
    a.participants == b.participants && a.crypto == b.crypto
  }

  /** In t the round of s has just ended as Done, with the participants and the crypto that it had in s. */
  predicate EndsWell(s: State, t: State)
    requires Valid(s) && Valid(t)
  {
    && t.round == s.round + 1 && GetRoundInfo(t, s.round).Some?
    && GetRoundInfo(t, s.round).value.phase.Done? && SameParty(Current(s), GetRoundInfo(t, s.round).value)
  }

  lemma CommitState(size: nat, sha: Sha256, sys: System, e: Issued)
    requires e in sys.issued
    ensures Enabled(size, sys, Commit(e))
    ensures var next := Do(size, sha, sys, Commit(e));
            StateAt(next.log, |next.log|) == Apply(StateAt(sys.log, |sys.log|), e.op).state
  {
    StateAtSnoc(sys.log, e.op);
    hide StateAt, Apply;
  }

  lemma AcceptedShape(size: nat, s: State, op: Op)
    requires Valid(s) && UnderWay(size, s) && Advances(s, op) && Valid(Apply(s, op).state)
    ensures var t, o := Apply(s, op).state, Handle(Current(s), op);
            && SameParty(Current(s), o.ri)
            && if o.over then EndsWell(s, t)
               else t.round == s.round && Current(t) == o.ri && UnderWay(size, t)
  {
    var ri := Current(s);
    HandleEvolves(ri, op);
    HandleEvolvesPhase(ri, op);
    ApplyShape(s, op);
    hide Handle, RepInvariant, Apply, VerifySysKey, FlagsGrow, SameVersion;
    assert s.round % 3 != (s.round + 1) % 3;
  }

  /**
   * Every run that ends in a started round, with a crypto that verifies if it still waits for messages, can go on so
   * that the round is Done, with the same participants.
   */
  lemma {:induction false} RunFinishes(size: nat, sha: Sha256, run: seq<System>) returns (longer: seq<System>)
    requires IsRun(size, sha, run) && UnderWay(size, LastState(run))
    ensures IsRun(size, sha, longer) && run <= longer
    ensures var r, t := LastState(run).round, LastState(longer);
            t.round == r + 1 && EndsWell(LastState(run), t)
    decreases Outstanding(Current(LastState(run)))
  {
    assert run != [];
    hide IsRun, UnderWay, Advances, Apply, Outstanding, StateAt, Do, Enabled, RepInvariant;
    var ready, e := OpAvailable(size, sha, run);
    CommitAdvances(size, sha, ready, e);
    CommitState(size, sha, ready[|ready| - 1], e);
    var committed := ExtendRun(size, sha, ready, Commit(e));
    if LastState(committed).round == LastState(run).round {
      longer := RunFinishes(size, sha, committed);
    } else {
      longer := committed;
    }
  }
}
