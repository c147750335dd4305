/** What an OK from SubmitOp means: anonbcast/server.go and anonbcast/respchannels.go. */
module Servers {
  import opened Bytes
  import opened Ops
  import opened Rounds
  import opened Runs
  import opened Crypto
  import opened Protocol
  import opened NoDeadlock

  // ----- pending waiters

  /** A channel is told apart by its number. */
  type Chan = nat

  type Waiters = map<int, map<int, Chan>>

  /** The channel that waits for a term and an index. */
  function Lookup(m: Waiters, i: int, j: int): Option<Chan> {
    if i in m && j in m[i] then Some(m[i][j]) else None
  }

  method Pick<T>(s: set<T>) returns (x: T)
    requires s != {}
    ensures x in s
  {
    x :| x in s;
  }

  lemma SomeKey<K, V>(m: map<K, V>, v: V) returns (k: K)
    requires v in m.Values
    ensures k in m && m[k] == v
  {
    k :| k in m && m[k] == v;
  }

  class RespChannels {
    var m: Waiters
    /** How many channels have been made, and which of them were closed. */
    var made: nat
    var closed: set<Chan>

    ghost predicate Valid()
      reads this
    {
      && (forall i, j :: Lookup(m, i, j).Some? ==> Lookup(m, i, j).value < made && Lookup(m, i, j).value !in closed)
      && (forall c :: c in closed ==> c < made)
    }

    constructor ()
      ensures Valid() && made == 0 && closed == {}
      ensures forall i, j :: Lookup(m, i, j) == None
    {
      m, made, closed := map[], 0, {};
    }

    method Get(i: int, j: int) returns (ch: Option<Chan>)
      ensures ch == Lookup(m, i, j)
    {
      if i !in m {
        return None;
      }
      ch := if j in m[i] then Some(m[i][j]) else None;
    }

    method Create(i: int, j: int) returns (ch: Chan)
      requires Lookup(m, i, j) == None
      modifies this`m, this`made
      ensures ch == old(made) && made == old(made) + 1
      ensures forall a, b :: Lookup(m, a, b) == if a == i && b == j then Some(ch) else old(Lookup(m, a, b))
    {
      ch := made;
      made := made + 1;
      var inner := if i in m then m[i] else map[];
      m := m[i := inner[j := ch]];
    }

    method Close(i: int, j: int)
      requires Lookup(m, i, j).Some?
      modifies this`m, this`closed
      ensures closed == old(closed) + {old(Lookup(m, i, j).value)}
      ensures forall a, b :: Lookup(m, a, b) == if a == i && b == j then None else old(Lookup(m, a, b))
    {
      closed := closed + {m[i][j]};
      var inner := m[i] - {j};
      if |inner| == 0 {
        m := m - {i};
      } else {
        m := m[i := inner];
      }
    }

    /** All waiters are told, and none is left. */
    method Clear()
      modifies this`m, this`closed
      ensures forall i, j :: Lookup(m, i, j) == None
      ensures old(closed) <= closed
      ensures forall i, j :: old(Lookup(m, i, j)).Some? ==> old(Lookup(m, i, j)).value in closed
      ensures forall c :: c in closed && c !in old(closed) ==> exists i, j :: old(Lookup(m, i, j)) == Some(c)
    {
      var terms := m.Keys;
      while terms != {}
        invariant terms <= m.Keys && old(closed) <= closed && m == old(m)
        invariant forall i, j :: i !in terms && Lookup(m, i, j).Some? ==> Lookup(m, i, j).value in closed
        invariant forall c :: c in closed && c !in old(closed) ==> exists i, j :: Lookup(m, i, j) == Some(c)
        decreases terms
      {
        var i := Pick(terms);
        forall c | c in m[i].Values ensures exists a, b :: Lookup(m, a, b) == Some(c) {
          var j := SomeKey(m[i], c);
          assert Lookup(m, i, j) == Some(c);
        }
        closed := closed + m[i].Values;
        terms := terms - {i};
      }
      m := map[];
    }
  }

  // ----- the server

  /** What SubmitOp answers at once; a pending request is answered through its channel. */
  datatype Reply = OK | ErrWrongLeader | Pending(ch: Chan)

  /** An OK, with the log position at which the operation was applied; none when it was guaranteed to have no effect. */
  datatype Answer = Answer(op: Op, at: Option<nat>)

  /** What the OK stands for. */
  ghost predicate Settled(applied: seq<Op>, a: Answer) {
    match a.at
    case Some(k) => k < |applied| && applied[k] == a.op
    case None => NoEffectForever(FromStart(applied), a.op)
  }

  lemma FromStartSnoc(applied: seq<Op>, op: Op)
    ensures FromStart(applied + [op]) == Apply(FromStart(applied), op).state
  {
    FreshRoundRep();
    RunSnoc(InitialState, applied, op);
  }

  lemma NoEffectStable(s: State, op: Op, ops: seq<Op>)
    requires Valid(s) && NoEffectForever(s, op)
    ensures NoEffectForever(Run(s, ops), op)
  {
    hide Valid, Apply;
    forall more: seq<Op> ensures Apply(Run(Run(s, ops), more), op) == Applied(Run(Run(s, ops), more), false) {
      RunConcat(s, ops, more);
      assert Apply(Run(s, ops + more), op) == Applied(Run(s, ops + more), false);
    }
  }

  lemma SettledStable(applied: seq<Op>, a: Answer, more: seq<Op>)
    requires Settled(applied, a)
    ensures Settled(applied + more, a)
  {
    if a.at.None? {
      FreshRoundRep();
      RunConcat(InitialState, applied, more);
      NoEffectStable(FromStart(applied), a.op, more);
    }
  }

  class Server {
    var sm: State
    const resps: RespChannels
    /** The commands applied so far, what Raft accepted at which term and index, and which requests were answered OK. */
    ghost var applied: seq<Op>
    ghost var started: map<(int, int), Op>
    ghost var answered: seq<Answer>

    ghost predicate Valid()
      reads this, resps
    {
      && sm == FromStart(applied)
      && resps.Valid()
      && (forall i, j :: Lookup(resps.m, i, j).Some? ==> (i, j) in started)
      && (forall k :: 0 <= k < |answered| ==> Settled(applied, answered[k]))
    }

    constructor ()
      ensures Valid() && applied == [] && answered == [] && fresh(resps)
    {
      sm := InitialState;
      resps := new RespChannels();
      applied, started, answered := [], map[], [];
      new;
      FreshRoundRep();
    }

    /**
     * SubmitOp up to where it waits. The answer is Raft's: None when this server does not lead, otherwise the term
     * and index at which the command will appear, which Raft gives out once.
     */
    method SubmitOp(op: Op, answer: Option<(int, int)>) returns (reply: Reply)
      requires Valid()
      requires answer.Some? ==> answer.value !in started
      modifies this`started, this`answered, resps
      ensures Valid()
      ensures reply == OK <==> GuaranteedNoEffect(sm, op)
      ensures answered == if reply == OK then old(answered) + [Answer(op, None)] else old(answered)
      ensures reply == ErrWrongLeader <==> !GuaranteedNoEffect(sm, op) && answer.None?
      ensures reply.Pending? ==> Lookup(resps.m, answer.value.0, answer.value.1) == Some(reply.ch)
                                 && started == old(started)[answer.value := op]
      ensures !reply.Pending? ==> started == old(started) && resps.m == old(resps.m)
    {
      if GuaranteedNoEffect(sm, op) {
        GuaranteedNoEffectSound(sm, op);
        answered := answered + [Answer(op, None)];
        return OK;
      }
      if answer.None? {
        return ErrWrongLeader;
      }
      var (term, index) := answer.value;
      assert (term, index) == answer.value;
      var ch := resps.Create(term, index);
      started := started[(term, index) := op];
      reply := Pending(ch);
    }

    /** The applier on a command: whoever waits for this term and index is told yes, which it passes on as OK. */
    method ApplyCommand(op: Op, term: int, index: int) returns (updated: bool, woken: Option<Chan>)
      requires Valid()
      requires (term, index) in started ==> started[(term, index)] == op
      modifies this`sm, this`applied, this`answered
      ensures Valid()
      ensures applied == old(applied) + [op]
      ensures Applied(sm, updated) == Apply(old(sm), op)
      ensures woken == Lookup(resps.m, term, index)
      ensures answered
           == if woken.Some? then old(answered) + [Answer(started[(term, index)], Some(|old(applied)|))]
              else old(answered)
    {
      var a := Apply(sm, op);
      FromStartSnoc(applied, op);
      forall k | 0 <= k < |answered| ensures Settled(applied + [op], answered[k]) {
        SettledStable(applied, answered[k], [op]);
      }
      hide Apply, Rounds.Valid;
      sm, updated := a.state, a.updated;
      applied := applied + [op];
      woken := resps.Get(term, index);
      if woken.Some? {
        answered := answered + [Answer(op, Some(|applied| - 1))];
      }
    }

    /** The applier when leadership is lost: every waiter is told no, which it passes on as ErrWrongLeader. */
    method LoseLeadership()
      requires Valid()
      modifies resps
      ensures Valid() && forall i, j :: Lookup(resps.m, i, j) == None
      ensures forall i, j :: old(Lookup(resps.m, i, j)).Some? ==> old(Lookup(resps.m, i, j)).value in resps.closed
    {
      resps.Clear();
    }
  }

  /**
   * An OK needs no retry: an honest operation that was computed from the first i commands of the log, and applied after
   * them if at all, took effect where it was applied, or can never have one.
   */
  lemma OkNeedsNoRetry(applied: seq<Op>, a: Answer, i: nat)
    requires Settled(applied, a)
    requires a.at.Some? ==> i <= a.at.value && ComputedFrom(FromStart(applied[..i]), a.op)
    ensures || (a.at.Some? && Apply(FromStart(applied[..a.at.value]), a.op).updated)
            || NoEffectForever(FromStart(applied), a.op)
  {
    if a.at.Some? {
      var k := a.at.value;
      RunSplit(applied, i, k);
      NoTemporaryNoOp(FromStart(applied[..i]), a.op, applied[i..k]);
      if !Apply(FromStart(applied[..k]), a.op).updated {
        RunSplit(applied, k, |applied|);
        NoEffectStable(FromStart(applied[..k]), a.op, applied[k..|applied|]);
        assert applied[..|applied|] == applied;
      }
    }
  }

  lemma RunSplit(ops: seq<Op>, i: nat, j: nat)
    requires i <= j <= |ops|
    ensures FromStart(ops[..j]) == Run(FromStart(ops[..i]), ops[i..j])
  {
    FreshRoundRep();
    assert ops[..j] == ops[..i] + ops[i..j];
    RunConcat(InitialState, ops[..i], ops[i..j]);
  }

  /** In every run, and for a server that has applied any part of the log: an OK needs no retry. */
  lemma RunOkNeedsNoRetry(size: nat, sha: Sha256, run: seq<System>, n: nat, a: Answer)
    requires IsRun(size, sha, run) && n <= |run[|run| - 1].log| && Settled(run[|run| - 1].log[..n], a)
    ensures var log := run[|run| - 1].log;
            || (a.at.Some? && a.at.value < n && Apply(StateAt(log, a.at.value), a.op).updated)
            || NoEffectForever(StateAt(log, n), a.op)
  {
    var log := run[|run| - 1].log;
    hide IsRun, ComputedFrom, Apply, Rounds.Valid, FromStart;
    var i := 0;
    if a.at.Some? {
      i := ComputedBefore(size, sha, run, a.at.value);
      PrefixState(log, n, i);
      PrefixState(log, n, a.at.value);
    }
    OkNeedsNoRetry(log[..n], a, i);
  }

  /** Every operation in the log of a run was computed from a state before it. */
  lemma ComputedBefore(size: nat, sha: Sha256, run: seq<System>, k: nat) returns (i: nat)
    requires IsRun(size, sha, run) && k < |run[|run| - 1].log|
    ensures i <= k && ComputedFrom(StateAt(run[|run| - 1].log, i), run[|run| - 1].log[k])
  {
    RunKeepsInv(size, sha, run);
    RunLosesNothing(size, sha, run);
    var sys := run[|run| - 1];
    assert SentBefore(sys.issued, sys.log[k], k);
    var e :| e in sys.issued && e.op == sys.log[k] && e.origin <= k;
    hide IsRun, Inv, NothingLost, ComputedFrom, StateAt, Rounds.Valid;
    InvEntry(size, sha, sys, e);
    i := e.origin;
  }

  lemma PrefixState(log: seq<Op>, n: nat, i: nat)
    requires i <= n <= |log|
    ensures FromStart(log[..n][..i]) == StateAt(log, i)
  {
    assert log[..n][..i] == log[..i];
  }
}
