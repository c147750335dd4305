/** The reorder buffer of localconfessions/confessions.go: results in any order in, results in round order out. */
module ResultOrderers {
  import opened RoundResults

  const Placeholder: RoundResult := RoundResult(-1, false, [], NoMalice)

  datatype Buffer = Buffer(results: seq<RoundResult>, applyIndex: nat)

  predicate InBounds(b: Buffer) {
    b.applyIndex <= |b.results|
  }

  function Grown(results: seq<RoundResult>, n: nat): (r: seq<RoundResult>)
    ensures |r| >= n && results <= r
    ensures forall i :: |results| <= i < |r| ==> r[i] == Placeholder
    decreases n - |results|
  {
    if n <= |results| then results else Grown(results + [Placeholder], n)
  }

  /** The first position from i on that holds no result. */
  function NextGap(results: seq<RoundResult>, i: nat): (k: nat)
    requires i <= |results|
    ensures i <= k <= |results|
    ensures forall j :: i <= j < k ==> results[j].round != -1
    ensures k < |results| ==> results[k].round == -1
    decreases |results| - i
  {
    if i < |results| && results[i].round != -1 then NextGap(results, i + 1) else i
  }

  /** One arrival: the new buffer and what is passed on. */
  function Accept(b: Buffer, r: RoundResult): (Buffer, seq<RoundResult>)
    requires InBounds(b) && r.round >= 0
  {
    var results := Grown(b.results, r.round + 1)[r.round := r];
    var k := NextGap(results, b.applyIndex);
    (Buffer(results, k), results[b.applyIndex..k])
  }

  class ResultOrderer {
    var results: seq<RoundResult>
    var applyIndex: nat

    constructor ()
      ensures Contents() == Buffer([], 0)
    {
      results, applyIndex := [], 0;
    }

    function Contents(): Buffer
      reads this
    {
      Buffer(results, applyIndex)
    }

    method Grow(n: nat)
      modifies `results
      ensures results == Grown(old(results), n)
    {
      while |results| < n
        invariant Grown(results, n) == Grown(old(results), n)
      {
        results := results + [Placeholder];
      }
    }

    method PassOn() returns (sent: seq<RoundResult>)
      requires InBounds(Contents())
      modifies `applyIndex
      ensures applyIndex == NextGap(results, old(applyIndex)) && sent == results[old(applyIndex)..applyIndex]
    {
      sent := [];
      while applyIndex < |results| && results[applyIndex].round != -1
        invariant old(applyIndex) <= applyIndex <= |results| && sent == results[old(applyIndex)..applyIndex]
        invariant NextGap(results, applyIndex) == NextGap(results, old(applyIndex))
      {
        sent := sent + [results[applyIndex]];
        applyIndex := applyIndex + 1;
      }
    }

    /** One turn of the loop. */
    method Receive(r: RoundResult) returns (sent: seq<RoundResult>)
      requires InBounds(Contents()) && r.round >= 0
      modifies this
      ensures InBounds(Contents()) && (Contents(), sent) == Accept(old(Contents()), r)
    {
      Grow(r.round + 1);
      results := results[r.round := r];
      sent := PassOn();
    }
  }

  // ----- every order of arrival

  predicate Arrivals(rs: seq<RoundResult>) {
    forall i :: 0 <= i < |rs| ==> rs[i].round >= 0
  }

  predicate Arrived(rs: seq<RoundResult>, n: int) {
    exists i :: 0 <= i < |rs| && rs[i].round == n
  }

  /** The buffer after the arrivals, and everything passed on so far. */
  function After(rs: seq<RoundResult>): (o: (Buffer, seq<RoundResult>))
    requires Arrivals(rs)
    ensures InBounds(o.0)
  {
    if rs == [] then (Buffer([], 0), [])
    else
      var before := After(rs[..|rs| - 1]);
      var a := Accept(before.0, rs[|rs| - 1]);
      (a.0, before.1 + a.1)
  }

  /** The latest arrival for the round. */
  predicate Latest(rs: seq<RoundResult>, n: int, r: RoundResult) {
    exists i :: 0 <= i < |rs| && rs[i] == r && r.round == n && forall j :: i < j < |rs| ==> rs[j].round != n
  }

  /** A cell holds the latest arrival of its own round, or nothing and none has arrived. */
  predicate Cell(rs: seq<RoundResult>, results: seq<RoundResult>, n: int)
    requires 0 <= n < |results|
  {
    if results[n].round == -1 then !Arrived(rs, n) else Latest(rs, n, results[n])
  }

  lemma LatestStays(rs: seq<RoundResult>, n: int, x: RoundResult, r: RoundResult)
    requires r.round != n && Latest(rs, n, x)
    ensures Latest(rs + [r], n, x)
  {
    var i :| 0 <= i < |rs| && rs[i] == x && forall j :: i < j < |rs| ==> rs[j].round != n;
    assert (rs + [r])[i] == x;
  }

  lemma NewIsLatest(rs: seq<RoundResult>, r: RoundResult)
    ensures Latest(rs + [r], r.round, r)
  {
    assert (rs + [r])[|rs|] == r;
  }

  predicate BufferInvariant(rs: seq<RoundResult>, b: Buffer, out: seq<RoundResult>) {
    && b.applyIndex == |out| <= |b.results|
    && (forall n :: 0 <= n < |b.results| ==> Cell(rs, b.results, n))
    && (forall i :: 0 <= i < |rs| ==> rs[i].round < |b.results|)
    && (forall n :: 0 <= n < |out| ==> out[n] in rs && out[n].round == n)
    && (b.applyIndex < |b.results| ==> b.results[b.applyIndex].round == -1)
  }

  lemma AcceptCells(rs: seq<RoundResult>, b: Buffer, r: RoundResult)
    requires InBounds(b) && r.round >= 0
    requires forall n :: 0 <= n < |b.results| ==> Cell(rs, b.results, n)
    requires forall i :: 0 <= i < |rs| ==> rs[i].round < |b.results|
    ensures var results := Accept(b, r).0.results;
            forall n :: 0 <= n < |results| ==> Cell(rs + [r], results, n)
  {
    var results := Accept(b, r).0.results;
    forall n | 0 <= n < |results| ensures Cell(rs + [r], results, n) {
      if n == r.round {
        NewIsLatest(rs, r);
      } else if n < |b.results| {
        assert Cell(rs, b.results, n);
        if b.results[n].round != -1 {
          LatestStays(rs, n, b.results[n], r);
        }
      }
    }
  }

  lemma AcceptKeeps(rs: seq<RoundResult>, b: Buffer, out: seq<RoundResult>, r: RoundResult)
    requires InBounds(b) && r.round >= 0 && BufferInvariant(rs, b, out)
    ensures var a := Accept(b, r); BufferInvariant(rs + [r], a.0, out + a.1)
  {
    AcceptCells(rs, b, r);
    var a := Accept(b, r);
    forall n | 0 <= n < |out + a.1| ensures (out + a.1)[n] in rs + [r] && (out + a.1)[n].round == n {
      if n >= |out| {
        assert (out + a.1)[n] == a.0.results[n];
        assert Cell(rs + [r], a.0.results, n);
      }
    }
  }

  lemma {:induction false} AfterInvariant(rs: seq<RoundResult>)
    requires Arrivals(rs)
    ensures BufferInvariant(rs, After(rs).0, After(rs).1)
  {
    if rs != [] {
      var before := rs[..|rs| - 1];
      AfterInvariant(before);
      AcceptKeeps(before, After(before).0, After(before).1, rs[|rs| - 1]);
      assert before + [rs[|rs| - 1]] == rs;
    }
  }

  /**
   * Whatever the order of arrival, what has been passed on are results of the rounds 0, 1, 2, ... in this order, each
   * round once, up to and not including the first round that has not arrived.
   */
  lemma PassedOnInOrder(rs: seq<RoundResult>)
    requires Arrivals(rs)
    ensures var out := After(rs).1;
            && (forall n :: 0 <= n < |out| ==> out[n] in rs && out[n].round == n)
            && !Arrived(rs, |out|)
  {
    AfterInvariant(rs);
    var b, out := After(rs).0, After(rs).1;
    if |out| < |b.results| {
      assert Cell(rs, b.results, |out|);
    }
  }

  predicate DistinctRounds(rs: seq<RoundResult>) {
    forall i, j :: 0 <= i < j < |rs| ==> rs[i].round != rs[j].round
  }

  /** With one result per round the order of arrival does not matter at all. */
  lemma OrderIrrelevant(a: seq<RoundResult>, b: seq<RoundResult>)
    requires Arrivals(a) && Arrivals(b) && DistinctRounds(b) && multiset(a) == multiset(b)
    ensures After(a).1 == After(b).1
  {
    PassedOnInOrder(a);
    PassedOnInOrder(b);
    var x, y := After(a).1, After(b).1;
    forall r | r in a ensures r in b { assert r in multiset(b); }
    forall r | r in b ensures r in a { assert r in multiset(a); }
    if |x| < |y| {
      assert y[|x|] in a;
      assert Arrived(a, |x|);
    } else if |y| < |x| {
      assert x[|y|] in b;
      assert Arrived(b, |y|);
    }
    forall n | 0 <= n < |x| ensures x[n] == y[n] {
      assert x[n] in b && y[n] in b;
    }
  }
}
