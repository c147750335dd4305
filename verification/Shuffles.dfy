/** rand.Shuffle as scramble uses it: which arrangement the draws lead to, and that each is reached in one way. */
module Shuffles {
  import opened Rounds

  function Swap<T>(s: seq<T>, i: nat, j: nat): (r: seq<T>)
    requires i < |s| && j < |s|
    ensures |r| == |s| && multiset(r) == multiset(s)
    ensures r[i] == s[j] && r[j] == s[i] && forall k :: 0 <= k < |s| && k != i && k != j ==> r[k] == s[k]
  {
    s[i := s[j]][j := s[i]]
  }

  /** The place below n that is drawn for the last of n places. */
  function Drawn(draws: nat -> nat, n: nat): (j: nat)
    requires n > 0
    ensures j < n
  {
    draws(n - 1) % n
  }

  /**
   * The arrangement after swapping the last of the first n places with a drawn one, then the one before it, and so on.
   */
  function Arranged<T>(s: seq<T>, draws: nat -> nat, n: nat): (r: seq<T>)
    requires n <= |s|
    ensures |r| == |s| && multiset(r) == multiset(s)
    decreases n
  {
    if n <= 1 then s else Arranged(Swap(s, n - 1, Drawn(draws, n)), draws, n - 1)
  }

  lemma ArrangedStep<T>(s: seq<T>, draws: nat -> nat, n: nat)
    requires 1 < n <= |s|
    ensures Arranged(s, draws, n) == Arranged(Swap(s, n - 1, Drawn(draws, n)), draws, n - 1)
  {
    hide Swap, Drawn;
  }

  /** The places from n on are left alone. */
  lemma {:induction false} ArrangedKeeps<T>(s: seq<T>, draws: nat -> nat, n: nat, k: nat)
    requires n <= k < |s|
    ensures Arranged(s, draws, n)[k] == s[k]
    decreases n
  {
    if n > 1 {
      ArrangedStep(s, draws, n);
      hide Arranged, Swap, Drawn;
      ArrangedKeeps(Swap(s, n - 1, Drawn(draws, n)), draws, n - 1, k);
    }
  }

  /** rand.Shuffle with the swap of scramble, in place; the draws are what the random source returns. */
  method Shuffle<T>(a: array<T>, draws: nat -> nat)
    modifies a
    ensures a[..] == Arranged(old(a[..]), draws, a.Length)
    ensures multiset(a[..]) == multiset(old(a[..]))
  {
    hide Arranged, Swap, Drawn;
    var i := a.Length - 1;
    ghost var final := Arranged(a[..], draws, a.Length);
    while i > 0
      invariant -1 <= i < a.Length
      invariant Arranged(a[..], draws, i + 1) == final
    {
      var j := Drawn(draws, i + 1);
      ArrangedStep(a[..], draws, i + 1);
      ghost var before := a[..];
      a[i], a[j] := a[j], a[i];
      assert a[..] == Swap(before, i, j);
      i := i - 1;
    }
    ArrangedDone(a[..], draws, i + 1);
  }

  lemma ArrangedDone<T>(s: seq<T>, draws: nat -> nat, n: nat)
    requires n <= |s| && n <= 1
    ensures Arranged(s, draws, n) == s
  {
  }

  // ----- every arrangement

  lemma {:induction false} DrawsAgree<T>(s: seq<T>, a: nat -> nat, b: nat -> nat, n: nat)
    requires n <= |s| && forall i :: 0 < i < n ==> a(i) == b(i)
    ensures Arranged(s, a, n) == Arranged(s, b, n)
    decreases n
  {
    if n > 1 {
      assert Drawn(a, n) == Drawn(b, n);
      ArrangedStep(s, a, n);
      ArrangedStep(s, b, n);
      hide Arranged, Swap, Drawn;
      DrawsAgree(Swap(s, n - 1, Drawn(a, n)), a, b, n - 1);
    }
  }

  lemma PrefixCounts<T>(s: seq<T>, t: seq<T>, n: nat)
    requires n <= |s| == |t| && multiset(s) == multiset(t) && s[n..] == t[n..]
    ensures multiset(s[..n]) == multiset(t[..n])
  {
    assert s == s[..n] + s[n..] && t == t[..n] + t[n..];
    assert multiset(s) == multiset(s[..n]) + multiset(s[n..]);
    assert multiset(t) == multiset(t[..n]) + multiset(t[n..]);
    assert multiset(s[..n]) == multiset(s) - multiset(s[n..]);
    assert multiset(t[..n]) == multiset(t) - multiset(t[n..]);
  }

  /** Where in the first n places the element wanted at the last of them is. */
  lemma Find<T>(s: seq<T>, t: seq<T>, n: nat) returns (j: nat)
    requires 0 < n <= |s| == |t| && multiset(s) == multiset(t) && s[n..] == t[n..]
    ensures j < n && s[j] == t[n - 1]
  {
    PrefixCounts(s, t, n);
    assert t[..n][n - 1] in multiset(s[..n]);
    var k :| 0 <= k < n && s[..n][k] == t[n - 1];
    j := k;
  }

  lemma DrawnIs(draws: nat -> nat, n: nat, j: nat)
    requires j < n && draws(n - 1) == j
    ensures Drawn(draws, n) == j
  {
  }

  lemma {:induction false} PrefixReached<T>(s: seq<T>, t: seq<T>, n: nat) returns (draws: nat -> nat)
    requires n <= |s| == |t| && multiset(s) == multiset(t) && s[n..] == t[n..]
    ensures Arranged(s, draws, n) == t
    decreases n
  {
    if n == 0 {
      assert s == s[0..] == t[0..] == t;
      draws := i => 0;
    } else {
      var j := Find(s, t, n);
      if n == 1 {
        assert s == [s[0]] + s[1..] && t == [t[0]] + t[1..];
        draws := i => 0;
      } else {
        draws := StepReached(s, t, n, j);
      }
    }
  }

  lemma {:induction false} StepReached<T>(s: seq<T>, t: seq<T>, n: nat, j: nat) returns (draws: nat -> nat)
    requires 1 < n <= |s| == |t| && multiset(s) == multiset(t) && s[n..] == t[n..] && j < n && s[j] == t[n - 1]
    ensures Arranged(s, draws, n) == t
    decreases n, 0
  {
    hide Arranged, Swap, Drawn;
    var next := Swap(s, n - 1, j);
    SameTail(s, t, n, next);
    var rest := PrefixReached(next, t, n - 1);
    draws := i => if i == n - 1 then j else rest(i);
    DrawnIs(draws, n, j);
    ArrangedStep(s, draws, n);
    DrawsAgree(next, draws, rest, n - 1);
  }

  lemma SameTail<T>(s: seq<T>, t: seq<T>, n: nat, next: seq<T>)
    requires 0 < n <= |s| == |t| == |next| && s[n..] == t[n..]
    requires next[n - 1] == t[n - 1] && forall k :: n <= k < |s| ==> next[k] == s[k]
    ensures next[n - 1..] == t[n - 1..]
  {
    forall k | n <= k < |s| ensures s[k] == t[k] {
      assert s[n..][k - n] == t[n..][k - n];
    }
  }

  /** Every arrangement is reached by some draws. */
  lemma EveryArrangement<T>(s: seq<T>, t: seq<T>) returns (draws: nat -> nat)
    requires multiset(s) == multiset(t)
    ensures Arranged(s, draws, |s|) == t
  {
    assert |s| == |multiset(s)| == |multiset(t)| == |t|;
    draws := PrefixReached(s, t, |s|);
  }

  lemma SwapDistinct<T>(s: seq<T>, i: nat, j: nat)
    requires i < |s| && j < |s| && Distinct(s)
    ensures Distinct(Swap(s, i, j))
  {
    var r := Swap(s, i, j);
    forall a, b | 0 <= a < b < |r| ensures r[a] != r[b] {
      var x := if a == i then j else if a == j then i else a;
      var y := if b == i then j else if b == j then i else b;
      assert r[a] == s[x] && r[b] == s[y] && x != y;
    }
  }

  lemma DrawnElement<T>(s: seq<T>, draws: nat -> nat, n: nat)
    requires 1 < n <= |s|
    ensures Arranged(s, draws, n)[n - 1] == s[Drawn(draws, n)]
  {
    hide *;
    ArrangedStep(s, draws, n);
    ArrangedKeeps(Swap(s, n - 1, Drawn(draws, n)), draws, n - 1, n - 1);
  }

  lemma SameDraw<T>(s: seq<T>, a: nat -> nat, b: nat -> nat, n: nat)
    requires 1 < n <= |s| && Distinct(s) && Arranged(s, a, n) == Arranged(s, b, n)
    ensures Drawn(a, n) == Drawn(b, n)
  {
    DrawnElement(s, a, n);
    DrawnElement(s, b, n);
    hide Arranged, Drawn;
    var x, y := Drawn(a, n), Drawn(b, n);
    assert s[x] == s[y];
  }

  /**
   * Among distinct messages each arrangement is reached in only one way, so that it is as likely as any other when the
   * draws are uniform.
   */
  lemma {:induction false} OneWayOnly<T>(s: seq<T>, a: nat -> nat, b: nat -> nat, n: nat, i: nat)
    requires n <= |s| && Distinct(s) && Arranged(s, a, n) == Arranged(s, b, n) && 1 < i <= n
    ensures Drawn(a, i) == Drawn(b, i)
    decreases n
  {
    hide *;
    SameDraw(s, a, b, n);
    if i < n {
      var t := Swap(s, n - 1, Drawn(a, n));
      ArrangedStep(s, a, n);
      ArrangedStep(s, b, n);
      SwapDistinct(s, n - 1, Drawn(a, n));
      OneWayOnly(t, a, b, n - 1, i);
    }
  }
}
