/** Sequences up to reordering: mapping and multiplying commute with permutation. */
module Seqs {

  function Map<A, B>(f: A -> B, s: seq<A>): (r: seq<B>)
    ensures |r| == |s|
    ensures forall i :: 0 <= i < |s| ==> r[i] == f(s[i])
  {
    seq(|s|, i requires 0 <= i < |s| => f(s[i]))
  }

  /** The product of a list of numbers. */
  function Product(s: seq<int>): int {
    if s == [] then 1 else s[0] * Product(s[1..])
  }

  /** The sum of a list of numbers. */
  function Sum(s: seq<int>): int {
    if s == [] then 0 else s[0] + Sum(s[1..])
  }

  /** The list without its element at index k. */
  function Without<A>(s: seq<A>, k: nat): (r: seq<A>)
    requires k < |s|
    ensures |r| == |s| - 1
  {
    s[..k] + s[k + 1..]
  }

  lemma WithoutMultiset<A>(s: seq<A>, k: nat)
    requires k < |s|
    ensures multiset(s) == multiset{s[k]} + multiset(Without(s, k))
  {
    assert s == s[..k] + [s[k]] + s[k + 1..];
  }

  /** Equal multisets: the head of one list occurs in the other, and removing both keeps equality. */
  lemma HeadOccurs<A>(a: seq<A>, b: seq<A>) returns (k: nat)
    requires a != [] && multiset(a) == multiset(b)
    ensures k < |b| && b[k] == a[0]
    ensures multiset(a[1..]) == multiset(Without(b, k))
  {
    assert a == [a[0]] + a[1..];
    assert a[0] in multiset(b);
    k :| 0 <= k < |b| && b[k] == a[0];
    WithoutMultiset(a, 0);
    WithoutMultiset(b, k);
    assert Without(a, 0) == a[1..];
    assert multiset(a[1..]) == multiset(a) - multiset{a[0]};
    assert multiset(Without(b, k)) == multiset(b) - multiset{b[k]};
  }

  lemma SameLength<A>(a: seq<A>, b: seq<A>)
    requires multiset(a) == multiset(b)
    ensures |a| == |b|
  {
    assert |multiset(a)| == |a| && |multiset(b)| == |b|;
  }

  lemma {:induction false} MapPermutation<A, B>(f: A -> B, a: seq<A>, b: seq<A>)
    requires multiset(a) == multiset(b)
    ensures multiset(Map(f, a)) == multiset(Map(f, b))
  {
    SameLength(a, b);
    if a == [] {
      assert Map(f, a) == Map(f, b);
    } else {
      var k := HeadOccurs(a, b);
      MapPermutation(f, a[1..], Without(b, k));
      assert Map(f, a) == [f(a[0])] + Map(f, a[1..]);
      assert Without(Map(f, b), k) == Map(f, Without(b, k));
      WithoutMultiset(Map(f, b), k);
    }
  }

  lemma {:induction false} ProductWithout(s: seq<int>, k: nat)
    requires k < |s|
    ensures Product(s) == s[k] * Product(Without(s, k))
  {
    if k == 0 {
      assert Without(s, 0) == s[1..];
    } else {
      ProductWithout(s[1..], k - 1);
      var w := Without(s, k);
      assert w[0] == s[0] && w[1..] == Without(s[1..], k - 1);
      var x, y, z := s[0], s[k], Product(w[1..]);
      assert x * (y * z) == y * (x * z);
    }
  }

  lemma {:induction false} ProductPermutation(a: seq<int>, b: seq<int>)
    requires multiset(a) == multiset(b)
    ensures Product(a) == Product(b)
  {
    SameLength(a, b);
    if a != [] {
      var k := HeadOccurs(a, b);
      ProductPermutation(a[1..], Without(b, k));
      ProductWithout(b, k);
    }
  }

  lemma {:induction false} SumWithout(s: seq<int>, k: nat)
    requires k < |s|
    ensures Sum(s) == s[k] + Sum(Without(s, k))
  {
    if k == 0 {
      assert Without(s, 0) == s[1..];
    } else {
      SumWithout(s[1..], k - 1);
      var w := Without(s, k);
      assert w[0] == s[0] && w[1..] == Without(s[1..], k - 1);
    }
  }

  lemma {:induction false} SumPermutation(a: seq<int>, b: seq<int>)
    requires multiset(a) == multiset(b)
    ensures Sum(a) == Sum(b)
  {
    SameLength(a, b);
    if a != [] {
      var k := HeadOccurs(a, b);
      SumPermutation(a[1..], Without(b, k));
      SumWithout(b, k);
    }
  }

  lemma {:induction false} SumSnoc(s: seq<int>, x: int)
    ensures Sum(s + [x]) == Sum(s) + x
  {
    if s == [] {
      assert [x][1..] == [];
    } else {
      SumSnoc(s[1..], x);
      assert (s + [x])[1..] == s[1..] + [x];
    }
  }

  /** A list that is nowhere above another and has the same sum is that list. */
  lemma {:induction false} SumTight(a: seq<int>, b: seq<int>)
    requires |a| == |b| && forall i :: 0 <= i < |a| ==> a[i] <= b[i]
    ensures Sum(a) <= Sum(b)
    ensures Sum(a) == Sum(b) ==> a == b
  {
    if a != [] {
      SumTight(a[1..], b[1..]);
    }
  }
}
