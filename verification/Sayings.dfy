/** What the users said, against the texts that were sent for it. */
module Sayings {
  import opened Bytes
  import opened Rounds
  import opened ClientSteps
  import opened Honest
  import opened RoundResults
  import opened EndToEnd

  /** The choices whose text is kept and says something, in order. */
  function Spoken(size: nat, ws: seq<Said>): (r: seq<Said>)
    ensures forall i :: 0 <= i < |r| ==> 0 < |r[i].text| <= size
  {
    if ws == [] then []
    else Spoken(size, ws[..|ws| - 1]) + if 0 < |ws[|ws| - 1].text| <= size then [ws[|ws| - 1]] else []
  }

  function Words(ws: seq<Said>): (r: seq<seq<byte>>)
    ensures |r| == |ws| && forall i :: 0 <= i < |ws| ==> r[i] == ws[i].text
  {
    seq(|ws|, i requires 0 <= i < |ws| => ws[i].text)
  }

  function Randoms(ws: seq<Said>): (r: seq<seq<byte>>)
    ensures |r| == |ws| && forall i :: 0 <= i < |ws| ==> r[i] == ws[i].random
  {
    seq(|ws|, i requires 0 <= i < |ws| => ws[i].random)
  }

  /** No text has the full size, and no two texts that say something were given the same random bytes. */
  predicate Sayable(size: nat, ws: seq<Said>) {
    && (forall i :: 0 <= i < |ws| ==> |Kept(size, ws[i].text)| < size)
    && Distinct(Randoms(Spoken(size, ws)))
  }

  lemma {:induction false} NonEmptySpoken(size: nat, ws: seq<Said>, texts: seq<seq<byte>>)
    requires Meant(size, ws, texts)
    ensures Meant(size, Spoken(size, ws), NonEmpty(texts))
  {
    if ws != [] {
      var n := |ws| - 1;
      assert Means(size, ws[n], texts[n]);
      hide Means;
      NonEmptySpoken(size, ws[..n], texts[..n]);
      assert |texts[n]| > HeaderLength <==> 0 < |ws[n].text| <= size by { SaysSomething(size, ws[n], texts[n]); }
    }
  }

  lemma SaysSomething(size: nat, w: Said, text: seq<byte>)
    requires Means(size, w, text)
    ensures |text| > HeaderLength <==> 0 < |w.text| <= size
  {
  }

  lemma SpokenParts(size: nat, w: Said, text: seq<byte>)
    requires Means(size, w, text) && 0 < |w.text| <= size
    ensures |text| > HeaderLength && text[..HeaderLength] == Header(w.random) && text[HeaderLength..] == w.text
  {
  }

  /** The non-empty bodies of the texts are what was said. */
  lemma BodiesAreWords(size: nat, ws: seq<Said>, texts: seq<seq<byte>>)
    requires Meant(size, ws, texts)
    ensures Bodies(NonEmpty(texts)) == Words(Spoken(size, ws))
  {
    NonEmptySpoken(size, ws, texts);
    var xs, us := NonEmpty(texts), Spoken(size, ws);
    hide NonEmpty, Spoken, Worded, Kept;
    forall i | 0 <= i < |xs| ensures Bodies(xs)[i] == Words(us)[i] {
      assert Means(size, us[i], xs[i]);
      SpokenParts(size, us[i], xs[i]);
    }
  }

  lemma SameHeader(size: nat, u: Said, x: seq<byte>, w: Said, y: seq<byte>)
    requires Means(size, u, x) && Means(size, w, y) && 0 < |u.text| <= size && 0 < |w.text| <= size
    ensures |x| > HeaderLength && |y| > HeaderLength
    ensures x[..HeaderLength] == y[..HeaderLength] <==> u.random == w.random
  {
    SpokenParts(size, u, x);
    SpokenParts(size, w, y);
    HeaderExactly(x[..HeaderLength], w.random);
  }

  lemma DistinctHeaders(size: nat, us: seq<Said>, xs: seq<seq<byte>>)
    requires Meant(size, us, xs) && forall i :: 0 <= i < |us| ==> 0 < |us[i].text| <= size
    requires forall i :: 0 <= i < |xs| ==> |xs[i]| > HeaderLength
    ensures Distinct(Headers(xs)) <==> Distinct(Randoms(us))
  {
    var hs, rs := Headers(xs), Randoms(us);
    forall i, j | 0 <= i < |xs| && 0 <= j < |xs| ensures hs[i] == hs[j] <==> rs[i] == rs[j] {
      assert Means(size, us[i], xs[i]) && Means(size, us[j], xs[j]);
      hide *;
      SameHeader(size, us[i], xs[i], us[j], xs[j]);
    }
    hide Headers, Randoms, Means, Meant;
  }

  lemma HeadersAreRandoms(size: nat, ws: seq<Said>, texts: seq<seq<byte>>)
    requires Meant(size, ws, texts)
    ensures Distinct(Headers(NonEmpty(texts))) <==> Distinct(Randoms(Spoken(size, ws)))
  {
    hide *;
    NonEmptySpoken(size, ws, texts);
    DistinctHeaders(size, Spoken(size, ws), NonEmpty(texts));
  }

  /** The texts are deliverable exactly if what the users said is sayable: a test on the users' choices alone. */
  lemma DeliverableExactly(size: nat, ws: seq<Said>, texts: seq<seq<byte>>)
    requires Meant(size, ws, texts)
    ensures Deliverable(size, texts) <==> Sayable(size, ws)
  {
    HeadersAreRandoms(size, ws, texts);
    hide NonEmpty, Spoken, Distinct;
    forall i | 0 <= i < |ws| ensures |texts[i]| == HeaderLength + |Kept(size, ws[i].text)| {
      assert Means(size, ws[i], texts[i]);
    }
  }

  /** What was said at the full size without a zero byte is a text that is lost. */
  lemma LostSaying(size: nat, w: Said, text: seq<byte>)
    requires Means(size, w, text) && |w.text| == size && 0 !in w.random && 0 !in w.text
    ensures |text| == size + HeaderLength && 0 !in text
  {
    var h := Header(w.random);
    assert forall i :: 0 <= i < |h| ==> h[i] == if i < 8 then 13 else h[8..][i - 8];
  }
}
