/** From submitted texts to reported texts: what a round that reaches Done delivers. */
module EndToEnd {
  import opened Seqs
  import opened Bytes
  import opened MasseyOmura
  import opened Crypto
  import opened Ops
  import opened Rounds
  import opened Layers
  import opened ClientSteps
  import opened Honest
  import opened HonestSteps
  import opened Protocol
  import opened RoundResults

  /** What becomes of a text: it survives below the maximum size; at the maximum size it loses its separator. */
  function Delivered(size: nat, text: seq<byte>): Option<seq<byte>> {
    if |text| < size + HeaderLength then Some(text) else AfterFirstZero(StripZeros(text))
  }

  function DeliveredAll(size: nat, texts: seq<seq<byte>>): (r: seq<Option<seq<byte>>>)
    ensures |r| == |texts| && forall i :: 0 <= i < |texts| ==> r[i] == Delivered(size, texts[i])
  {
    seq(|texts|, i requires 0 <= i < |texts| => Delivered(size, texts[i]))
  }

  lemma DeliveredExactly(size: nat, text: seq<byte>)
    requires TextOk(size, text)
    ensures Delivered(size, text) == Some(text) <==> |text| < size + HeaderLength
  {
    AfterFirstZeroShorter(StripZeros(text));
  }

  lemma PlainDelivered(size: nat, s: Session, text: seq<byte>)
    requires SessionOk(size, s) && TextOk(size, text)
    ensures s.crypto.ExtractMsg(NewMsg(Plain(s.crypto, text))) == Delivered(size, text)
  {
    SessionSound(size, s);
    PlainUnit(size, s, text);
    NewMsgValue(Plain(s.crypto, text));
    if |text| < size + HeaderLength {
      PrepareExtract(text, BitLen(s.crypto.P()));
    } else {
      PrepareExtractAtMaximum(text, BitLen(s.crypto.P()));
    }
  }

  /** The texts that the participants of a good round submitted. */
  function Submitted(sha: Sha256, h: History, ri: RoundInfo, r: int): (ts: seq<seq<byte>>)
    requires Known(sha, h, ri, r)
    ensures |ts| == |ri.participants|
    ensures forall i :: 0 <= i < |ts| ==>
              (ri.participants[i], r) in h.texts && ts[i] == h.texts[(ri.participants[i], r)]
  {
    KnownHasSessions(sha, h, ri, r);
    Texts(h, ri.participants, r)
  }

  predicate AllSaid(h: History, ri: RoundInfo, r: int) {
    forall i :: 0 <= i < |ri.participants| ==> (ri.participants[i], r) in h.said
  }

  /** What the participants chose to say in the round. */
  function SaidIn(h: History, ri: RoundInfo, r: int): (ws: seq<Said>)
    requires AllSaid(h, ri, r)
    ensures |ws| == |ri.participants|
    ensures forall i :: 0 <= i < |ws| ==> ws[i] == h.said[(ri.participants[i], r)]
  {
    seq(|ri.participants|, i requires 0 <= i < |ri.participants| => h.said[(ri.participants[i], r)])
  }

  /** The texts are the ones meant by what was said. */
  predicate Meant(size: nat, ws: seq<Said>, texts: seq<seq<byte>>) {
    |ws| == |texts| && forall i :: 0 <= i < |ws| ==> Means(size, ws[i], texts[i])
  }

  lemma SubmittedMeant(size: nat, sha: Sha256, h: History, ri: RoundInfo, r: int)
    requires HistoryOk(size, h) && Known(sha, h, ri, r)
    ensures AllSaid(h, ri, r) && Meant(size, SaidIn(h, ri, r), Submitted(sha, h, ri, r))
  {
    hide *;
    KnownHasSessions(sha, h, ri, r);
    SaidFor(size, h, ri, r, Submitted(sha, h, ri, r));
  }

  lemma SaidFor(size: nat, h: History, ri: RoundInfo, r: int, texts: seq<seq<byte>>)
    requires HistoryOk(size, h) && |texts| == |ri.participants|
    requires forall i :: 0 <= i < |texts| ==>
               (ri.participants[i], r) in h.texts && texts[i] == h.texts[(ri.participants[i], r)]
    ensures AllSaid(h, ri, r) && Meant(size, SaidIn(h, ri, r), texts)
  {
    hide Worded, SessionOk, TextOk, Means;
  }

  lemma SubmittedOk(size: nat, sha: Sha256, h: History, ri: RoundInfo, r: int, i: nat)
    requires HistoryOk(size, h) && Known(sha, h, ri, r) && i < |ri.participants|
    ensures TextOk(size, Submitted(sha, h, ri, r)[i])
    ensures ri.crypto.value.ExtractMsg(NewMsg(RoundPlains(sha, h, ri, r)[i]))
         == Delivered(size, Submitted(sha, h, ri, r)[i])
  {
    var k := (ri.participants[i], r);
    assert KnownAt(sha, h, ri, r, i);
    hide Known, KnownAt;
    PlainDelivered(size, h.sessions[k], h.texts[k]);
  }

  lemma DoneKeys(size: nat, sha: Sha256, h: History, ri: RoundInfo, r: int)
    requires HistoryOk(size, h) && RoundGood(sha, h, ri, r) && ri.phase.Done?
    ensures ri.participants != [] && Known(sha, h, ri, r) && HasSessions(h, ri.participants, r)
    ensures UnderStack(sha, h, ri, r, RevealKeys(h, ri.participants, r))
    ensures |ri.revealedKeys| == |ri.participants|
    ensures forall i :: 0 <= i < |ri.revealedKeys| ==>
              && ri.crypto.value.Generates(ri.revealedKeys[i])
              && RevealKeys(h, ri.participants, r)[i] == ri.revealedKeys[i].Pair()
              && HashKey(sha, ri.revealedKeys[i]) == ri.revealKeyHashes[i]
  {
    Disassemble(sha, h, ri, r);
    forall i | 0 <= i < |ri.revealedKeys|
      ensures ri.crypto.value.Generates(ri.revealedKeys[i])
           && RevealKeys(h, ri.participants, r)[i] == ri.revealedKeys[i].Pair()
           && HashKey(sha, ri.revealedKeys[i]) == ri.revealKeyHashes[i]
    {
      KnownGenerates(size, sha, h, ri, r, i);
      assert !ri.revealedKeys[i].Nil();
      assert KnownAt(sha, h, ri, r, i);
    }
  }

  /** Peeling the revealed keys off a Done round and extracting gives what the participants submitted, in some order. */
  lemma DoneRoundDelivers(size: nat, sha: Sha256, h: History, ri: RoundInfo, r: int)
    requires HistoryOk(size, h) && RoundGood(sha, h, ri, r) && ri.phase.Done?
    ensures Known(sha, h, ri, r)
    ensures multiset(Opened(ri.crypto.value, ri.revealedKeys, ri.messages))
         == multiset(DeliveredAll(size, Submitted(sha, h, ri, r)))
  {
    DoneKeys(size, sha, h, ri, r);
    KnownUnits(size, sha, h, ri, r);
    hide RoundGood, UnderStack, Units;
    PeeledDelivers(size, sha, h, ri, r);
  }

  lemma PeeledDelivers(size: nat, sha: Sha256, h: History, ri: RoundInfo, r: int)
    requires HistoryOk(size, h) && Known(sha, h, ri, r) && HasSessions(h, ri.participants, r)
    requires Sound(ri.crypto.value) && Units(ri.crypto.value, RoundPlains(sha, h, ri, r))
    requires UnderStack(sha, h, ri, r, RevealKeys(h, ri.participants, r))
    requires |ri.revealedKeys| == |ri.participants|
    requires forall i :: 0 <= i < |ri.revealedKeys| ==>
               && ri.crypto.value.Generates(ri.revealedKeys[i])
               && RevealKeys(h, ri.participants, r)[i] == ri.revealedKeys[i].Pair()
    ensures multiset(Opened(ri.crypto.value, ri.revealedKeys, ri.messages))
         == multiset(DeliveredAll(size, Submitted(sha, h, ri, r)))
  {
    var c, ps := ri.crypto.value, RoundPlains(sha, h, ri, r);
    PeelStep(c, ri.revealedKeys, RevealKeys(h, ri.participants, r), ps, ri.messages);
    forall i | 0 <= i < |ps| ensures c.ExtractMsg(NewMsg(ps[i])) == DeliveredAll(size, Submitted(sha, h, ri, r))[i] {
      SubmittedOk(size, sha, h, ri, r, i);
    }
    hide Known, HistoryOk, UnderStack, Sound, Units, HasSessions;
    ExtractPermutation(c, ri.revealedKeys, ri.messages, ps, DeliveredAll(size, Submitted(sha, h, ri, r)));
  }

  lemma ExtractPermutation(c: Crypto, keys: seq<PrivateKey>, messages: seq<Msg>, ps: seq<nat>,
                           ds: seq<Option<seq<byte>>>)
    requires multiset(PeelAll(c, keys, messages)) == multiset(Layered(c, [], ps))
    requires |ds| == |ps| && forall i :: 0 <= i < |ps| ==> c.ExtractMsg(NewMsg(ps[i])) == ds[i]
    ensures multiset(Opened(c, keys, messages)) == multiset(ds)
  {
    hide Peel;
    var f := (m: Msg) => c.ExtractMsg(m);
    MapPermutation(f, PeelAll(c, keys, messages), Layered(c, [], ps));
    assert Map(f, PeelAll(c, keys, messages)) == Opened(c, keys, messages);
    assert Map(f, Layered(c, [], ps)) == ds;
  }

  /**
   * In every run, whatever the interleaving, staleness and duplication, every stored round that is Done
   * delivers exactly what its participants submitted, up to order; and they submitted what their users said.
   */
  lemma RunDelivers(size: nat, sha: Sha256, run: seq<System>, i: nat, r: int)
    requires IsRun(size, sha, run) && i <= |run[|run| - 1].log|
    requires var ri := GetRoundInfo(StateAt(run[|run| - 1].log, i), r); ri.Some? && ri.value.phase.Done?
    ensures var h, ri := run[|run| - 1].history, GetRoundInfo(StateAt(run[|run| - 1].log, i), r).value;
            && Known(sha, h, ri, r) && AllSaid(h, ri, r)
            && Meant(size, SaidIn(h, ri, r), Submitted(sha, h, ri, r))
            && multiset(Opened(ri.crypto.value, ri.revealedKeys, ri.messages))
               == multiset(DeliveredAll(size, Submitted(sha, h, ri, r)))
  {
    RunKeepsInv(size, sha, run);
    var sys := run[|run| - 1];
    var ri := GetRoundInfo(StateAt(sys.log, i), r).value;
    StoredGood(size, sha, sys, i, r);
    DoneRoundDelivers(size, sha, sys.history, ri, r);
    hide IsRun, StateAt, RoundGood, HistoryOk, Known, Inv;
    SubmittedMeant(size, sha, sys.history, ri, r);
  }

  lemma StoredGood(size: nat, sha: Sha256, sys: System, i: nat, r: int)
    requires Inv(size, sha, sys) && i <= |sys.log| && GetRoundInfo(StateAt(sys.log, i), r).Some?
    ensures HistoryOk(size, sys.history)
    ensures RoundGood(sha, sys.history, GetRoundInfo(StateAt(sys.log, i), r).value, r)
  {
    hide RoundGood, HistoryOk, ClientsOk, EntriesOk;
    assert StateGood(sha, sys.history, StateAt(sys.log, i));
  }

  /** The debug assertions of checkRep hold of every stored round in every state of every run. */
  lemma RunChecksRep(size: nat, sha: Sha256, run: seq<System>, i: nat, r: int)
    requires IsRun(size, sha, run) && i <= |run[|run| - 1].log|
    requires GetRoundInfo(StateAt(run[|run| - 1].log, i), r).Some?
    ensures CheckRep(GetRoundInfo(StateAt(run[|run| - 1].log, i), r).value)
  {
    RunKeepsInv(size, sha, run);
    StoredGood(size, sha, run[|run| - 1], i, r);
  }

  // ----- what the users are told

  lemma {:induction false} NonEmptyCount(xs: seq<seq<byte>>, x: seq<byte>)
    ensures multiset(NonEmpty(xs))[x] == if |x| > HeaderLength then multiset(xs)[x] else 0
  {
    if xs != [] {
      var front := xs[..|xs| - 1];
      NonEmptyCount(front, x);
      assert xs == front + [xs[|xs| - 1]];
    }
  }

  lemma NonEmptyPermutation(a: seq<seq<byte>>, b: seq<seq<byte>>)
    requires multiset(a) == multiset(b)
    ensures multiset(NonEmpty(a)) == multiset(NonEmpty(b))
  {
    forall x: seq<byte> ensures multiset(NonEmpty(a))[x] == multiset(NonEmpty(b))[x] {
      NonEmptyCount(a, x);
      NonEmptyCount(b, x);
    }
  }

  function HeaderOf(x: seq<byte>): seq<byte> {
    if |x| >= HeaderLength then x[..HeaderLength] else x
  }

  function BodyOf(x: seq<byte>): seq<byte> {
    if |x| >= HeaderLength then x[HeaderLength..] else x
  }

  lemma {:induction false} DistinctCounts<T>(s: seq<T>, x: T)
    requires Distinct(s)
    ensures multiset(s)[x] <= 1
  {
    if s != [] {
      var front := s[..|s| - 1];
      DistinctCounts(front, x);
      assert s == front + [s[|s| - 1]];
      if s[|s| - 1] == x {
        assert x !in front;
        assert multiset(front)[x] == 0;
      }
    }
  }

  lemma DuplicateCounts<T>(s: seq<T>, i: nat, j: nat)
    requires i < j < |s| && s[i] == s[j]
    ensures multiset(s)[s[i]] >= 2
  {
    assert s == s[..j] + [s[j]] + s[j + 1..];
    assert s[..j][i] == s[i];
  }

  lemma DistinctPermutation<T>(a: seq<T>, b: seq<T>)
    requires multiset(a) == multiset(b) && Distinct(a)
    ensures Distinct(b)
  {
    forall i, j | 0 <= i < j < |b| ensures b[i] != b[j] {
      if b[i] == b[j] {
        DuplicateCounts(b, i, j);
        DistinctCounts(a, b[i]);
      }
    }
  }

  /** The headers and bodies of two lists with the same texts are the same up to order. */
  lemma HeadersBodiesPermutation(a: seq<seq<byte>>, b: seq<seq<byte>>)
    requires multiset(a) == multiset(b)
    ensures multiset(Headers(NonEmpty(a))) == multiset(Headers(NonEmpty(b)))
    ensures multiset(Bodies(NonEmpty(a))) == multiset(Bodies(NonEmpty(b)))
  {
    NonEmptyPermutation(a, b);
    var x, y := NonEmpty(a), NonEmpty(b);
    MapPermutation(HeaderOf, x, y);
    MapPermutation(BodyOf, x, y);
    assert Headers(x) == Map(HeaderOf, x) && Headers(y) == Map(HeaderOf, y);
    assert Bodies(x) == Map(BodyOf, x) && Bodies(y) == Map(BodyOf, y);
  }

  /** All texts are below the maximum size. */
  predicate Short(size: nat, texts: seq<seq<byte>>) {
    forall i :: 0 <= i < |texts| ==> |texts[i]| < size + HeaderLength
  }

  /** The texts can be delivered: they are short, and those that say something have headers of their own. */
  predicate Deliverable(size: nat, texts: seq<seq<byte>>) {
    Short(size, texts) && Distinct(Headers(NonEmpty(texts)))
  }

  /** The texts came back as sent: a list of results that is a permutation of Some of each text. */
  lemma PresentPermutation(size: nat, xs: seq<Option<seq<byte>>>, texts: seq<seq<byte>>)
    requires multiset(xs) == multiset(DeliveredAll(size, texts))
    requires Short(size, texts)
    ensures AllPresent(xs) && multiset(Present(xs)) == multiset(texts)
  {
    var ds := DeliveredAll(size, texts);
    forall i | 0 <= i < |xs| ensures xs[i].Some? {
      assert xs[i] in multiset(ds);
      var j :| 0 <= j < |ds| && ds[j] == xs[i];
    }
    var f := (x: Option<seq<byte>>) => if x.Some? then x.value else [];
    MapPermutation(f, xs, ds);
    assert Map(f, xs) == Present(xs) && Map(f, ds) == texts;
  }

  lemma HeadedPermutation(a: seq<seq<byte>>, b: seq<seq<byte>>)
    requires multiset(a) == multiset(b) && AllWellHeaded(b)
    ensures AllWellHeaded(a)
  {
    forall i | 0 <= i < |a| ensures WellHeaded(a[i]) {
      assert a[i] in multiset(b);
      var j :| 0 <= j < |b| && b[j] == a[i];
    }
  }

  lemma CryptoNoPanic(size: nat, sha: Sha256, id: Uuid, l: Local, sm: State, ch: Choices)
    requires Valid(sm) && |ch.random| == 8 && |ch.fallbackRandom| == 8
    requires Current(sm).phase.Prepare? || Current(sm).crypto.Some?
    ensures !Observe(size, sha, id, l, sm, ch).panics
  {
    hide RepInvariant, EncryptOthers, DecryptTwice, Count, VerifySysKey, TextSent, Plain;
  }

  /** In every run no update of a client panics: a started round has a crypto. */
  lemma RunNeverPanics(size: nat, sha: Sha256, run: seq<System>, id: Uuid, at: nat, ch: Choices)
    requires IsRun(size, sha, run) && Enabled(size, run[|run| - 1], Update(id, at, ch))
    ensures var sys := run[|run| - 1];
            !Observe(size, sha, id, sys.clients[id].local, StateAt(sys.log, at), ch).panics
  {
    RunKeepsInv(size, sha, run);
    var sys := run[|run| - 1];
    assert StateGood(sha, sys.history, StateAt(sys.log, at));
    hide IsRun, Inv, StateAt, LayerInvariant, Observe, RepInvariant;
    CurrentGood(sha, sys.history, StateAt(sys.log, at));
    CryptoNoPanic(size, sha, id, sys.clients[id].local, StateAt(sys.log, at), ch);
  }

  /** The client remembers the round as it was when it revealed its key, and as many messages as it scrambled. */
  predicate Remembers(mem: Memory, ri: RoundInfo) {
    && mem.messagesBeforeReveal == ri.messages && mem.revealKeyHashes == ri.revealKeyHashes
    && mem.messagesWhenScrambled == |ri.messages|
  }

  lemma GoodTexts(size: nat, sha: Sha256, h: History, ri: RoundInfo, r: int)
    requires HistoryOk(size, h) && Known(sha, h, ri, r)
    ensures AllWellHeaded(Submitted(sha, h, ri, r))
  {
    forall i | 0 <= i < |ri.participants| ensures WellHeaded(Submitted(sha, h, ri, r)[i]) {
      SubmittedOk(size, sha, h, ri, r, i);
    }
  }

  lemma DoneTrustworthy(size: nat, sha: Sha256, h: History, ri: RoundInfo, r: int, mem: Memory)
    requires HistoryOk(size, h) && RoundGood(sha, h, ri, r) && ri.phase.Done? && Remembers(mem, ri)
    requires Known(sha, h, ri, r)
    requires Deliverable(size, Submitted(sha, h, ri, r))
    ensures Trustworthy(sha, ri, mem)
    ensures ri.messages != []
    ensures var xs := Opened(ri.crypto.value, ri.revealedKeys, ri.messages);
            && AllPresent(xs)
            && multiset(Bodies(NonEmpty(Present(xs)))) == multiset(Bodies(NonEmpty(Submitted(sha, h, ri, r))))
  {
    var xs, texts := Opened(ri.crypto.value, ri.revealedKeys, ri.messages), Submitted(sha, h, ri, r);
    DoneLengths(sha, h, ri, r);
    hide *;
    DoneRoundDelivers(size, sha, h, ri, r);
    DoneKeys(size, sha, h, ri, r);
    GoodTexts(size, sha, h, ri, r);
    TextsTrusted(size, xs, texts);
    KeysTrusted(sha, ri, mem);
    TrustParts(sha, ri, mem);
  }

  lemma DoneLengths(sha: Sha256, h: History, ri: RoundInfo, r: int)
    requires RoundGood(sha, h, ri, r) && ri.phase.Done?
    ensures ri.messages != [] && |ri.revealKeyHashes| == |ri.revealedKeys| && ri.crypto.Some?
  {
  }

  lemma TextsTrusted(size: nat, xs: seq<Option<seq<byte>>>, texts: seq<seq<byte>>)
    requires multiset(xs) == multiset(DeliveredAll(size, texts)) && AllWellHeaded(texts) && Deliverable(size, texts)
    ensures AllPresent(xs) && AllWellHeaded(Present(xs)) && Distinct(Headers(NonEmpty(Present(xs))))
    ensures multiset(Bodies(NonEmpty(Present(xs)))) == multiset(Bodies(NonEmpty(texts)))
  {
    PresentPermutation(size, xs, texts);
    HeadedPermutation(Present(xs), texts);
    HeadersBodiesPermutation(Present(xs), texts);
    DistinctPermutation(Headers(NonEmpty(texts)), Headers(NonEmpty(Present(xs))));
  }

  lemma KeysTrusted(sha: Sha256, ri: RoundInfo, mem: Memory)
    requires Remembers(mem, ri) && |ri.revealKeyHashes| == |ri.revealedKeys|
    requires forall i :: 0 <= i < |ri.revealedKeys| ==> HashKey(sha, ri.revealedKeys[i]) == ri.revealKeyHashes[i]
    ensures KeyHashes(sha, ri.revealedKeys) == mem.revealKeyHashes[..|ri.revealedKeys|]
    ensures mem.messagesBeforeReveal[..|ri.messages|] == ri.messages
  {
  }

  lemma TrustParts(sha: Sha256, ri: RoundInfo, mem: Memory)
    requires Remembers(mem, ri) && ri.crypto.Some? && |ri.revealKeyHashes| == |ri.revealedKeys|
    requires KeyHashes(sha, ri.revealedKeys) == mem.revealKeyHashes[..|ri.revealedKeys|]
    requires mem.messagesBeforeReveal[..|ri.messages|] == ri.messages
    requires var xs := Opened(ri.crypto.value, ri.revealedKeys, ri.messages);
             AllPresent(xs) && AllWellHeaded(Present(xs)) && Distinct(Headers(NonEmpty(Present(xs))))
    ensures Trustworthy(sha, ri, mem)
  {
  }
}
