/** What the participants of a round are told in the end. */
module Reports {
  import opened Seqs
  import opened Bytes
  import opened MasseyOmura
  import opened Crypto
  import opened Ops
  import opened Rounds
  import opened ClientSteps
  import opened Honest
  import opened Protocol
  import opened Deeds
  import opened NoDeadlock
  import opened ClientMemory
  import opened RoundResults
  import opened EndToEnd
  import opened Sayings

  // ----- a text at the maximum size cannot be reported

  function BodyLength(x: seq<byte>): int {
    if |x| > HeaderLength then |x| - HeaderLength else 0
  }

  function Length(x: seq<byte>): int { |x| }

  lemma {:induction false} BodiesSum(xs: seq<seq<byte>>)
    ensures Sum(Map(Length, Bodies(NonEmpty(xs)))) == Sum(Map(BodyLength, xs))
  {
    if xs == [] {
      assert Map(Length, Bodies(NonEmpty(xs))) == [] && Map(BodyLength, xs) == [];
    } else {
      var front, last := xs[..|xs| - 1], xs[|xs| - 1];
      BodiesSum(front);
      assert Map(BodyLength, xs) == Map(BodyLength, front) + [BodyLength(last)];
      SumSnoc(Map(BodyLength, front), BodyLength(last));
      if |last| > HeaderLength {
        assert Map(Length, Bodies(NonEmpty(xs))) == Map(Length, Bodies(NonEmpty(front))) + [BodyLength(last)];
        SumSnoc(Map(Length, Bodies(NonEmpty(front))), BodyLength(last));
      } else {
        assert NonEmpty(xs) == NonEmpty(front);
      }
    }
  }

  lemma SumOfPermutation(f: seq<byte> -> int, a: seq<seq<byte>>, b: seq<seq<byte>>)
    requires multiset(a) == multiset(b)
    ensures Sum(Map(f, a)) == Sum(Map(f, b))
  {
    MapPermutation(f, a, b);
    SumPermutation(Map(f, a), Map(f, b));
  }

  /** What comes back of a text, if it has a header, has no longer a body; at the maximum size it has a shorter one. */
  lemma DeliveredBody(size: nat, text: seq<byte>)
    requires TextOk(size, text) && Delivered(size, text).Some? && WellHeaded(Delivered(size, text).value)
    ensures BodyLength(Delivered(size, text).value) <= BodyLength(text)
    ensures |text| == size + HeaderLength ==> BodyLength(Delivered(size, text).value) < BodyLength(text)
  {
    AfterFirstZeroShorter(StripZeros(text));
  }

  /** All lists involved have the same total length of bodies, so no body got shorter. */
  lemma BodiesComeBackOnlyIfShort(size: nat, texts: seq<seq<byte>>, ys: seq<seq<byte>>)
    requires |ys| == |texts| && forall i :: 0 <= i < |texts| ==> TextOk(size, texts[i])
    requires forall i :: 0 <= i < |texts| ==> Delivered(size, texts[i]) == Some(ys[i])
    requires AllWellHeaded(ys) && multiset(Bodies(NonEmpty(ys))) == multiset(Bodies(NonEmpty(texts)))
    ensures Short(size, texts)
  {
    BodiesSum(ys);
    BodiesSum(texts);
    SumOfPermutation(Length, Bodies(NonEmpty(ys)), Bodies(NonEmpty(texts)));
    var a, b := Map(BodyLength, ys), Map(BodyLength, texts);
    hide Delivered, AllWellHeaded, NonEmpty;
    forall i | 0 <= i < |texts| ensures a[i] <= b[i] && (|texts[i]| == size + HeaderLength ==> a[i] < b[i]) {
      assert AllWellHeaded(ys) ==> WellHeaded(ys[i]) by { HeadedAt(ys, i); }
      DeliveredBody(size, texts[i]);
    }
    SumTight(a, b);
    forall i | 0 <= i < |texts| ensures |texts[i]| < size + HeaderLength {
      assert a[i] == b[i];
    }
  }

  lemma HeadedAt(ys: seq<seq<byte>>, i: nat)
    requires i < |ys|
    ensures AllWellHeaded(ys) ==> WellHeaded(ys[i])
  {
  }

  /** Whatever order they are opened in: if all come back with the right bodies, they were deliverable. */
  lemma OpenedOnlyIfDeliverable(size: nat, xs: seq<Option<seq<byte>>>, texts: seq<seq<byte>>)
    requires multiset(xs) == multiset(DeliveredAll(size, texts))
    requires forall i :: 0 <= i < |texts| ==> TextOk(size, texts[i])
    requires AllPresent(xs) && AllWellHeaded(Present(xs)) && Distinct(Headers(NonEmpty(Present(xs))))
    requires multiset(Bodies(NonEmpty(Present(xs)))) == multiset(Bodies(NonEmpty(texts)))
    ensures Deliverable(size, texts)
  {
    OpenedOnlyIfShort(size, xs, texts);
    hide Delivered, AllWellHeaded, Short, WellHeaded, NonEmpty, Distinct;
    PresentPermutation(size, xs, texts);
    HeadersStayDistinct(Present(xs), texts);
  }

  lemma HeadersStayDistinct(a: seq<seq<byte>>, b: seq<seq<byte>>)
    requires multiset(a) == multiset(b) && Distinct(Headers(NonEmpty(a)))
    ensures Distinct(Headers(NonEmpty(b)))
  {
    HeadersBodiesPermutation(a, b);
    DistinctPermutation(Headers(NonEmpty(a)), Headers(NonEmpty(b)));
  }

  lemma OpenedOnlyIfShort(size: nat, xs: seq<Option<seq<byte>>>, texts: seq<seq<byte>>)
    requires multiset(xs) == multiset(DeliveredAll(size, texts))
    requires forall i :: 0 <= i < |texts| ==> TextOk(size, texts[i])
    requires AllPresent(xs) && AllWellHeaded(Present(xs))
    requires multiset(Bodies(NonEmpty(Present(xs)))) == multiset(Bodies(NonEmpty(texts)))
    ensures Short(size, texts)
  {
    hide NonEmpty, Delivered, AllWellHeaded, Short, WellHeaded, TextOk;
    var ys := DeliveredTexts(xs, DeliveredAll(size, texts));
    HeadedPermutation(ys, Present(xs));
    HeadersBodiesPermutation(ys, Present(xs));
    BodiesComeBackOnlyIfShort(size, texts, ys);
  }

  lemma DeliveredTexts(xs: seq<Option<seq<byte>>>, ds: seq<Option<seq<byte>>>) returns (ys: seq<seq<byte>>)
    requires multiset(xs) == multiset(ds) && AllPresent(xs)
    ensures |ys| == |ds| && forall i :: 0 <= i < |ds| ==> ds[i] == Some(ys[i])
    ensures multiset(ys) == multiset(Present(xs))
  {
    forall i | 0 <= i < |ds| ensures ds[i].Some? {
      assert ds[i] in multiset(xs);
      var j :| 0 <= j < |xs| && xs[j] == ds[i];
    }
    var f := (x: Option<seq<byte>>) => if x.Some? then x.value else [];
    MapPermutation(f, xs, ds);
    ys := Map(f, ds);
    assert Map(f, xs) == Present(xs);
  }

  // ----- the report

  /** Round r is stored as Done, and the client took part in it. */
  predicate DoneWith(t: State, r: int, id: Uuid)
    requires Valid(t)
  {
    var ri := GetRoundInfo(t, r);
    ri.Some? && ri.value.phase.Done? && id in ri.value.participants
  }

  /** The report is a success with the non-empty bodies of exactly these texts. */
  predicate ReportsTexts(v: Report, r: int, texts: seq<seq<byte>>) {
    && v.Sent? && v.result.round == r && v.result.succeeded && v.result.malice == NoMalice
    && multiset(v.result.messages) == multiset(Bodies(NonEmpty(texts)))
  }

  /** The report is a success with exactly what the participants said. */
  predicate ReportsSaid(size: nat, v: Report, r: int, ws: seq<Said>) {
    && v.Sent? && v.result.round == r && v.result.succeeded && v.result.malice == NoMalice
    && multiset(v.result.messages) == multiset(Words(Spoken(size, ws)))
  }

  /** The participant, with what it remembers, reports what was said exactly if that was sayable. */
  predicate ReportsExactly(size: nat, sha: Sha256, h: History, ri: RoundInfo, r: int, id: Uuid, mem: Memory) {
    && AllSaid(h, ri, r)
    && var ws := SaidIn(h, ri, r);
       ReportsSaid(size, Verdict(sha, id, ri, r + 1, mem), r, ws) <==> Sayable(size, ws)
  }

  lemma ReportsWords(size: nat, sha: Sha256, h: History, ri: RoundInfo, r: int, id: Uuid, mem: Memory)
    requires HistoryOk(size, h) && Known(sha, h, ri, r)
    requires ReportsTexts(Verdict(sha, id, ri, r + 1, mem), r, Submitted(sha, h, ri, r))
             <==> Deliverable(size, Submitted(sha, h, ri, r))
    ensures ReportsExactly(size, sha, h, ri, r, id, mem)
  {
    hide HistoryOk, Known, Deliverable, Sayable, Verdict, Meant, NonEmpty, Spoken;
    SubmittedMeant(size, sha, h, ri, r);
    var ws, texts := SaidIn(h, ri, r), Submitted(sha, h, ri, r);
    DeliverableExactly(size, ws, texts);
    BodiesAreWords(size, ws, texts);
  }

  lemma ReportsIf(size: nat, sha: Sha256, h: History, ri: RoundInfo, r: int, id: Uuid, mem: Memory)
    requires HistoryOk(size, h) && RoundGood(sha, h, ri, r) && ri.phase.Done? && Known(sha, h, ri, r)
    requires id in ri.participants && Remembers(mem, ri) && Deliverable(size, Submitted(sha, h, ri, r))
    ensures ReportsTexts(Verdict(sha, id, ri, r + 1, mem), r, Submitted(sha, h, ri, r))
  {
    DoneTrustworthy(size, sha, h, ri, r, mem);
    hide RoundGood, HistoryOk, Known, Verdict, Trustworthy, NonEmpty, Deliverable;
    SucceededExactly(sha, id, ri, r + 1, mem);
  }

  lemma ReportsOnlyIf(size: nat, sha: Sha256, h: History, ri: RoundInfo, r: int, id: Uuid, mem: Memory)
    requires HistoryOk(size, h) && RoundGood(sha, h, ri, r) && ri.phase.Done? && Known(sha, h, ri, r)
    requires id in ri.participants
    requires ReportsTexts(Verdict(sha, id, ri, r + 1, mem), r, Submitted(sha, h, ri, r))
    ensures Deliverable(size, Submitted(sha, h, ri, r))
  {
    DoneRoundDelivers(size, sha, h, ri, r);
    SucceededExactly(sha, id, ri, r + 1, mem);
    DoneLengths(sha, h, ri, r);
    var xs, texts := Opened(ri.crypto.value, ri.revealedKeys, ri.messages), Submitted(sha, h, ri, r);
    forall i | 0 <= i < |texts| ensures TextOk(size, texts[i]) {
      SubmittedOk(size, sha, h, ri, r, i);
    }
    hide RoundGood, HistoryOk, Known, Verdict, NonEmpty, Deliverable;
    OpenedOnlyIfDeliverable(size, xs, texts);
  }

  /**
   * In every run: a participant that remembers a Done round reports success with exactly the non-empty texts that the
   * users chose if, and only if, none has the full size and their headers got different random bytes.
   */
  lemma RunReports(size: nat, sha: Sha256, run: seq<System>, i: nat, r: int, id: Uuid, mem: Memory)
    requires IsRun(size, sha, run) && i <= |run[|run| - 1].log|
    requires DoneWith(StateAt(run[|run| - 1].log, i), r, id)
    requires Remembers(mem, GetRoundInfo(StateAt(run[|run| - 1].log, i), r).value)
    ensures var h, ri := run[|run| - 1].history, GetRoundInfo(StateAt(run[|run| - 1].log, i), r).value;
            ReportsExactly(size, sha, h, ri, r, id, mem)
  {
    RunKeepsInv(size, sha, run);
    var sys := run[|run| - 1];
    var ri := GetRoundInfo(StateAt(sys.log, i), r).value;
    hide Inv, StateAt, IsRun, RoundGood, HistoryOk, Known, ReportsTexts, Deliverable, Verdict;
    StoredGood(size, sha, sys, i, r);
    DoneKeys(size, sha, sys.history, ri, r);
    if Deliverable(size, Submitted(sha, sys.history, ri, r)) {
      ReportsIf(size, sha, sys.history, ri, r, id, mem);
    }
    if ReportsTexts(Verdict(sha, id, ri, r + 1, mem), r, Submitted(sha, sys.history, ri, r)) {
      ReportsOnlyIf(size, sha, sys.history, ri, r, id, mem);
    }
    ReportsWords(size, sha, sys.history, ri, r, id, mem);
  }

  // ----- the clients of a run remember

  /** What the client passes to sendRoundResult. */
  function MemoryOf(l: Local): Memory {
    Memory(l.revealKeyHashes, l.revealKeyHashesRound, l.messagesBeforeReveal, l.messagesWhenScrambled)
  }

  /** The marks of a participant of a Done round that has not moved past it are for that round. */
  lemma MarksAtDone(sys: System, k: nat, r: int, o: RoundInfo, id: Uuid)
    requires NothingLost(sys) && Remembering(sys) && k < |sys.log| && EndsIn(sys.log, k, r, o, id)
    ensures id in sys.clients
    ensures r <= sys.clients[id].local.lastScrambledRound && r <= sys.clients[id].local.revealKeyHashesRound
  {
    hide StateAt, Acted, RepInvariant;
    var i := ActedBy(sys.log, k, id, Scrambles);
    var j := k;
    if Acted(Current(StateAt(sys.log, k)), id, Reveals) {
      j := ActedBy(sys.log, k, id, Reveals);
    }
    SentIsCovered(sys, i);
    SentIsCovered(sys, j);
  }

  lemma SentIsCovered(sys: System, i: nat)
    requires NothingLost(sys) && Remembering(sys) && i < |sys.log|
    ensures Covered(sys.clients, sys.log[i])
  {
    hide Covered;
    assert SentBefore(sys.issued, sys.log[i], i);
  }

  /** There are as many messages as participants, as honest participants leave it. */
  predicate AlwaysComplete(log: seq<Op>) {
    forall i :: 0 <= i <= |log| ==> |Current(StateAt(log, i)).messages| == |Current(StateAt(log, i)).participants|
  }

  /** A snapshot taken in the round's scramble phase still fits when the round ends. */
  lemma ScrambleFits(log: seq<Op>, i: nat, n: nat, k: nat, r: int, o: RoundInfo, id: Uuid)
    requires i <= |log| && k < |log| && ScrambleAt(log, i, r, n) && EndsIn(log, k, r, o, id) && AlwaysComplete(log)
    ensures n == |o.messages|
  {
    assert |Current(StateAt(log, i)).messages| == |Current(StateAt(log, i)).participants|;
    assert |Current(StateAt(log, k)).messages| == |Current(StateAt(log, k)).participants|;
    hide StateAt, Valid, Acted, AlwaysComplete;
    SameRoundBefore(log, i, k);
    StateAtEvolves(log, i, k);
  }

  /** So does one taken in its reveal phase. */
  lemma RevealFits(log: seq<Op>, i: nat, hashes: seq<seq<byte>>, messages: seq<Msg>, k: nat, r: int, o: RoundInfo,
                   id: Uuid)
    requires i <= |log| && k < |log| && RevealAt(log, i, r, hashes, messages) && EndsIn(log, k, r, o, id)
    ensures hashes == o.revealKeyHashes && messages == o.messages
  {
    hide StateAt, Valid, Acted;
    SameRoundBefore(log, i, k);
    StateAtEvolves(log, i, k);
  }

  lemma SnapshotsFit(log: seq<Op>, l: Local, cursor: nat, k: nat, r: int, o: RoundInfo, id: Uuid)
    requires cursor <= |log| && k < |log| && SnapshotsOk(log, l, cursor) && EndsIn(log, k, r, o, id)
    requires l.lastScrambledRound == r && l.revealKeyHashesRound == r && AlwaysComplete(log)
    ensures Remembers(MemoryOf(l), o)
  {
    assert 0 <= r;
    hide StateAt, Valid, Acted, AlwaysComplete, ScrambleAt, RevealAt, EndsIn;
    var i :| 0 <= i <= cursor && ScrambleAt(log, i, l.lastScrambledRound, l.messagesWhenScrambled);
    var j :| 0 <= j <= cursor
             && RevealAt(log, j, l.revealKeyHashesRound, l.revealKeyHashes, l.messagesBeforeReveal);
    ScrambleFits(log, i, l.messagesWhenScrambled, k, r, o, id);
    RevealFits(log, j, l.revealKeyHashes, l.messagesBeforeReveal, k, r, o, id);
  }

  lemma SameRoundBefore(log: seq<Op>, i: nat, k: nat)
    requires i <= |log| && k < |log| && StateAt(log, i).round == StateAt(log, k).round < StateAt(log, k + 1).round
    ensures i <= k
  {
    if i > k {
      StateAtEvolves(log, k + 1, i);
    }
  }

  lemma RunComplete(size: nat, sha: Sha256, run: seq<System>)
    requires IsRun(size, sha, run)
    ensures AlwaysComplete(run[|run| - 1].log)
  {
    RunKeepsInv(size, sha, run);
    var sys := run[|run| - 1];
    hide IsRun, Inv, StateAt, LayerInvariant;
    forall i | 0 <= i <= |sys.log|
      ensures |Current(StateAt(sys.log, i)).messages| == |Current(StateAt(sys.log, i)).participants|
    {
      InvState(size, sha, sys, i);
      CurrentGood(sha, sys.history, StateAt(sys.log, i));
    }
  }

  lemma InvState(size: nat, sha: Sha256, sys: System, i: nat)
    requires Inv(size, sha, sys) && i <= |sys.log|
    ensures StateGood(sha, sys.history, StateAt(sys.log, i))
  {
  }

  /**
   * In every run: a participant of a Done round that has not moved past it holds the reveal snapshot of that round, and
   * remembers it right, whatever updates it has missed and however often it was inactive.
   */
  lemma RunRemembers(size: nat, sha: Sha256, run: seq<System>, i: nat, r: int, id: Uuid)
    requires IsRun(size, sha, run) && i <= |run[|run| - 1].log|
    requires DoneWith(StateAt(run[|run| - 1].log, i), r, id)
    ensures var sys := run[|run| - 1];
            && id in sys.clients && sys.clients[id].cursor <= |sys.log|
            && (StateAt(sys.log, sys.clients[id].cursor).round <= r ==>
                  && sys.clients[id].local.revealKeyHashesRound == r
                  && Remembers(MemoryOf(sys.clients[id].local), GetRoundInfo(StateAt(sys.log, i), r).value))
  {
    assert run != [];
    hide *;
    var sys := run[|run| - 1];
    RunLosesNothing(size, sha, run);
    RunRemembering(size, sha, run);
    RunComplete(size, sha, run);
    var k := DoneAt(sys.log, i, r, id);
    RemembersEnd(sys, k, r, GetRoundInfo(StateAt(sys.log, i), r).value, id);
  }

  lemma RemembersEnd(sys: System, k: nat, r: int, o: RoundInfo, id: Uuid)
    requires NothingLost(sys) && Remembering(sys) && AlwaysComplete(sys.log)
    requires k < |sys.log| && EndsIn(sys.log, k, r, o, id)
    ensures id in sys.clients && sys.clients[id].cursor <= |sys.log|
    ensures StateAt(sys.log, sys.clients[id].cursor).round <= r ==>
              sys.clients[id].local.revealKeyHashesRound == r && Remembers(MemoryOf(sys.clients[id].local), o)
  {
    hide *;
    MarksAtDone(sys, k, r, o, id);
    ClientSnapshots(sys, id);
    if StateAt(sys.log, sys.clients[id].cursor).round <= r {
      SnapshotsFit(sys.log, sys.clients[id].local, sys.clients[id].cursor, k, r, o, id);
    }
  }

  /** Where a Done round ended: out of a reveal phase with the same lists, in which the participant had acted. */
  predicate EndsIn(log: seq<Op>, k: nat, r: int, o: RoundInfo, id: Uuid)
    requires k < |log|
  {
    var ri := Current(StateAt(log, k));
    && StateAt(log, k).round == r && StateAt(log, k + 1).round == r + 1 && ri.phase.Reveal?
    && o.participants == ri.participants && o.messages == ri.messages && o.revealKeyHashes == ri.revealKeyHashes
    && Acted(ri, id, Scrambles) && (Acted(ri, id, Reveals) || (ActsBy(log[k], id, Reveals) && log[k].r == r))
  }

  lemma DoneAt(log: seq<Op>, i: nat, r: int, id: Uuid) returns (k: nat)
    requires i <= |log| && DoneWith(StateAt(log, i), r, id)
    ensures k < |log| && EndsIn(log, k, r, GetRoundInfo(StateAt(log, i), r).value, id)
  {
    DoneIsOver(log, i, r);
    k := RoundEnd(log, i, r);
    StateAtNext(log, k);
    hide StateAt, Handle, Apply, Acted, RepInvariant;
    EndedRound(StateAt(log, k), log[k]);
    DoneFromReveal(StateAt(log, k), log[k], id);
  }

  lemma ClientSnapshots(sys: System, id: Uuid)
    requires Remembering(sys) && id in sys.clients
    ensures var cs := sys.clients[id];
            && cs.cursor <= |sys.log| && SnapshotsOk(sys.log, cs.local, cs.cursor)
            && cs.local.lastScrambledRound <= StateAt(sys.log, cs.cursor).round
            && cs.local.revealKeyHashesRound <= StateAt(sys.log, cs.cursor).round
  {
    assert ClientRemembers(sys.log, id, sys.clients[id]);
  }

  lemma DoneIsOver(log: seq<Op>, i: nat, r: int)
    requires i <= |log|
    requires var ri := GetRoundInfo(StateAt(log, i), r); ri.Some? && ri.value.phase.Done?
    ensures 0 <= r < StateAt(log, i).round
  {
    hide StateAt, RepInvariant;
  }

  // ----- what the users are told

  /**
   * The promise to the users, over whole runs: a participant of a Done round that has not moved past it would report
   * success with exactly the non-empty texts that the users chose if, and only if, they were sayable.
   */
  lemma ParticipantReports(size: nat, sha: Sha256, run: seq<System>, i: nat, r: int, id: Uuid)
    requires IsRun(size, sha, run) && i <= |run[|run| - 1].log|
    requires DoneWith(StateAt(run[|run| - 1].log, i), r, id)
    ensures var sys, ri := run[|run| - 1], GetRoundInfo(StateAt(run[|run| - 1].log, i), r).value;
            && id in sys.clients && sys.clients[id].cursor <= |sys.log|
            && (StateAt(sys.log, sys.clients[id].cursor).round <= r ==>
                  ReportsExactly(size, sha, sys.history, ri, r, id, MemoryOf(sys.clients[id].local)))
  {
    assert run != [];
    hide *;
    RunRemembers(size, sha, run, i, r, id);
    var sys := run[|run| - 1];
    if StateAt(sys.log, sys.clients[id].cursor).round <= r {
      RunReports(size, sha, run, i, r, id, MemoryOf(sys.clients[id].local));
    }
  }

  // ----- when a text is lost

  /** For a participant that remembers a Done round, the verdict is the one on the opened texts. */
  lemma VerdictOpened(size: nat, sha: Sha256, h: History, ri: RoundInfo, r: int, id: Uuid, mem: Memory)
    requires HistoryOk(size, h) && RoundGood(sha, h, ri, r) && ri.phase.Done?
    requires id in ri.participants && Remembers(mem, ri)
    ensures ri.crypto.Some?
    ensures Verdict(sha, id, ri, r + 1, mem)
         == OpenedVerdict(r + 1, Opened(ri.crypto.value, ri.revealedKeys, ri.messages))
  {
    DoneKeys(size, sha, h, ri, r);
    DoneLengths(sha, h, ri, r);
    hide RoundGood, HistoryOk, Known, UnderStack, Opened, OpenedVerdict, HashKey;
    KeysTrusted(sha, ri, mem);
    DifferPrefix(ri.messages, mem.messagesBeforeReveal);
    DifferPrefix(KeyHashes(sha, ri.revealedKeys), mem.revealKeyHashes);
  }

  /** A text at the maximum size without a zero byte does not come back at all. */
  lemma LostText(size: nat, text: seq<byte>)
    requires TextOk(size, text)
    ensures Delivered(size, text) == None <==> |text| == size + HeaderLength && 0 !in text
  {
    assert text[0] == text[..HeaderLength][0] == 13;
    AfterFirstZeroExists(text);
  }

  /**
   * In every run: if one user said a text of the full size and no byte of it or of its header was zero, then no
   * participant that remembers the round can report it: they all panic, whatever the others said.
   */
  lemma RunLostText(size: nat, sha: Sha256, run: seq<System>, i: nat, r: int, id: Uuid, mem: Memory)
    requires IsRun(size, sha, run) && i <= |run[|run| - 1].log|
    requires DoneWith(StateAt(run[|run| - 1].log, i), r, id)
    requires Remembers(mem, GetRoundInfo(StateAt(run[|run| - 1].log, i), r).value)
    ensures var h, ri := run[|run| - 1].history, GetRoundInfo(StateAt(run[|run| - 1].log, i), r).value;
            PanicsOnLostText(size, sha, h, ri, r, id, mem)
  {
    RunKeepsInv(size, sha, run);
    var sys := run[|run| - 1];
    var ri := GetRoundInfo(StateAt(sys.log, i), r).value;
    hide Inv, StateAt, IsRun, RoundGood, HistoryOk, PanicsOnLostText;
    StoredGood(size, sha, sys, i, r);
    DonePanics(size, sha, sys.history, ri, r, id, mem);
  }

  /** A text of the full size without a zero byte makes the report panic. */
  predicate PanicsOnLostText(size: nat, sha: Sha256, h: History, ri: RoundInfo, r: int, id: Uuid, mem: Memory) {
    && AllSaid(h, ri, r)
    && var ws := SaidIn(h, ri, r);
       (exists j :: 0 <= j < |ws| && |ws[j].text| == size && 0 !in ws[j].random && 0 !in ws[j].text) ==>
         Verdict(sha, id, ri, r + 1, mem) == Panics
  }

  lemma DonePanics(size: nat, sha: Sha256, h: History, ri: RoundInfo, r: int, id: Uuid, mem: Memory)
    requires HistoryOk(size, h) && RoundGood(sha, h, ri, r) && ri.phase.Done?
    requires id in ri.participants && Remembers(mem, ri)
    ensures PanicsOnLostText(size, sha, h, ri, r, id, mem)
  {
    DoneRoundDelivers(size, sha, h, ri, r);
    VerdictOpened(size, sha, h, ri, r, id, mem);
    SubmittedMeant(size, sha, h, ri, r);
    var xs, texts := Opened(ri.crypto.value, ri.revealedKeys, ri.messages), Submitted(sha, h, ri, r);
    var ws := SaidIn(h, ri, r);
    if j :| 0 <= j < |ws| && |ws[j].text| == size && 0 !in ws[j].random && 0 !in ws[j].text {
      SubmittedOk(size, sha, h, ri, r, j);
      assert Means(size, ws[j], texts[j]);
      LostSaying(size, ws[j], texts[j]);
      LostText(size, texts[j]);
      hide RoundGood, HistoryOk, Known, Verdict, Opened, Delivered;
      assert DeliveredAll(size, texts)[j] == None;
      assert None in multiset(DeliveredAll(size, texts));
      assert None in xs;
    }
  }
}
