/** The check a client makes before it reports a round to its user: sendRoundResult in anonbcast/client.go. */
module RoundResults {
  import opened Bytes
  import opened Crypto
  import opened Ops
  import opened Rounds
  import opened Layers
  import opened ClientSteps

  /** Why a result reports possible malice. */
  datatype Malice =
    | NoMalice | FailedAfterReveal | CountChanged | MessagesChanged | WrongRevealKey | BadHeader | DuplicateHeader

  datatype RoundResult = RoundResult(round: int, succeeded: bool, messages: seq<seq<byte>>, malice: Malice)

  /** The result sent to the user; nothing for a client that did not take part; a Go panic. */
  datatype Report = Sent(result: RoundResult) | NotSent | Panics

  /** What the client remembers of a round when it ends. */
  datatype Memory = Memory(
    revealKeyHashes: seq<seq<byte>>,
    revealKeyHashesRound: int,
    messagesBeforeReveal: seq<Msg>,
    messagesWhenScrambled: nat)

  function Reject(round: int, malice: Malice): Report {
    Sent(RoundResult(round - 1, false, [], malice))
  }

  // ----- what the result should be

  /** Some position that both lists have differs. */
  predicate Differ<T(==)>(a: seq<T>, b: seq<T>) {
    exists i :: 0 <= i < |a| && i < |b| && a[i] != b[i]
  }

  function KeyHashes(sha: Sha256, keys: seq<PrivateKey>): (r: seq<seq<byte>>)
    ensures |r| == |keys| && forall i :: 0 <= i < |keys| ==> r[i] == HashKey(sha, keys[i])
  {
    seq(|keys|, i requires 0 <= i < |keys| => HashKey(sha, keys[i]))
  }

  /** The messages with all reveal keys taken off and the padding removed. */
  function Opened(c: Crypto, keys: seq<PrivateKey>, messages: seq<Msg>): (r: seq<Option<seq<byte>>>)
    ensures |r| == |messages|
    ensures forall i :: 0 <= i < |messages| ==> r[i] == c.ExtractMsg(Peel(c, keys, messages[i]))
  {
    seq(|messages|, i requires 0 <= i < |messages| => c.ExtractMsg(Peel(c, keys, messages[i])))
  }

  predicate AllPresent(xs: seq<Option<seq<byte>>>) {
    forall i :: 0 <= i < |xs| ==> xs[i].Some?
  }

  function Present(xs: seq<Option<seq<byte>>>): (r: seq<seq<byte>>)
    requires AllPresent(xs)
    ensures |r| == |xs| && forall i :: 0 <= i < |xs| ==> r[i] == xs[i].value
  {
    seq(|xs|, i requires 0 <= i < |xs| => xs[i].value)
  }

  predicate WellHeaded(x: seq<byte>) {
    |x| >= HeaderLength && ValidHeader(x[..HeaderLength])
  }

  predicate AllWellHeaded(xs: seq<seq<byte>>) {
    forall i :: 0 <= i < |xs| ==> WellHeaded(xs[i])
  }

  /** The first text without a good header is long enough to have one. */
  predicate FirstBadIsLong(xs: seq<seq<byte>>) {
    if xs == [] then false
    else if WellHeaded(xs[0]) then FirstBadIsLong(xs[1..])
    else |xs[0]| >= HeaderLength
  }

  /** The texts that say something beyond their header. */
  function NonEmpty(xs: seq<seq<byte>>): (r: seq<seq<byte>>)
    ensures forall i :: 0 <= i < |r| ==> |r[i]| > HeaderLength
  {
    if xs == [] then []
    else NonEmpty(xs[..|xs| - 1]) + if |xs[|xs| - 1]| > HeaderLength then [xs[|xs| - 1]] else []
  }

  function Headers(xs: seq<seq<byte>>): (r: seq<seq<byte>>)
    requires forall i :: 0 <= i < |xs| ==> |xs[i]| >= HeaderLength
    ensures |r| == |xs| && forall i :: 0 <= i < |xs| ==> r[i] == xs[i][..HeaderLength]
  {
    seq(|xs|, i requires 0 <= i < |xs| => xs[i][..HeaderLength])
  }

  function Bodies(xs: seq<seq<byte>>): (r: seq<seq<byte>>)
    requires forall i :: 0 <= i < |xs| ==> |xs[i]| >= HeaderLength
    ensures |r| == |xs| && forall i :: 0 <= i < |xs| ==> r[i] == xs[i][HeaderLength..]
  {
    seq(|xs|, i requires 0 <= i < |xs| => xs[i][HeaderLength..])
  }

  function OpenedVerdict(round: int, xs: seq<Option<seq<byte>>>): Report {
    if !AllPresent(xs) then Panics
    else
      var texts := Present(xs);
      if !AllWellHeaded(texts) then if FirstBadIsLong(texts) then Reject(round, BadHeader) else Panics
      else if !Distinct(Headers(NonEmpty(texts))) then Reject(round, DuplicateHeader)
      else Sent(RoundResult(round - 1, true, Bodies(NonEmpty(texts)), NoMalice))
  }

  function DoneVerdict(sha: Sha256, ri: RoundInfo, round: int, mem: Memory): Report {
    if |ri.messages| != mem.messagesWhenScrambled then Reject(round, CountChanged)
    else if Differ(ri.messages, mem.messagesBeforeReveal) then Reject(round, MessagesChanged)
    else if |mem.messagesBeforeReveal| < |ri.messages| then Panics
    else if ri.messages == [] then OpenedVerdict(round, [])
    else if ri.crypto.None? then
      if ri.revealedKeys != [] && mem.revealKeyHashes != []
         && HashKey(sha, ri.revealedKeys[0]) != mem.revealKeyHashes[0]
      then Reject(round, WrongRevealKey) else Panics
    else if Differ(KeyHashes(sha, ri.revealedKeys), mem.revealKeyHashes) then Reject(round, WrongRevealKey)
    else if |mem.revealKeyHashes| < |ri.revealedKeys| then Panics
    else OpenedVerdict(round, Opened(ri.crypto.value, ri.revealedKeys, ri.messages))
  }

  function Verdict(sha: Sha256, id: Uuid, ri: RoundInfo, round: int, mem: Memory): Report {
    if id !in ri.participants then NotSent
    else if ri.phase.Failed? then
      Reject(round, if mem.revealKeyHashesRound == round - 1 then FailedAfterReveal else NoMalice)
    else DoneVerdict(sha, ri, round, mem)
  }

  // ----- the nested loops

  /** One message with the reveal keys checked and taken off; the error is a wrong hash or a panic. */
  datatype PeelResult = Peeled(m: Msg) | WrongKey | PeelPanics

  method PeelChecked(sha: Sha256, c: Crypto, keys: seq<PrivateKey>, hashes: seq<seq<byte>>, m: Msg)
    returns (r: PeelResult)
    ensures Differ(KeyHashes(sha, keys), hashes) ==> r == WrongKey
    ensures !Differ(KeyHashes(sha, keys), hashes) && |hashes| < |keys| ==> r == PeelPanics
    ensures !Differ(KeyHashes(sha, keys), hashes) && |hashes| >= |keys| ==> r == Peeled(Peel(c, keys, m))
  {
    var om := m;
    var all := KeyHashes(sha, keys);
    for i := 0 to |keys|
      invariant i <= |hashes| && forall j :: 0 <= j < i ==> all[j] == hashes[j]
      invariant Peel(c, keys, m) == Peel(c, keys[i..], om)
    {
      if i >= |hashes| {
        return PeelPanics;
      }
      var ok := HashEquals(sha, keys[i], hashes[i]);
      if !ok {
        assert all[i] != hashes[i];
        return WrongKey;
      }
      om := c.Decrypt(keys[i], om);
      assert keys[i..][1..] == keys[i + 1..];
    }
    assert keys[|keys|..] == [];
    r := Peeled(om);
  }

  /** The messages equal the ones remembered; None is an index out of range. */
  method CompareMessages(a: seq<Msg>, b: seq<Msg>) returns (r: Option<bool>)
    ensures Differ(a, b) ==> r == Some(false)
    ensures !Differ(a, b) ==> r == if |b| < |a| then None else Some(true)
  {
    for i := 0 to |a|
      invariant i <= |b| && forall j :: 0 <= j < i ==> a[j] == b[j]
    {
      if i >= |b| {
        return None;
      }
      var ok := MsgEqual(a[i], b[i]);
      if !ok {
        assert a[i] != b[i];
        return Some(false);
      }
    }
    r := Some(true);
  }

  lemma SnocSplit<T>(s: seq<T>, i: nat)
    requires i < |s|
    ensures s[..i + 1][..i] == s[..i] && s[..i + 1][i] == s[i]
  {
  }

  /** A good prefix, and then a bad text: its length decides between an error and a panic. */
  lemma {:induction false} FirstBadAt(xs: seq<seq<byte>>, i: nat)
    requires i < |xs| && !WellHeaded(xs[i])
    requires forall j :: 0 <= j < i ==> WellHeaded(xs[j])
    ensures FirstBadIsLong(xs) <==> |xs[i]| >= HeaderLength
    decreases i
  {
    if i > 0 {
      FirstBadAt(xs[1..], i - 1);
    }
  }

  /** Headers are checked one by one, and the texts that say something are kept. */
  method VerifyHeaders(texts: seq<seq<byte>>) returns (r: Option<bool>, kept: seq<seq<byte>>)
    ensures AllWellHeaded(texts) ==> r == Some(true) && kept == NonEmpty(texts)
    ensures !AllWellHeaded(texts) ==> r == if FirstBadIsLong(texts) then Some(false) else None
  {
    kept := [];
    for i := 0 to |texts|
      invariant forall j :: 0 <= j < i ==> WellHeaded(texts[j])
      invariant kept == NonEmpty(texts[..i])
    {
      var m := texts[i];
      if |m| < HeaderLength {
        FirstBadAt(texts, i);
        return None, [];
      }
      if !ValidHeader(m[..HeaderLength]) {
        FirstBadAt(texts, i);
        return Some(false), [];
      }
      SnocSplit(texts, i);
      if |m| > HeaderLength {
        kept := kept + [m];
      }
    }
    assert texts[..|texts|] == texts;
    r := Some(true);
  }

  /** The double loop over the headers. */
  method AnyDuplicate(headers: seq<seq<byte>>) returns (dup: bool)
    ensures dup <==> !Distinct(headers)
  {
    for i := 0 to |headers|
      invariant forall a, b :: 0 <= a < i && a < b < |headers| ==> headers[a] != headers[b]
    {
      for j := 0 to |headers|
        invariant forall b :: i < b < j ==> headers[i] != headers[b]
      {
        if i < j && headers[i] == headers[j] {
          return true;
        }
      }
    }
    dup := false;
  }

  /** The messages of a Done round, opened; the error is a wrong hash or a panic. */
  method OpenAll(sha: Sha256, c: Crypto, ri: RoundInfo, hashes: seq<seq<byte>>)
    returns (texts: seq<seq<byte>>, failed: Option<PeelResult>)
    ensures ri.messages != [] && Differ(KeyHashes(sha, ri.revealedKeys), hashes) ==> failed == Some(WrongKey)
    ensures ri.messages != [] && !Differ(KeyHashes(sha, ri.revealedKeys), hashes) && |hashes| < |ri.revealedKeys|
            ==> failed == Some(PeelPanics)
    ensures ri.messages == []
            || (!Differ(KeyHashes(sha, ri.revealedKeys), hashes) && |hashes| >= |ri.revealedKeys|) ==>
              var xs := Opened(c, ri.revealedKeys, ri.messages);
              if AllPresent(xs) then failed == None && texts == Present(xs) else failed == Some(PeelPanics)
  {
    hide Differ, Peel, HashKey;
    texts := [];
    for k := 0 to |ri.messages|
      invariant |texts| == k
      invariant k > 0 ==> !Differ(KeyHashes(sha, ri.revealedKeys), hashes) && |hashes| >= |ri.revealedKeys|
      invariant forall j :: 0 <= j < k ==>
        c.ExtractMsg(Peel(c, ri.revealedKeys, ri.messages[j])) == Some(texts[j])
    {
      var p := PeelChecked(sha, c, ri.revealedKeys, hashes, ri.messages[k]);
      if !p.Peeled? {
        return [], Some(p);
      }
      var x := c.ExtractMsg(p.m);
      if x.None? {
        assert Opened(c, ri.revealedKeys, ri.messages)[k].None?;
        return [], Some(PeelPanics);
      }
      texts := texts + [x.value];
    }
    failed := None;
  }

  /** sendRoundResult, for the round info of the round that has just ended. */
  method SendRoundResult(sha: Sha256, id: Uuid, ri: RoundInfo, round: int, mem: Memory) returns (r: Report)
    requires ri.phase.Done? || ri.phase.Failed?
    ensures r == Verdict(sha, id, ri, round, mem)
    ensures r == NotSent <==> id !in ri.participants
    ensures r.Sent? ==> r.result.round == round - 1 && (r.result.succeeded ==> ri.phase.Done?)
  {
    var me := false;
    for i := 0 to |ri.participants|
      invariant me <==> id in ri.participants[..i]
    {
      SnocSplit(ri.participants, i);
      if ri.participants[i] == id {
        me := true;
      }
    }
    assert ri.participants[..|ri.participants|] == ri.participants;
    if !me {
      return NotSent;
    }
    if ri.phase.Failed? {
      return Reject(round, if mem.revealKeyHashesRound == round - 1 then FailedAfterReveal else NoMalice);
    }
    if |ri.messages| != mem.messagesWhenScrambled {
      return Reject(round, CountChanged);
    }
    var same := CompareMessages(ri.messages, mem.messagesBeforeReveal);
    if same.None? {
      return Panics;
    }
    if !same.value {
      return Reject(round, MessagesChanged);
    }
    if ri.messages != [] && ri.crypto.None? {
      if ri.revealedKeys != [] && mem.revealKeyHashes != [] {
        var ok := HashEquals(sha, ri.revealedKeys[0], mem.revealKeyHashes[0]);
        if !ok {
          return Reject(round, WrongRevealKey);
        }
      }
      return Panics;
    }
    var c := if ri.crypto.Some? then ri.crypto.value else MasseyOmuraCrypto([]);
    var texts, failed := OpenAll(sha, c, ri, mem.revealKeyHashes);
    if failed.Some? {
      return if failed.value.WrongKey? then Reject(round, WrongRevealKey) else Panics;
    }
    assert ri.messages == [] ==> texts == [] && Present([]) == [];
    var ok, kept := VerifyHeaders(texts);
    if ok.None? {
      return Panics;
    }
    if !ok.value {
      return Reject(round, BadHeader);
    }
    var dup := AnyDuplicate(Headers(kept));
    if dup {
      return Reject(round, DuplicateHeader);
    }
    r := Sent(RoundResult(round - 1, true, Bodies(kept), NoMalice));
  }

  // ----- what success means

  /** Everything that has to be right about a Done round. */
  predicate Trustworthy(sha: Sha256, ri: RoundInfo, mem: Memory) {
    && |ri.messages| == mem.messagesWhenScrambled
    && |ri.messages| <= |mem.messagesBeforeReveal|
    && ri.messages == mem.messagesBeforeReveal[..|ri.messages|]
    && (ri.messages != [] ==>
          && ri.crypto.Some?
          && |ri.revealedKeys| <= |mem.revealKeyHashes|
          && KeyHashes(sha, ri.revealedKeys) == mem.revealKeyHashes[..|ri.revealedKeys|]
          && var xs := Opened(ri.crypto.value, ri.revealedKeys, ri.messages);
             && AllPresent(xs) && AllWellHeaded(Present(xs))
             && Distinct(Headers(NonEmpty(Present(xs)))))
  }

  lemma DifferPrefix<T>(a: seq<T>, b: seq<T>)
    requires |a| <= |b|
    ensures !Differ(a, b) <==> a == b[..|a|]
  {
    if a != b[..|a|] {
      var i :| 0 <= i < |a| && a[i] != b[i];
    }
  }

  /**
   * A Done round is reported as succeeded exactly when everything is right, and then with the non-empty bodies in
   * order; every other report carries no message.
   */
  lemma SucceededExactly(sha: Sha256, id: Uuid, ri: RoundInfo, round: int, mem: Memory)
    requires ri.phase.Done? && id in ri.participants
    ensures var v := Verdict(sha, id, ri, round, mem);
            && (v.Sent? && v.result.succeeded <==> Trustworthy(sha, ri, mem))
            && (v.Sent? && !v.result.succeeded ==> v.result.messages == [] && v.result.malice != NoMalice)
            && (Trustworthy(sha, ri, mem) && ri.messages != [] ==>
                  v.result == RoundResult(round - 1, true,
                    Bodies(NonEmpty(Present(Opened(ri.crypto.value, ri.revealedKeys, ri.messages)))), NoMalice))
  {
    if |ri.messages| <= |mem.messagesBeforeReveal| {
      DifferPrefix(ri.messages, mem.messagesBeforeReveal);
    }
    if |ri.revealedKeys| <= |mem.revealKeyHashes| {
      DifferPrefix(KeyHashes(sha, ri.revealedKeys), mem.revealKeyHashes);
    }
    assert Present([]) == [];
    hide Peel, FirstBadIsLong, Differ, HashKey;
  }

  /** Nothing is sent exactly to those who did not take part, and every report is about the round before. */
  lemma ToldExactly(sha: Sha256, id: Uuid, ri: RoundInfo, round: int, mem: Memory)
    ensures var v := Verdict(sha, id, ri, round, mem);
            && (v == NotSent <==> id !in ri.participants)
            && (v.Sent? ==> v.result.round == round - 1)
  {
    hide Opened, KeyHashes, NonEmpty, FirstBadIsLong, Differ, HashKey, AllWellHeaded;
  }

  lemma {:induction false} FirstBadExists(xs: seq<seq<byte>>)
    ensures FirstBadIsLong(xs) ==> !AllWellHeaded(xs)
    ensures !FirstBadIsLong(xs) && !AllWellHeaded(xs) ==> exists i :: 0 <= i < |xs| && |xs[i]| < HeaderLength
  {
    if xs != [] && WellHeaded(xs[0]) {
      FirstBadExists(xs[1..]);
      assert forall i :: 0 < i < |xs| ==> xs[i] == xs[1..][i - 1];
    }
  }

  /** The check that a report of malice names has really failed. */
  predicate MaliceIsReal(sha: Sha256, ri: RoundInfo, mem: Memory, malice: Malice) {
    match malice
    case NoMalice => Trustworthy(sha, ri, mem)
    case FailedAfterReveal => false
    case CountChanged => |ri.messages| != mem.messagesWhenScrambled
    case MessagesChanged => Differ(ri.messages, mem.messagesBeforeReveal)
    case WrongRevealKey => Differ(KeyHashes(sha, ri.revealedKeys), mem.revealKeyHashes)
    case BadHeader =>
      && ri.crypto.Some? && AllPresent(Opened(ri.crypto.value, ri.revealedKeys, ri.messages))
      && !AllWellHeaded(Present(Opened(ri.crypto.value, ri.revealedKeys, ri.messages)))
    case DuplicateHeader =>
      && ri.crypto.Some? && AllPresent(Opened(ri.crypto.value, ri.revealedKeys, ri.messages))
      && !Distinct(Headers(NonEmpty(Present(Opened(ri.crypto.value, ri.revealedKeys, ri.messages)))))
  }

  /** Why sendRoundResult panics: the memory is too short, there is no crypto, or a text has no room for a header. */
  predicate PanicIsReal(ri: RoundInfo, mem: Memory) {
    || |mem.messagesBeforeReveal| < |ri.messages|
    || ri.crypto.None?
    || |mem.revealKeyHashes| < |ri.revealedKeys|
    || exists i :: 0 <= i < |ri.messages| &&
         var x := Opened(ri.crypto.value, ri.revealedKeys, ri.messages)[i];
         x.None? || |x.value| < HeaderLength
  }

  lemma OpenedVerdictReal(round: int, xs: seq<Option<seq<byte>>>)
    ensures var v := OpenedVerdict(round, xs);
            && v != NotSent
            && (v == Panics ==> exists i :: 0 <= i < |xs| && (xs[i].None? || |xs[i].value| < HeaderLength))
            && (v.Sent? ==>
                  match v.result.malice
                  case NoMalice => true
                  case BadHeader => AllPresent(xs) && !AllWellHeaded(Present(xs))
                  case DuplicateHeader => AllPresent(xs) && !Distinct(Headers(NonEmpty(Present(xs))))
                  case _ => false)
  {
    if AllPresent(xs) {
      FirstBadExists(Present(xs));
    }
    hide AllWellHeaded, NonEmpty, Distinct, FirstBadIsLong;
  }

  /** A Done round is never accused, and never panics the client, without a reason in the round and the memory. */
  lemma DoneVerdictReal(sha: Sha256, id: Uuid, ri: RoundInfo, round: int, mem: Memory)
    requires ri.phase.Done? && id in ri.participants
    ensures var v := Verdict(sha, id, ri, round, mem);
            && (v == Panics ==> PanicIsReal(ri, mem))
            && (v.Sent? ==> MaliceIsReal(sha, ri, mem, v.result.malice))
  {
    SucceededExactly(sha, id, ri, round, mem);
    if ri.messages == [] {
      EmptyReal(sha, ri, round, mem);
    } else if ri.crypto.None? {
      NoCryptoReal(sha, ri, round, mem);
    } else {
      OpenedReal(sha, ri, round, mem);
    }
    hide DoneVerdict, PanicIsReal, Trustworthy, Differ;
  }

  predicate VerdictReal(sha: Sha256, ri: RoundInfo, mem: Memory, v: Report) {
    && (v == Panics ==> PanicIsReal(ri, mem))
    && (v.Sent? && v.result.malice != NoMalice ==> MaliceIsReal(sha, ri, mem, v.result.malice))
  }

  lemma EmptyReal(sha: Sha256, ri: RoundInfo, round: int, mem: Memory)
    requires ri.messages == []
    ensures VerdictReal(sha, ri, mem, DoneVerdict(sha, ri, round, mem))
  {
    assert Present([]) == [];
    hide Trustworthy, Differ, Opened;
  }

  lemma NoCryptoReal(sha: Sha256, ri: RoundInfo, round: int, mem: Memory)
    requires ri.messages != [] && ri.crypto.None?
    ensures VerdictReal(sha, ri, mem, DoneVerdict(sha, ri, round, mem))
  {
    hide Trustworthy, Opened, OpenedVerdict, HashKey;
    if ri.revealedKeys != [] && mem.revealKeyHashes != [] {
      assert KeyHashes(sha, ri.revealedKeys)[0] == HashKey(sha, ri.revealedKeys[0]);
    }
  }

  lemma OpenedReal(sha: Sha256, ri: RoundInfo, round: int, mem: Memory)
    requires ri.messages != [] && ri.crypto.Some?
    ensures VerdictReal(sha, ri, mem, DoneVerdict(sha, ri, round, mem))
  {
    hide Trustworthy, HashKey, Differ, Opened, OpenedVerdict, AllPresent, AllWellHeaded, NonEmpty, Distinct;
    OpenedVerdictReal(round, Opened(ri.crypto.value, ri.revealedKeys, ri.messages));
  }

  /** A Done round in which some reveal key has other bytes than the committed one is never reported as succeeded. */
  lemma SwappedKeyNeverSucceeds(sha: Sha256, id: Uuid, ri: RoundInfo, round: int, mem: Memory,
                                i: nat, committed: PrivateKey)
    requires ri.phase.Done? && ri.messages != [] && i < |ri.revealedKeys| && i < |mem.revealKeyHashes|
    requires mem.revealKeyHashes[i] == HashKey(sha, committed) && NoCollision(sha, ri.revealedKeys[i], committed)
    requires ri.revealedKeys[i].e + ri.revealedKeys[i].d != committed.e + committed.d
    ensures var v := Verdict(sha, id, ri, round, mem); !(v.Sent? && v.result.succeeded)
  {
    if id in ri.participants {
      HashKeyExactly(sha, ri.revealedKeys[i], committed);
      SucceededExactly(sha, id, ri, round, mem);
      hide Verdict;
      KeysMatch(sha, ri, mem, i);
    }
  }

  lemma KeysMatch(sha: Sha256, ri: RoundInfo, mem: Memory, i: nat)
    requires ri.messages != [] && i < |ri.revealedKeys| && i < |mem.revealKeyHashes|
    ensures Trustworthy(sha, ri, mem) ==> HashKey(sha, ri.revealedKeys[i]) == mem.revealKeyHashes[i]
  {
    hide HashKey, Opened, AllWellHeaded, NonEmpty;
    assert KeyHashes(sha, ri.revealedKeys)[i] == HashKey(sha, ri.revealedKeys[i]);
  }
}
