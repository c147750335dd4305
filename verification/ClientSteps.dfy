/** What a client does with one state machine update: the body of readUpdates in anonbcast/client.go. */
module ClientSteps {
  import opened Bytes
  import opened MasseyOmura
  import opened Crypto
  import opened Ops
  import opened Rounds
  import opened Layers

  // ----- message headers

  const HeaderLength := 16

  /** Eight fixed bytes and eight random ones. */
  function Header(random: seq<byte>): (h: seq<byte>)
    requires |random| == 8
    ensures |h| == HeaderLength
    ensures h[8..] == random && forall i :: 0 <= i < 8 ==> h[i] == 13
  {
    seq<byte>(8, i => 13) + random
  }

  predicate ValidHeader(h: seq<byte>)
    requires |h| == HeaderLength
  {
    forall i :: 0 <= i < 8 ==> h[i] == 13
  }

  /** Exactly the headers that can be made are valid, and different random bytes make different headers. */
  lemma HeaderExactly(h: seq<byte>, random: seq<byte>)
    requires |h| == HeaderLength && |random| == 8
    ensures ValidHeader(h) <==> h == Header(h[8..])
    ensures h == Header(random) <==> ValidHeader(h) && h[8..] == random
  {
    if ValidHeader(h) {
      assert h == h[..8] + h[8..];
      assert h[..8] == Header(h[8..])[..8];
    }
  }

  // ----- the client's variables

  datatype Keys = Keys(encryptKey: PrivateKey, scrambleKey: PrivateKey, revealKey: PrivateKey)

  /** The local variables of readUpdates that survive from one update to the next. */
  datatype Local = Local(
    lastResChSend: int,
    lastMessageRound: int,
    lastKeyGen: int,
    keys: Keys,
    revealKeyHashes: seq<seq<byte>>,
    messagesBeforeReveal: seq<Msg>,
    revealKeyHashesRound: int,
    messagesWhenScrambled: nat,
    lastScrambledRound: int)

  const InitialLocal: Local :=
    Local(-1, -1, -1, Keys(NilPrivateKey, NilPrivateKey, NilPrivateKey), [], [], -1, 0, -1)

  /** Everything an update leaves to configuration, randomness and the user. */
  datatype Choices = Choices(
    active: bool,
    leaving: bool,
    keys: Keys,
    random: seq<byte>,
    fallbackRandom: seq<byte>,
    text: seq<byte>,
    shuffled: seq<Msg>)

  /**
   * The effect of one update: the new variables, the operation handed to the queue, whether the result of the previous
   * round is sent to the user, and whether the client calls into a crypto that is not there.
   */
  datatype Effect = Effect(local: Local, op: Option<Op>, sendsResult: bool, panics: bool := false)

  /** The header-prefixed text that submit sends: an overlong text is replaced by the empty one. */
  function TextSent(c: Crypto, ch: Choices): seq<byte>
    requires |ch.random| == 8 && |ch.fallbackRandom| == 8
  {
    if c.PrepareMsg(Header(ch.random) + ch.text).Some? then Header(ch.random) + ch.text
    else Header(ch.fallbackRandom)
  }

  /** A text is kept up to the message size, and dropped above it. */
  function Kept(size: nat, text: seq<byte>): seq<byte> {
    if |text| <= size then text else []
  }

  /** What a client chose for its message: the random bytes of two headers, and the user's text. */
  datatype Said = Said(random: seq<byte>, fallbackRandom: seq<byte>, text: seq<byte>) {
    predicate Ok() { |random| == 8 && |fallbackRandom| == 8 }
  }

  function SaidBy(ch: Choices): Said { Said(ch.random, ch.fallbackRandom, ch.text) }

  /** The message meant by it: its own header and the text, or the other header alone in place of an overlong text. */
  function Worded(size: nat, w: Said): (text: seq<byte>)
    requires w.Ok()
    ensures |text| == HeaderLength + |Kept(size, w.text)|
  {
    Header(if |w.text| <= size then w.random else w.fallbackRandom) + Kept(size, w.text)
  }

  /** Under a crypto that verifies, what is sent is what was meant: the text exactly if it has at most size bytes. */
  lemma TextSentExactly(size: nat, c: Crypto, ch: Choices)
    requires c.Verify(size + HeaderLength) && |ch.random| == 8 && |ch.fallbackRandom| == 8
    ensures TextSent(c, ch) == Worded(size, SaidBy(ch))
    ensures TextSent(c, ch) == Header(ch.random) + ch.text <==> |ch.text| <= size
  {
    BitsBytesInverse(size + HeaderLength, 0);
    assert Header(ch.fallbackRandom) + [] == Header(ch.fallbackRandom);
  }

  /** The plaintext number of a text; 0 when it cannot be prepared. */
  function Plain(c: Crypto, text: seq<byte>): nat {
    match Prepared(text, BitLen(c.P()))
    case Some(m) => m
    case None => 0
  }

  predicate AdmissibleKeys(c: Crypto, keys: Keys) {
    c.Generates(keys.encryptKey) && c.Generates(keys.scrambleKey) && c.Generates(keys.revealKey)
  }

  function SubmitOp(sha: Sha256, id: Uuid, round: int, c: Crypto, keys: Keys, ch: Choices): Op
    requires |ch.random| == 8 && |ch.fallbackRandom| == 8
  {
    MessageOp(id, round, c.Encrypt(keys.encryptKey, NewMsg(Plain(c, TextSent(c, ch)))), HashKey(sha, keys.revealKey))
  }

  function ObservePrepare(id: Uuid, l: Local, round: int, ri: RoundInfo, ch: Choices): Effect {
    var sends := round - 1 > l.lastResChSend;
    Effect(if sends then l.(lastResChSend := round - 1) else l,
           if ch.active && !ch.leaving && id !in ri.participants then Some(JoinOp(id, round)) else None,
           sends)
  }

  /** A crypto that does not verify makes the client abort the round. */
  function ObserveSubmit(size: nat, sha: Sha256, id: Uuid, l: Local, round: int, ri: RoundInfo, ch: Choices): Effect
    requires |ch.random| == 8 && |ch.fallbackRandom| == 8
    requires Shape(ri) && |ri.messages| == |ri.participants|
  {
    var me := ParticipantIndex(ri.participants, id);
    if !ch.active || me == -1 then Effect(l, None, false)
    else if ri.crypto.None? then
      if round > l.lastKeyGen || (round > l.lastMessageRound && ri.messages[me].Nil()) then Effect(l, None, false, true)
      else Effect(if round > l.lastMessageRound then l.(lastMessageRound := round) else l, None, false)
    else
      var c := ri.crypto.value;
      if round > l.lastKeyGen && !c.Verify(size + HeaderLength) then Effect(l, Some(AbortOp(round)), false)
      else
        var k := if round > l.lastKeyGen then l.(keys := ch.keys, lastKeyGen := round) else l;
        if round > k.lastMessageRound then
          Effect(k.(lastMessageRound := round),
                 if ri.messages[me].Nil() then Some(SubmitOp(sha, id, round, c, k.keys, ch)) else None,
                 false)
        else Effect(k, None, false)
  }

  /** Someone else's message is in the list. */
  predicate HasOthers(messages: seq<Msg>, me: int) {
    |messages| > 1 || (|messages| == 1 && me != 0)
  }

  function ObserveEncrypt(id: Uuid, l: Local, round: int, ri: RoundInfo, ch: Choices): Effect
    requires Shape(ri)
  {
    var me := ParticipantIndex(ri.participants, id);
    if !ch.active || me == -1 || ri.encrypted[me] then Effect(l, None, false)
    else if ri.crypto.None? && HasOthers(ri.messages, me) then Effect(l, None, false, true)
    else
      var messages := if ri.crypto.None? then ri.messages
                      else EncryptOthers(ri.crypto.value, l.keys.encryptKey, me, ri.messages);
      Effect(l, Some(EncryptedOp(id, round, messages, Count(ri.encrypted))), false)
  }

  function ObserveScramble(id: Uuid, l: Local, round: int, ri: RoundInfo, ch: Choices): Effect
    requires Shape(ri)
  {
    var me := ParticipantIndex(ri.participants, id);
    if !ch.active || me == -1 || round <= l.lastScrambledRound || me != Count(ri.scrambled) then Effect(l, None, false)
    else if ri.crypto.None? && ri.messages != [] && !ri.scrambled[me] then Effect(l, None, false, true)
    else
      Effect(l.(messagesWhenScrambled := |ri.messages|, lastScrambledRound := round),
             if ri.scrambled[me] then None else Some(ScrambledOp(id, round, ch.shuffled)), false)
  }

  function ObserveDecrypt(id: Uuid, l: Local, round: int, ri: RoundInfo, ch: Choices): Effect
    requires Shape(ri)
  {
    var me := ParticipantIndex(ri.participants, id);
    if !ch.active || me == -1 || ri.decrypted[me] then Effect(l, None, false)
    else if ri.crypto.None? && ri.messages != [] then Effect(l, None, false, true)
    else
      var messages := if ri.crypto.None? then []
                      else DecryptTwice(ri.crypto.value, l.keys.scrambleKey, l.keys.encryptKey, ri.messages);
      Effect(l, Some(DecryptedOp(id, round, messages, Count(ri.decrypted))), false)
  }

  function ObserveReveal(id: Uuid, l: Local, round: int, ri: RoundInfo, ch: Choices): Effect
    requires Shape(ri)
  {
    var me := ParticipantIndex(ri.participants, id);
    if !ch.active || me == -1 then Effect(l, None, false)
    else
      Effect(if round > l.revealKeyHashesRound
             then l.(revealKeyHashes := ri.revealKeyHashes, messagesBeforeReveal := ri.messages,
                     revealKeyHashesRound := round)
             else l,
             if ri.revealedKeys[me].Nil() then Some(RevealOp(id, round, l.keys.revealKey)) else None, false)
  }

  predicate ShuffleAdmissible(l: Local, ri: RoundInfo, ch: Choices) {
    && (ri.phase.Scramble? && ri.crypto.None? ==> ch.shuffled == [])
    && (ri.phase.Scramble? && ri.crypto.Some? ==>
          multiset(ch.shuffled)
          == multiset(EncryptTwice(ri.crypto.value, l.keys.scrambleKey, l.keys.revealKey, ri.messages)))
  }

  /** The choices are ones that the random sources can make here. */
  predicate Admissible(size: nat, l: Local, sm: State, ch: Choices)
    requires Valid(sm)
  {
    var ri := Current(sm);
    && |ch.random| == 8 && |ch.fallbackRandom| == 8
    && (ri.phase.Submit? && ri.crypto.Some? && ri.crypto.value.Verify(size + HeaderLength)
        ==> AdmissibleKeys(ri.crypto.value, ch.keys))
    && ShuffleAdmissible(l, ri, ch)
  }

  /** What reading a round info takes, whoever sent it. */
  predicate Readable(ri: RoundInfo) {
    Shape(ri) && (ri.phase.Submit? ==> |ri.messages| == |ri.participants|)
  }

  /** What the client does on seeing this round info as the current one. */
  function ObserveView(size: nat, sha: Sha256, id: Uuid, l: Local, round: int, ri: RoundInfo, ch: Choices): Effect
    requires Readable(ri)
    requires |ch.random| == 8 && |ch.fallbackRandom| == 8
  {
    match ri.phase
    case Prepare => ObservePrepare(id, l, round, ri, ch)
    case Submit => ObserveSubmit(size, sha, id, l, round, ri, ch)
    case Encrypt => ObserveEncrypt(id, l, round, ri, ch)
    case Scramble => ObserveScramble(id, l, round, ri, ch)
    case Decrypt => ObserveDecrypt(id, l, round, ri, ch)
    case Reveal => ObserveReveal(id, l, round, ri, ch)
    case _ => Effect(l, None, false)
  }

  /** One update with a state that the state machine can be in. */
  function Observe(size: nat, sha: Sha256, id: Uuid, l: Local, sm: State, ch: Choices): Effect
    requires Valid(sm)
    requires |ch.random| == 8 && |ch.fallbackRandom| == 8
  {
    ObserveView(size, sha, id, l, sm.round, Current(sm), ch)
  }
}
