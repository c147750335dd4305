/** The client as it is written: the loop body of readUpdates and its helpers, over the client's own variables. */
module Clients {
  import opened Bytes
  import opened MasseyOmura
  import opened Crypto
  import opened Ops
  import opened Rounds
  import opened Layers
  import opened ClientSteps
  import opened Shuffles
  import opened StateMachines

  /** The search in readUpdates does not stop at the first hit; among distinct participants that is the same. */
  method FindMe(participants: seq<Uuid>, id: Uuid) returns (me: int)
    requires Distinct(participants)
    ensures me == ParticipantIndex(participants, id)
  {
    me := -1;
    for i := 0 to |participants|
      invariant me == -1 ==> id !in participants[..i]
      invariant me != -1 ==> 0 <= me < i && participants[me] == id
    {
      if participants[i] == id {
        me := i;
      }
    }
    assert participants[..|participants|] == participants;
  }

  method EncryptMessages(c: Crypto, key: PrivateKey, me: int, messages: seq<Msg>) returns (r: seq<Msg>)
    ensures r == EncryptOthers(c, key, me, messages)
  {
    r := [];
    for i := 0 to |messages|
      invariant |r| == i
      invariant forall j :: 0 <= j < i ==> r[j] == if j == me then messages[j] else c.Encrypt(key, messages[j])
    {
      if i == me {
        r := r + [messages[i]];
      } else {
        r := r + [c.Encrypt(key, messages[i])];
      }
    }
  }

  method DecryptMessages(c: Crypto, scrambleKey: PrivateKey, encryptKey: PrivateKey, messages: seq<Msg>)
    returns (r: seq<Msg>)
    ensures r == DecryptTwice(c, scrambleKey, encryptKey, messages)
  {
    r := [];
    for i := 0 to |messages|
      invariant |r| == i
      invariant forall j :: 0 <= j < i ==> r[j] == c.Decrypt(encryptKey, c.Decrypt(scrambleKey, messages[j]))
    {
      var m := c.Decrypt(scrambleKey, messages[i]);
      r := r + [c.Decrypt(encryptKey, m)];
    }
  }

  method EncryptBoth(c: Crypto, scrambleKey: PrivateKey, revealKey: PrivateKey, messages: seq<Msg>)
    returns (r: seq<Msg>)
    ensures r == EncryptTwice(c, scrambleKey, revealKey, messages)
  {
    r := [];
    for i := 0 to |messages|
      invariant |r| == i
      invariant forall j :: 0 <= j < i ==> r[j] == c.Encrypt(revealKey, c.Encrypt(scrambleKey, messages[j]))
    {
      var m := c.Encrypt(scrambleKey, messages[i]);
      r := r + [c.Encrypt(revealKey, m)];
    }
  }

  /** Both keys on every message, then a shuffle: the arrangement of the doubly encrypted messages that was drawn. */
  method ScrambleMessages(c: Crypto, scrambleKey: PrivateKey, revealKey: PrivateKey, messages: seq<Msg>,
                          draws: nat -> nat)
    returns (r: seq<Msg>)
    ensures r == Arranged(EncryptTwice(c, scrambleKey, revealKey, messages), draws, |messages|)
    ensures multiset(r) == multiset(EncryptTwice(c, scrambleKey, revealKey, messages))
  {
    var twice := EncryptBoth(c, scrambleKey, revealKey, messages);
    assert |twice| == |messages|;
    hide *;
    var a := new Msg[|twice|](i requires 0 <= i < |twice| => twice[i]);
    assert a[..] == twice;
    Shuffle(a, draws);
    r := a[..];
  }

  class Client {
    const id: Uuid
    const size: nat
    var active: bool
    var leaving: bool
    var lastResChSend: int
    var lastMessageRound: int
    var lastKeyGen: int
    var encryptKey: PrivateKey
    var scrambleKey: PrivateKey
    var revealKey: PrivateKey
    var lastRevealKeyHashes: seq<seq<byte>>
    var lastMessagesBeforeReveal: seq<Msg>
    var lastRevealKeyHashesRound: int
    var lastNumberOfMessagesWhenScrambled: nat
    var lastScrambledRound: int

    constructor (id: Uuid, size: nat, active: bool)
      ensures this.id == id && this.size == size && this.active == active && !leaving && Variables() == InitialLocal
    {
      this.id, this.size, this.active, this.leaving := id, size, active, false;
      lastResChSend, lastMessageRound, lastKeyGen := -1, -1, -1;
      encryptKey, scrambleKey, revealKey := NilPrivateKey, NilPrivateKey, NilPrivateKey;
      lastRevealKeyHashes, lastMessagesBeforeReveal, lastRevealKeyHashesRound := [], [], -1;
      lastNumberOfMessagesWhenScrambled, lastScrambledRound := 0, -1;
    }

    function Variables(): Local
      reads this
    {
      Local(lastResChSend, lastMessageRound, lastKeyGen, Keys(encryptKey, scrambleKey, revealKey),
            lastRevealKeyHashes, lastMessagesBeforeReveal, lastRevealKeyHashesRound,
            lastNumberOfMessagesWhenScrambled, lastScrambledRound)
    }

    /** submit: None when the message is already there. */
    method Submit(sha: Sha256, round: int, c: Crypto, mine: Msg, ch: Choices) returns (op: Option<Op>)
      requires |ch.random| == 8 && |ch.fallbackRandom| == 8
      ensures op == if mine.Nil() then Some(SubmitOp(sha, id, round, c, Keys(encryptKey, scrambleKey, revealKey), ch))
                    else None
      ensures mine.Nil() && c.Verify(size + HeaderLength) ==>
                op == Some(MessageOp(id, round,
                                     c.Encrypt(encryptKey, NewMsg(Plain(c, Worded(size, SaidBy(ch))))),
                                     sha(revealKey.e + revealKey.d)))
    {
      hide VerifySysKey, Worded;
      if !mine.Nil() {
        return None;
      }
      if c.Verify(size + HeaderLength) {
        TextSentExactly(size, c, ch);
      }
      var m := c.PrepareMsg(Header(ch.random) + ch.text);
      if m.None? {
        m := c.PrepareMsg(Header(ch.fallbackRandom));
      }
      var plain := if m.Some? then m.value else NewMsg(0);
      op := Some(MessageOp(id, round, c.Encrypt(encryptKey, plain), HashKey(sha, revealKey)));
    }

    /** New keys for a new round, unless its crypto does not verify. */
    method RefreshKeys(round: int, c: Crypto, keys: Keys) returns (ok: bool)
      modifies `encryptKey, `scrambleKey, `revealKey, `lastKeyGen
      ensures ok <==> round <= old(lastKeyGen) || c.Verify(size + HeaderLength)
      ensures Variables() == if ok && round > old(lastKeyGen) then old(Variables()).(keys := keys, lastKeyGen := round)
                             else old(Variables())
    {
      hide VerifySysKey;
      if round > lastKeyGen {
        if !c.Verify(size + HeaderLength) {
          return false;
        }
        encryptKey, scrambleKey, revealKey := keys.encryptKey, keys.scrambleKey, keys.revealKey;
        lastKeyGen := round;
      }
      ok := true;
    }

    method UpdateInSubmit(sha: Sha256, round: int, ri: RoundInfo, me: int, ch: Choices)
      returns (op: Option<Op>, panics: bool)
      requires Shape(ri) && |ri.messages| == |ri.participants| && me == ParticipantIndex(ri.participants, id)
      requires ch.active == active && |ch.random| == 8 && |ch.fallbackRandom| == 8
      modifies this
      ensures active == old(active) && leaving == old(leaving)
      ensures Effect(Variables(), op, false, panics) == ObserveSubmit(size, sha, id, old(Variables()), round, ri, ch)
    {
      hide VerifySysKey, SubmitOp, Header, Distinct, PrefixClosed, ParticipantIndex;
      op, panics := None, false;
      if !active || me == -1 {
        return;
      }
      if ri.crypto.None? {
        panics := SubmitWithoutCrypto(round, ri.messages[me]);
        return;
      }
      var ok := RefreshKeys(round, ri.crypto.value, ch.keys);
      if !ok {
        op := Some(AbortOp(round));
        return;
      }
      op := SubmitOnce(sha, round, ri.crypto.value, ri.messages[me], ch);
    }

    /** One message per round. */
    method SubmitOnce(sha: Sha256, round: int, c: Crypto, mine: Msg, ch: Choices) returns (op: Option<Op>)
      requires |ch.random| == 8 && |ch.fallbackRandom| == 8
      modifies `lastMessageRound
      ensures var due := round > old(lastMessageRound);
              && lastMessageRound == (if due then round else old(lastMessageRound))
              && op == if due && mine.Nil()
                       then Some(SubmitOp(sha, id, round, c, Keys(encryptKey, scrambleKey, revealKey), ch)) else None
    {
      op := None;
      if round > lastMessageRound {
        op := Submit(sha, round, c, mine, ch);
        lastMessageRound := round;
      }
    }

    /** Verifying, and preparing a message, call into the crypto. */
    method SubmitWithoutCrypto(round: int, mine: Msg) returns (panics: bool)
      modifies `lastMessageRound
      ensures panics <==> round > lastKeyGen || (round > old(lastMessageRound) && mine.Nil())
      ensures lastMessageRound == if panics || round <= old(lastMessageRound) then old(lastMessageRound) else round
    {
      if round > lastKeyGen {
        return true;
      }
      if round > lastMessageRound {
        if mine.Nil() {
          return true;
        }
        lastMessageRound := round;
      }
      panics := false;
    }

    method UpdateInEncrypt(round: int, ri: RoundInfo, me: int, ghost ch: Choices) returns (op: Option<Op>, panics: bool)
      requires Shape(ri) && me == ParticipantIndex(ri.participants, id) && ch.active == active
      ensures Effect(Variables(), op, false, panics) == ObserveEncrypt(id, Variables(), round, ri, ch)
    {
      if !active || me == -1 || ri.encrypted[me] {
        return None, false;
      }
      var prev := CountFlags(ri.encrypted);
      var messages := ri.messages;
      if ri.crypto.Some? {
        messages := EncryptMessages(ri.crypto.value, encryptKey, me, ri.messages);
      } else if HasOthers(ri.messages, me) {
        return None, true;
      }
      op, panics := Some(EncryptedOp(id, round, messages, prev)), false;
    }

    method UpdateInScramble(round: int, ri: RoundInfo, me: int, ghost ch: Choices, draws: nat -> nat)
      returns (op: Option<Op>, panics: bool, ghost shuffled: seq<Msg>)
      requires Shape(ri) && ri.phase.Scramble? && me == ParticipantIndex(ri.participants, id) && ch.active == active
      modifies this
      ensures active == old(active) && leaving == old(leaving)
      ensures var used := ch.(shuffled := shuffled);
              && ShuffleAdmissible(old(Variables()), ri, used)
              && Effect(Variables(), op, false, panics) == ObserveScramble(id, old(Variables()), round, ri, used)
    {
      hide EncryptTwice, Count, ParticipantIndex;
      shuffled := if ri.crypto.Some? then EncryptTwice(ri.crypto.value, scrambleKey, revealKey, ri.messages) else [];
      op, panics := None, false;
      if !active || me == -1 || round <= lastScrambledRound {
        return;
      }
      var turn := CountFlags(ri.scrambled);
      if me != turn {
        return;
      }
      if !ri.scrambled[me] {
        if ri.crypto.None? && ri.messages != [] {
          panics := true;
          return;
        }
        var messages := [];
        if ri.crypto.Some? {
          messages := ScrambleMessages(ri.crypto.value, scrambleKey, revealKey, ri.messages, draws);
        }
        op, shuffled := Some(ScrambledOp(id, round, messages)), messages;
      }
      lastNumberOfMessagesWhenScrambled := |ri.messages|;
      lastScrambledRound := round;
    }

    method UpdateInDecrypt(round: int, ri: RoundInfo, me: int, ghost ch: Choices) returns (op: Option<Op>, panics: bool)
      requires Shape(ri) && me == ParticipantIndex(ri.participants, id) && ch.active == active
      ensures Effect(Variables(), op, false, panics) == ObserveDecrypt(id, Variables(), round, ri, ch)
    {
      if !active || me == -1 || ri.decrypted[me] {
        return None, false;
      }
      var prev := CountFlags(ri.decrypted);
      var messages := [];
      if ri.crypto.Some? {
        messages := DecryptMessages(ri.crypto.value, scrambleKey, encryptKey, ri.messages);
      } else if ri.messages != [] {
        return None, true;
      }
      op, panics := Some(DecryptedOp(id, round, messages, prev)), false;
    }

    method UpdateInReveal(round: int, ri: RoundInfo, me: int, ghost ch: Choices) returns (op: Option<Op>)
      requires Shape(ri) && me == ParticipantIndex(ri.participants, id) && ch.active == active
      modifies this
      ensures active == old(active) && leaving == old(leaving)
      ensures Effect(Variables(), op, false) == ObserveReveal(id, old(Variables()), round, ri, ch)
    {
      if !active || me == -1 {
        return None;
      }
      if round > lastRevealKeyHashesRound {
        lastRevealKeyHashes := ri.revealKeyHashes;
        lastMessagesBeforeReveal := ri.messages;
        lastRevealKeyHashesRound := round;
      }
      op := if ri.revealedKeys[me].Nil() then Some(RevealOp(id, round, revealKey)) else None;
    }

    /**
     * One state machine update. Whatever the random source draws, the client does what Observe says for the choices ch
     * with some shuffle that is a rearrangement of the doubly encrypted messages.
     */
    method HandleUpdate(sha: Sha256, sm: State, ch: Choices, draws: nat -> nat)
      returns (op: Option<Op>, sendsResult: bool, panics: bool, ghost shuffled: seq<Msg>)
      requires Valid(sm) && ch.active == active && ch.leaving == leaving && |ch.random| == 8 && |ch.fallbackRandom| == 8
      modifies this
      ensures active == old(active) && leaving == old(leaving)
      ensures var used := ch.(shuffled := shuffled);
              && ShuffleAdmissible(old(Variables()), Current(sm), used)
              && Effect(Variables(), op, sendsResult, panics) == Observe(size, sha, id, old(Variables()), sm, used)
      ensures Current(sm).phase.Prepare? ==>
                op == if active && !leaving && id !in Current(sm).participants then Some(JoinOp(id, sm.round)) else None
    {
      op, sendsResult, panics, shuffled := None, false, false, ch.shuffled;
      var ri := Current(sm);
      var me := FindMe(ri.participants, id);
      match ri.phase
      case Prepare =>
        if sm.round - 1 > lastResChSend {
          sendsResult, lastResChSend := true, sm.round - 1;
        }
        if active && !leaving && me == -1 {
          op := Some(JoinOp(id, sm.round));
        }
      case Submit => op, panics := UpdateInSubmit(sha, sm.round, ri, me, ch);
      case Encrypt => op, panics := UpdateInEncrypt(sm.round, ri, me, ch);
      case Scramble => op, panics, shuffled := UpdateInScramble(sm.round, ri, me, ch, draws);
      case Decrypt => op, panics := UpdateInDecrypt(sm.round, ri, me, ch);
      case Reveal => op := UpdateInReveal(sm.round, ri, me, ch);
      case _ =>
    }
  }
}
