/** The state machine of anonbcast/statemachine.go as objects that its operations update in place. */
module StateMachines {
  import opened Bytes
  import opened Crypto
  import opened Ops
  import opened Rounds
  import opened Runs

  /** An operation as it comes out of the log: its message list is a slice that the machine may keep. */
  type OpRef = Operation<array<Msg>>

  function Slices(op: OpRef): set<object> {
    if RewritesMessages(op) then {op.messages} else {}
  }

  function OpValue(op: OpRef): Op
    reads Slices(op)
  {
    match op
    case JoinOp(id, r) => JoinOp(id, r)
    case StartOp(id, r, crypto) => StartOp(id, r, crypto)
    case MessageOp(id, r, message, hash) => MessageOp(id, r, message, hash)
    case EncryptedOp(id, r, messages, prev) => EncryptedOp(id, r, messages[..], prev)
    case ScrambledOp(id, r, messages) => ScrambledOp(id, r, messages[..])
    case DecryptedOp(id, r, messages, prev) => DecryptedOp(id, r, messages[..], prev)
    case RevealOp(id, r, key) => RevealOp(id, r, key)
    case AbortOp(r) => AbortOp(r)
  }

  // ----- counting and searching

  lemma {:induction false} CountSnoc(flags: seq<bool>, i: nat)
    requires i < |flags|
    ensures Count(flags[..i + 1]) == Count(flags[..i]) + if flags[i] then 1 else 0
  {
    if i == 0 {
      assert flags[..1] == [flags[0]] && flags[..0] == [];
      assert Count([flags[0]]) == (if flags[0] then 1 else 0) + Count([flags[0]][1..]);
    } else {
      CountSnoc(flags[1..], i - 1);
      assert flags[..i + 1][1..] == flags[1..][..i] && flags[..i][1..] == flags[1..][..i - 1];
    }
  }

  /** numEncrypted, numScrambled and numDecrypted. */
  method CountFlags(flags: seq<bool>) returns (n: nat)
    ensures n == Count(flags)
  {
    n := 0;
    for i := 0 to |flags|
      invariant n == Count(flags[..i])
    {
      CountSnoc(flags, i);
      if flags[i] {
        n := n + 1;
      }
    }
    assert flags[..|flags|] == flags;
  }

  lemma {:induction false} FirstIndex(participants: seq<Uuid>, i: nat)
    requires i < |participants| && participants[i] !in participants[..i]
    ensures ParticipantIndex(participants, participants[i]) == i
  {
    if i > 0 {
      assert participants[0] in participants[..i];
      assert forall j :: 0 <= j < i - 1 ==> participants[1..][j] == participants[..i][j + 1];
      FirstIndex(participants[1..], i - 1);
    }
  }

  /** participantIndex: the index, or -1 for the error. */
  method FindParticipant(participants: seq<Uuid>, id: Uuid) returns (p: int)
    ensures p == ParticipantIndex(participants, id)
  {
    for i := 0 to |participants|
      invariant id !in participants[..i]
    {
      if participants[i] == id {
        FirstIndex(participants, i);
        return i;
      }
    }
    assert participants[..|participants|] == participants;
    p := -1;
  }

  method NoNilKey(keys: seq<PrivateKey>) returns (ok: bool)
    ensures ok <==> AllRevealed(keys)
  {
    for i := 0 to |keys|
      invariant forall j :: 0 <= j < i ==> !keys[j].Nil()
    {
      if keys[i].Nil() {
        return false;
      }
    }
    ok := true;
  }

  // ----- slices

  /** append: the slice grows into new storage. */
  method Append<T>(a: array<T>, x: T) returns (b: array<T>)
    ensures fresh(b) && b[..] == a[..] + [x]
  {
    var s := a[..] + [x];
    b := new T[|s|](i requires 0 <= i < |s| => s[i]);
    assert b[..] == s;
  }

  /** make and copy: equal contents in new storage. */
  method CopySlice<T>(a: array<T>) returns (b: array<T>)
    ensures fresh(b) && b[..] == a[..]
  {
    var s := a[..];
    b := new T[|s|](i requires 0 <= i < |s| => s[i]);
    assert b[..] == s;
  }

  /** An element is written in place. */
  method Put<T>(a: array<T>, p: nat, x: T)
    requires p < a.Length
    modifies a
    ensures a[..] == old(a[..])[p := x]
  {
    a[p] := x;
  }

  /** The flag is written in place; are all set now? */
  method SetFlag(flags: array<bool>, p: nat) returns (full: bool)
    requires p < flags.Length
    modifies flags
    ensures flags[..] == old(flags[..])[p := true]
    ensures full <==> Count(flags[..]) == flags.Length
  {
    flags[p] := true;
    var n := CountFlags(flags[..]);
    full := n == flags.Length;
  }

  /** A message list is copied to the length of the participant list, with nil messages at the end. */
  method CopyMessages(messages: array<Msg>, n: nat) returns (copied: array<Msg>)
    requires messages.Length <= n
    ensures fresh(copied) && copied[..] == messages[..] + seq(n - messages.Length, i => NilMsg)
  {
    copied := new Msg[n](i => NilMsg);
    for i := 0 to messages.Length
      invariant forall j :: 0 <= j < n ==> copied[j] == if j < i then messages[j] else NilMsg
    {
      copied[i] := messages[i];
    }
  }

  // ----- one slot of the ring

  class RoundRecord {
    var phase: Phase
    var crypto: Option<Crypto>
    var participants: array<Uuid>
    var messages: array<Msg>
    var encrypted: array<bool>
    var scrambled: array<bool>
    var decrypted: array<bool>
    var revealedKeys: array<PrivateKey>
    var revealKeyHashes: array<seq<byte>>

    /** The slices that the slot writes in place in every phase. */
    ghost function Lists(): set<object>
      reads this
    {
      {encrypted as object, scrambled, decrypted, revealedKeys, revealKeyHashes}
    }

    /** All its slices. */
    ghost function Arrays(): (xs: set<object>)
      reads this
      ensures forall x :: x in xs ==> !(x is RoundRecord) && !(x is StateMachine)
    {
      Lists() + {participants as object, messages}
    }

    /** The message list is written in place until all messages are in; later it may belong to an operation. */
    ghost function Owned(): (xs: set<object>)
      reads this
      ensures xs <= Arrays()
    {
      Lists() + if phase.Prepare? || phase.Submit? then {messages} else {}
    }

    /** The three flag lists are three slices. */
    ghost predicate Separate()
      reads this
    {
      encrypted != scrambled && scrambled != decrypted && encrypted != decrypted
    }

    ghost function Value(): RoundInfo
      reads this, Arrays()
    {
      RoundInfo(phase, crypto, participants[..], messages[..], encrypted[..], scrambled[..], decrypted[..],
                revealedKeys[..], revealKeyHashes[..])
    }

    constructor (phase: Phase)
      ensures Value() == EmptyRound(phase) && Separate() && fresh(Arrays())
    {
      this.phase, crypto := phase, None;
      participants, messages := new Uuid[0], new Msg[0];
      encrypted, scrambled, decrypted := new bool[0], new bool[0], new bool[0];
      revealedKeys, revealKeyHashes := new PrivateKey[0], new seq<byte>[0];
    }

    /** All fields at once. */
    method Install(ph: Phase, c: Option<Crypto>, ids: array<Uuid>, ms: array<Msg>,
                   e: array<bool>, s: array<bool>, d: array<bool>, keys: array<PrivateKey>, hashes: array<seq<byte>>)
      requires e != s && s != d && e != d
      modifies this
      ensures Separate() && phase == ph && Arrays() == {ids as object, ms, e, s, d, keys, hashes}
      ensures Value() == RoundInfo(ph, c, ids[..], ms[..], e[..], s[..], d[..], keys[..], hashes[..])
    {
      phase, crypto, participants, messages := ph, c, ids, ms;
      encrypted, scrambled, decrypted, revealedKeys, revealKeyHashes := e, s, d, keys, hashes;
    }

    constructor Of(ph: Phase, c: Option<Crypto>, ids: array<Uuid>, ms: array<Msg>,
                   e: array<bool>, s: array<bool>, d: array<bool>, keys: array<PrivateKey>, hashes: array<seq<byte>>)
      requires e != s && s != d && e != d
      ensures Separate() && Arrays() == {ids as object, ms, e, s, d, keys, hashes}
      ensures Value() == RoundInfo(ph, c, ids[..], ms[..], e[..], s[..], d[..], keys[..], hashes[..])
    {
      phase, crypto, participants, messages := ph, c, ids, ms;
      encrypted, scrambled, decrypted, revealedKeys, revealKeyHashes := e, s, d, keys, hashes;
    }

    /** initRound, on the slot. */
    method Init()
      modifies this
      ensures Value() == FreshRound && Separate() && fresh(Arrays())
    {
      hide RoundRecord.Value, RoundRecord.Arrays;
      var ids, ms, keys, hashes := new Uuid[0], new Msg[0], new PrivateKey[0], new seq<byte>[0];
      var e, s, d := new bool[0], new bool[0], new bool[0];
      assert ids[..] == [] && ms[..] == [] && keys[..] == [] && hashes[..] == [];
      assert e[..] == [] && s[..] == [] && d[..] == [];
      Install(Prepare, None, ids, ms, e, s, d, keys, hashes);
    }

    method AppendFlags() returns (e: array<bool>, s: array<bool>, d: array<bool>)
      ensures fresh(e) && fresh(s) && fresh(d) && e != s && s != d && e != d
      ensures e[..] == encrypted[..] + [false] && s[..] == scrambled[..] + [false] && d[..] == decrypted[..] + [false]
    {
      e := Append(encrypted, false);
      s := Append(scrambled, false);
      d := Append(decrypted, false);
    }

    /** The seven appends of join. */
    method Enlist(id: Uuid)
      modifies this
      ensures Separate() && fresh(Arrays()) && phase == old(phase)
      ensures Value() == RoundInfo(old(phase), old(crypto), old(participants[..]) + [id], old(messages[..]) + [NilMsg],
                                   old(encrypted[..]) + [false], old(scrambled[..]) + [false],
                                   old(decrypted[..]) + [false],
                                   old(revealedKeys[..]) + [NilPrivateKey], old(revealKeyHashes[..]) + [[]])
    {
      hide RoundRecord.Value, RoundRecord.Arrays;
      var ids := Append(participants, id);
      var ms := Append(messages, NilMsg);
      var e, s, d := AppendFlags();
      var keys := Append(revealedKeys, NilPrivateKey);
      var hashes := Append(revealKeyHashes, []);
      Install(phase, crypto, ids, ms, e, s, d, keys, hashes);
    }

    method Join(id: Uuid) returns (updated: bool)
      requires Separate() && RepInvariant(Value())
      modifies this
      ensures Separate() && Outcome(Value(), updated, false) == HandleJoin(old(Value()), id)
      ensures if updated then fresh(Arrays()) else unchanged(this)
    {
      hide RepInvariant;
      if phase != Prepare {
        return false;
      }
      var p := FindParticipant(participants[..], id);
      if p >= 0 {
        return false;
      }
      Enlist(id);
      updated := true;
    }

    method Start(c: Option<Crypto>) returns (updated: bool)
      modifies this`phase, this`crypto
      ensures Outcome(Value(), updated, false) == HandleStart(old(Value()), c)
      ensures phase == old(phase) || phase.Submit?
      ensures updated <==> old(phase).Prepare?
      ensures updated ==> phase.Submit? && crypto == c
    {
      if phase != Prepare {
        return false;
      }
      phase := Submit;
      crypto := c;
      updated := true;
    }

    method NoNilMessage() returns (ok: bool)
      ensures ok <==> AllSubmitted(messages[..])
    {
      for i := 0 to messages.Length
        invariant forall j :: 0 <= j < i ==> !messages[j].Nil()
      {
        if messages[i].Nil() {
          assert messages[..][i].Nil();
          return false;
        }
      }
      ok := true;
    }

    method Message(id: Uuid, message: Msg, hash: seq<byte>) returns (updated: bool)
      requires RepInvariant(Value())
      modifies this`phase, Owned()
      ensures Outcome(Value(), updated, false) == HandleMessage(old(Value()), id, message, hash)
      ensures forall x :: x in Lists() && x != revealKeyHashes ==> unchanged(x)
    {
      if phase != Submit {
        return false;
      }
      var p := FindParticipant(participants[..], id);
      if p < 0 {
        return false;
      }
      assert messages.Length == participants.Length == revealKeyHashes.Length;
      hide RepInvariant;
      Put(messages, p, message);
      Put(revealKeyHashes, p, hash);
      updated := true;
      var full := NoNilMessage();
      if full {
        phase := Encrypt;
      }
    }

    method Encrypted(id: Uuid, ms: array<Msg>, prev: int) returns (updated: bool)
      requires Separate() && RepInvariant(Value())
      modifies this`phase, this`messages, encrypted
      ensures Outcome(Value(), updated, false) == HandleEncrypted(old(Value()), id, old(ms[..]), prev)
      ensures messages == if updated then ms else old(messages)
    {
      if phase != Encrypt {
        return false;
      }
      var p := FindParticipant(participants[..], id);
      if p < 0 {
        return false;
      }
      assert encrypted.Length == participants.Length;
      hide RepInvariant;
      var n := CountFlags(encrypted[..]);
      if n != prev || encrypted[p] {
        return false;
      }
      messages := ms;
      var full := SetFlag(encrypted, p);
      if full {
        phase := Scramble;
      }
      updated := true;
    }

    method Scrambled(id: Uuid, ms: array<Msg>) returns (updated: bool)
      requires Separate() && RepInvariant(Value())
      modifies this`phase, this`messages, scrambled
      ensures Outcome(Value(), updated, false) == HandleScrambled(old(Value()), id, old(ms[..]))
      ensures messages == if updated then ms else old(messages)
    {
      if phase != Scramble {
        return false;
      }
      var p := FindParticipant(participants[..], id);
      if p < 0 {
        return false;
      }
      assert scrambled.Length == participants.Length;
      hide RepInvariant;
      var n := CountFlags(scrambled[..]);
      if n != p || scrambled[p] {
        return false;
      }
      messages := ms;
      var full := SetFlag(scrambled, p);
      if full {
        phase := Decrypt;
      }
      updated := true;
    }

    method Decrypted(id: Uuid, ms: array<Msg>, prev: int) returns (updated: bool)
      requires Separate() && RepInvariant(Value())
      modifies this`phase, this`messages, decrypted
      ensures Outcome(Value(), updated, false) == HandleDecrypted(old(Value()), id, old(ms[..]), prev)
      ensures messages == if updated then ms else old(messages)
    {
      if phase != Decrypt {
        return false;
      }
      var p := FindParticipant(participants[..], id);
      if p < 0 {
        return false;
      }
      assert decrypted.Length == participants.Length;
      hide RepInvariant;
      var n := CountFlags(decrypted[..]);
      if n != prev || decrypted[p] {
        return false;
      }
      messages := ms;
      var full := SetFlag(decrypted, p);
      if full {
        phase := Reveal;
      }
      updated := true;
    }

    method RevealKey(id: Uuid, key: PrivateKey) returns (updated: bool, over: bool)
      requires RepInvariant(Value())
      modifies this`phase, revealedKeys
      ensures Outcome(Value(), updated, over) == HandleReveal(old(Value()), id, key)
    {
      if phase != Reveal {
        return false, false;
      }
      var p := FindParticipant(participants[..], id);
      if p < 0 {
        return false, false;
      }
      Put(revealedKeys, p, key);
      updated := true;
      over := NoNilKey(revealedKeys[..]);
      if over {
        phase := Done;
      }
    }

    /** The operations that bring a message list along: the slot keeps it by reference. */
    method HandleMessages(op: OpRef) returns (updated: bool)
      requires Separate() && RepInvariant(Value()) && RewritesMessages(op)
      modifies this`phase, this`messages, Lists()
      ensures Outcome(Value(), updated, false) == Rounds.Handle(old(Value()), old(OpValue(op)))
      ensures messages == if updated then op.messages else old(messages)
      ensures phase == old(phase) || !(phase.Prepare? || phase.Submit?)
      ensures updated ==> !(phase.Prepare? || phase.Submit?)
    {
      hide RepInvariant;
      match op
      case EncryptedOp(id, _, ms, prev) => updated := Encrypted(id, ms, prev);
      case ScrambledOp(id, _, ms) => updated := Scrambled(id, ms);
      case DecryptedOp(id, _, ms, prev) => updated := Decrypted(id, ms, prev);
    }

    /** The other operations: the slot's slices stay, or are new. */
    method HandleOther(op: OpRef) returns (updated: bool, over: bool)
      requires Separate() && RepInvariant(Value()) && Active(phase) && !RewritesMessages(op)
      modifies this, Owned()
      ensures Separate() && Outcome(Value(), updated, over) == Rounds.Handle(old(Value()), old(OpValue(op)))
      ensures fresh(Owned() - old(Owned())) && fresh(Arrays() - old(Arrays()))
    {
      hide RepInvariant;
      over := false;
      match op
      case JoinOp(id, _) => updated := Join(id);
      case StartOp(_, _, c) => updated := Start(c);
      case MessageOp(id, _, m, hash) => updated := Message(id, m, hash);
      case RevealOp(id, _, key) => updated, over := RevealKey(id, key);
      case AbortOp(_) =>
        phase := Failed;
        updated, over := true, true;
    }

    /** The handlers together: the slot's new value, and which slices it has now. */
    method Handle(op: OpRef) returns (updated: bool, over: bool)
      requires Separate() && RepInvariant(Value()) && Active(phase)
      requires Owned() !! Slices(op)
      modifies this, Owned()
      ensures Separate() && Outcome(Value(), updated, over) == Rounds.Handle(old(Value()), old(OpValue(op)))
      ensures fresh(Owned() - old(Owned())) && fresh(Arrays() - old(Arrays()) - Slices(op))
    {
      hide RepInvariant, Rounds.Handle, RoundRecord.Value;
      if RewritesMessages(op) {
        updated := HandleMessages(op);
        over := false;
      } else {
        updated, over := HandleOther(op);
      }
    }

    method CopyFlags() returns (e: array<bool>, s: array<bool>, d: array<bool>)
      ensures fresh(e) && fresh(s) && fresh(d) && e != s && s != d && e != d
      ensures e[..] == encrypted[..] && s[..] == scrambled[..] && d[..] == decrypted[..]
    {
      e := CopySlice(encrypted);
      s := CopySlice(scrambled);
      d := CopySlice(decrypted);
    }

    /** The copies of DeepCopy: every slice in new storage. */
    method CopyAll() returns (c: RoundRecord)
      requires messages.Length <= participants.Length
      ensures fresh(c) && fresh(c.Arrays()) && c.Separate()
      ensures c.Value() == RoundInfo(phase, crypto, participants[..],
                                     messages[..] + seq(participants.Length - messages.Length, i => NilMsg),
                                     encrypted[..], scrambled[..], decrypted[..], revealedKeys[..], revealKeyHashes[..])
    {
      hide RoundRecord.Value, RoundRecord.Arrays;
      var ids := CopySlice(participants);
      var ms := CopyMessages(messages, participants.Length);
      var e, s, d := CopyFlags();
      var keys := CopySlice(revealedKeys);
      var hashes := CopySlice(revealKeyHashes);
      c := new RoundRecord.Of(phase, crypto, ids, ms, e, s, d, keys, hashes);
    }

    /** DeepCopy: a short message list is padded with nil messages; a long one makes the source panic. */
    method DeepCopy() returns (c: RoundRecord)
      requires messages.Length <= participants.Length
      ensures fresh(c) && fresh(c.Arrays()) && c.Separate()
      ensures c.Value() == CopyOf(Value())
    {
      c := CopyAll();
    }
  }

  function CopyOf(ri: RoundInfo): RoundInfo
    requires |ri.messages| <= |ri.participants|
  {
    ri.(messages := ri.messages + seq(|ri.participants| - |ri.messages|, i => NilMsg))
  }

  lemma CopyExact(ri: RoundInfo)
    requires |ri.messages| == |ri.participants|
    ensures CopyOf(ri) == ri
  {
    assert ri.messages + [] == ri.messages;
  }

  // ----- slots beside one another

  /** What operations write into c is no slice of r. */
  ghost predicate Beside(r: RoundRecord, c: RoundRecord)
    reads r, c
  {
    r != c && r.Arrays() !! c.Owned()
  }

  /** Handling an operation in c leaves two other slots alone. */
  method HandleBeside(c: RoundRecord, x: RoundRecord, y: RoundRecord, op: OpRef) returns (updated: bool, over: bool)
    requires c.Separate() && RepInvariant(c.Value()) && Active(c.phase) && c.Owned() !! Slices(op)
    requires Beside(x, c) && Beside(y, c)
    modifies c, c.Owned()
    ensures c.Separate() && Beside(x, c) && Beside(y, c) && fresh(c.Owned() - old(c.Owned()))
    ensures Outcome(c.Value(), updated, over) == Rounds.Handle(old(c.Value()), old(OpValue(op)))
    ensures x.Value() == old(x.Value()) && y.Value() == old(y.Value())
  {
    hide Rounds.Handle, RepInvariant;
    hide RoundRecord.Value, RoundRecord.Arrays, RoundRecord.Owned, RoundRecord.Separate;
    assert allocated(x.Arrays()) && allocated(y.Arrays());
    updated, over := c.Handle(op);
  }

  // ----- the machine

  /** The zero values of the ring, the first slot in its prepare phase. */
  method NewSlots() returns (a: RoundRecord, b: RoundRecord, c: RoundRecord)
    ensures fresh(a) && fresh(b) && fresh(c) && a != b && b != c && a != c
    ensures a.Separate() && b.Separate() && c.Separate()
    ensures fresh(a.Arrays()) && fresh(b.Arrays()) && fresh(c.Arrays())
    ensures a.Arrays() !! b.Arrays() && b.Arrays() !! c.Arrays() && a.Arrays() !! c.Arrays()
    ensures a.Value() == FreshRound && b.Value() == EmptyRound(Unset) && c.Value() == EmptyRound(Unset)
  {
    hide RoundRecord.Value, RoundRecord.Arrays, RoundRecord.Owned, RoundRecord.Separate;
    a := new RoundRecord(Prepare);
    assert allocated(a.Arrays());
    b := new RoundRecord(Unset);
    assert allocated(b.Arrays());
    c := new RoundRecord(Unset);
  }

  class StateMachine {
    var round: nat
    const rounds: seq<RoundRecord>

    /** Three slots, and what operations write into the current one belongs to no other slot. */
    ghost predicate Separated()
      reads this, rounds
    {
      && |rounds| == 3
      && rounds[0] != rounds[1] && rounds[1] != rounds[2] && rounds[0] != rounds[2]
      && rounds[0].Separate() && rounds[1].Separate() && rounds[2].Separate()
      && Beside(rounds[(round + 1) % 3], rounds[round % 3]) && Beside(rounds[(round + 2) % 3], rounds[round % 3])
    }

    /** All slices of all slots. */
    ghost function Arrays(): set<object>
      requires |rounds| == 3
      reads this, rounds
    {
      rounds[0].Arrays() + rounds[1].Arrays() + rounds[2].Arrays()
    }

    ghost function Abstract(): State
      requires |rounds| == 3
      reads this, rounds, Arrays()
    {
      State(round, [rounds[0].Value(), rounds[1].Value(), rounds[2].Value()])
    }

    ghost predicate Valid()
      requires |rounds| == 3
      reads this, rounds, Arrays()
      ensures Valid() ==> Rounds.Valid(Abstract())
    {
      Separated() && Rounds.Valid(Abstract())
    }

    /** What the next operation may write besides the machine's own records. */
    ghost function Owned(): set<object>
      requires |rounds| == 3
      reads this, rounds
    {
      rounds[round % 3].Owned()
    }

    constructor ()
      ensures |rounds| == 3 && Valid() && Abstract() == InitialState
      ensures fresh(rounds) && fresh(Arrays())
    {
      hide RoundRecord.Value, RoundRecord.Arrays, RoundRecord.Owned, RoundRecord.Separate;
      round := 0;
      var a, b, c := NewSlots();
      rounds := [a, b, c];
      new;
      FreshRoundRep();
      hide RepInvariant, Rounds.Valid;
      assert Abstract() == InitialState;
    }

    /** The handlers work on the current slot and leave the other two alone. */
    method HandleCurrent(op: OpRef) returns (updated: bool, over: bool)
      requires Separated() && Owned() !! Slices(op)
      requires RepInvariant(rounds[round % 3].Value()) && Active(rounds[round % 3].phase)
      modifies rounds[round % 3], Owned()
      ensures Separated() && fresh(Owned() - old(Owned()))
      ensures var o := Rounds.Handle(old(rounds[round % 3].Value()), old(OpValue(op)));
              && updated == o.updated && over == o.over
              && Abstract() == State(round, old(Abstract()).rounds[round % 3 := o.ri])
    {
      hide Rounds.Handle, RepInvariant, Beside;
      hide RoundRecord.Value, RoundRecord.Arrays, RoundRecord.Owned, RoundRecord.Separate;
      updated, over := HandleBeside(rounds[round % 3], rounds[(round + 1) % 3], rounds[(round + 2) % 3], op);
    }

    /** The round number moves on and the slot it falls on is started afresh. */
    method Advance()
      requires Separated()
      modifies this`round, rounds[(round + 1) % 3]
      ensures Separated() && fresh(Owned())
      ensures Abstract() == State(old(round) + 1, old(Abstract()).rounds[(old(round) + 1) % 3 := FreshRound])
    {
      hide RoundRecord.Value, RoundRecord.Arrays, RoundRecord.Owned, RoundRecord.Separate;
      assert allocated(rounds[0].Arrays()) && allocated(rounds[1].Arrays()) && allocated(rounds[2].Arrays());
      round := round + 1;
      rounds[round % 3].Init();
    }

    /**
     * Apply changes the current record, and the next one when the round ends; a message list that came with an
     * operation is kept by reference and never written.
     */
    method Apply(op: OpRef) returns (updated: bool)
      requires |rounds| == 3 && Valid() && Owned() !! Slices(op)
      modifies this, rounds, Owned()
      ensures Valid() && fresh(Owned() - old(Owned()))
      ensures Applied(Abstract(), updated) == Rounds.Apply(old(Abstract()), old(OpValue(op)))
    {
      if op.r != round {
        return false;
      }
      ghost var before, value := Abstract(), OpValue(op);
      CurrentSlot();
      ApplyKeepsValid(before, value);
      ApplyShape(before, value);
      hide Rounds.Handle, Rounds.Apply, RepInvariant, Rounds.Valid, Separated, Abstract, StateMachine.Owned;
      hide RoundRecord.Value, RoundRecord.Arrays, RoundRecord.Owned, RoundRecord.Separate;
      var over;
      updated, over := HandleCurrent(op);
      if over {
        Advance();
      }
    }

    lemma CurrentSlot()
      requires |rounds| == 3 && Valid()
      ensures Current(Abstract()) == rounds[round % 3].Value()
      ensures RepInvariant(rounds[round % 3].Value()) && Active(rounds[round % 3].phase)
    {
    }

    method CopySlot(i: nat) returns (c: RoundRecord)
      requires i < |rounds| && rounds[i].messages.Length == rounds[i].participants.Length
      ensures fresh(c) && fresh(c.Arrays()) && c.Separate() && c.Value() == rounds[i].Value()
    {
      CopyExact(rounds[i].Value());
      c := rounds[i].DeepCopy();
    }

    method CopySlots() returns (r0: RoundRecord, r1: RoundRecord, r2: RoundRecord)
      requires |rounds| == 3 && forall r :: r in rounds ==> r.messages.Length == r.participants.Length
      ensures fresh(r0) && fresh(r1) && fresh(r2) && r0 != r1 && r1 != r2 && r0 != r2
      ensures r0.Separate() && r1.Separate() && r2.Separate()
      ensures fresh(r0.Arrays()) && fresh(r1.Arrays()) && fresh(r2.Arrays())
      ensures r0.Arrays() !! r1.Arrays() && r1.Arrays() !! r2.Arrays() && r0.Arrays() !! r2.Arrays()
      ensures r0.Value() == old(rounds[0].Value()) && r1.Value() == old(rounds[1].Value())
      ensures r2.Value() == old(rounds[2].Value())
    {
      hide RoundRecord.Value, RoundRecord.Arrays, RoundRecord.Owned, RoundRecord.Separate;
      assert allocated(rounds[0].Arrays()) && allocated(rounds[1].Arrays()) && allocated(rounds[2].Arrays());
      r0 := CopySlot(0);
      assert allocated(r0.Arrays());
      r1 := CopySlot(1);
      assert allocated(r1.Arrays());
      r2 := CopySlot(2);
    }

    /** DeepCopy: equal values, no shared storage. */
    method DeepCopy() returns (c: StateMachine)
      requires |rounds| == 3 && Valid() && forall r :: r in rounds ==> r.messages.Length == r.participants.Length
      ensures |c.rounds| == 3 && c.Valid() && c.Abstract() == old(Abstract())
      ensures fresh(c) && fresh(c.rounds) && fresh(c.Arrays())
    {
      hide Rounds.Valid;
      hide RoundRecord.Value, RoundRecord.Arrays, RoundRecord.Owned, RoundRecord.Separate;
      var r0, r1, r2 := CopySlots();
      assert allocated(r0.Arrays()) && allocated(r1.Arrays()) && allocated(r2.Arrays());
      c := new StateMachine.FromSlots(round, r0, r1, r2);
    }

    constructor FromSlots(round: nat, r0: RoundRecord, r1: RoundRecord, r2: RoundRecord)
      requires r0 != r1 && r1 != r2 && r0 != r2 && r0.Separate() && r1.Separate() && r2.Separate()
      requires r0.Arrays() !! r1.Arrays() && r1.Arrays() !! r2.Arrays() && r0.Arrays() !! r2.Arrays()
      ensures rounds == [r0, r1, r2] && Separated() && Arrays() == r0.Arrays() + r1.Arrays() + r2.Arrays()
      ensures Abstract() == State(round, [r0.Value(), r1.Value(), r2.Value()])
    {
      this.round := round;
      rounds := [r0, r1, r2];
    }
  }

  /** The two machines have no mutable storage in common. */
  ghost predicate Apart(a: StateMachine, b: StateMachine)
    requires |a.rounds| == 3 && |b.rounds| == 3
    reads a, a.rounds, b, b.rounds
  {
    && a != b
    && (forall r :: r in a.rounds ==> r !in b.rounds)
    && a.Owned() !! b.Arrays()
  }

  /** The message lists of the operations are not the machine's own. */
  ghost predicate Foreign(a: StateMachine, ops: seq<OpRef>)
    requires |a.rounds| == 3
    reads a, a.rounds
  {
    forall i :: 0 <= i < |ops| ==> a.Owned() !! Slices(ops[i])
  }

  /**
   * Snapshot isolation: however many operations are applied to a machine, a copy that shares no storage with it keeps
   * its value, and so do the operations, although the machine keeps their message lists by reference.
   */
  method ApplyAll(a: StateMachine, b: StateMachine, ops: seq<OpRef>, ghost values: seq<Op>)
    requires |a.rounds| == 3 && |b.rounds| == 3 && a.Valid() && b.Valid() && Apart(a, b) && Foreign(a, ops)
    requires |values| == |ops| && forall i :: 0 <= i < |ops| ==> OpValue(ops[i]) == values[i]
    modifies a, a.rounds, a.Owned()
    ensures a.Valid() && a.Abstract() == Run(old(a.Abstract()), values)
    ensures b.Valid() && b.Abstract() == old(b.Abstract())
    ensures forall i :: 0 <= i < |ops| ==> OpValue(ops[i]) == values[i]
  {
    hide Rounds.Valid, Rounds.Apply, OpValue, Apart, Foreign;
    hide StateMachine.Valid, StateMachine.Abstract, StateMachine.Arrays;
    hide RoundRecord.Value, RoundRecord.Arrays, RoundRecord.Owned, RoundRecord.Separate;
    ghost var start := a.Abstract();
    for k := 0 to |ops|
      invariant a.Valid() && b.Valid() && Apart(a, b) && Foreign(a, ops) && fresh(a.Owned() - old(a.Owned()))
      invariant a.Abstract() == Run(start, values[..k])
      invariant b.Abstract() == old(b.Abstract())
      invariant forall i :: 0 <= i < |ops| ==> OpValue(ops[i]) == values[i]
    {
      RunSnoc(start, values[..k], values[k]);
      assert values[..k + 1] == values[..k] + [values[k]];
      ApplyBeside(a, b, ops, k);
      assert allocated(a.Owned());
    }
    assert values[..|values|] == values;
  }

  /** One operation: the copy and all operations keep their values. */
  method ApplyBeside(a: StateMachine, b: StateMachine, ops: seq<OpRef>, k: nat)
    requires |a.rounds| == 3 && |b.rounds| == 3 && a.Valid() && b.Valid() && Apart(a, b) && Foreign(a, ops) && k < |ops|
    modifies a, a.rounds, a.Owned()
    ensures a.Valid() && a.Abstract() == Rounds.Apply(old(a.Abstract()), old(OpValue(ops[k]))).state
    ensures b.Valid() && b.Abstract() == old(b.Abstract())
    ensures Apart(a, b) && Foreign(a, ops) && fresh(a.Owned() - old(a.Owned()))
    ensures forall i :: 0 <= i < |ops| ==> OpValue(ops[i]) == old(OpValue(ops[i]))
  {
    hide Rounds.Valid, Rounds.Apply;
    hide RoundRecord.Value, RoundRecord.Arrays, RoundRecord.Owned, RoundRecord.Separate;
    assert a.Owned() !! Slices(ops[k]);
    assert allocated(b.rounds[0].Arrays()) && allocated(b.rounds[1].Arrays()) && allocated(b.rounds[2].Arrays());
    hide StateMachine.Separated;
    assert b.rounds[0] !in a.rounds && b.rounds[1] !in a.rounds && b.rounds[2] !in a.rounds;
    assert b.rounds[0].Arrays() !! a.Owned() && b.rounds[1].Arrays() !! a.Owned() && b.rounds[2].Arrays() !! a.Owned();
    var _ := a.Apply(ops[k]);
    assert b.rounds[0].Value() == old(b.rounds[0].Value());
    assert b.rounds[1].Value() == old(b.rounds[1].Value());
    assert b.rounds[2].Value() == old(b.rounds[2].Value());
  }

  /** A snapshot taken with DeepCopy keeps its value whatever is applied to the original afterwards. */
  method ApplyAfterSnapshot(a: StateMachine, ops: seq<OpRef>, ghost values: seq<Op>) returns (snapshot: StateMachine)
    requires |a.rounds| == 3 && a.Valid() && Foreign(a, ops)
    requires forall r :: r in a.rounds ==> r.messages.Length == r.participants.Length
    requires |values| == |ops| && forall i :: 0 <= i < |ops| ==> OpValue(ops[i]) == values[i]
    modifies a, a.rounds, a.Owned()
    ensures a.Valid() && a.Abstract() == Run(old(a.Abstract()), values)
    ensures |snapshot.rounds| == 3 && snapshot.Valid() && snapshot.Abstract() == old(a.Abstract())
  {
    hide Rounds.Valid, OpValue;
    hide RoundRecord.Value, RoundRecord.Arrays, RoundRecord.Owned, RoundRecord.Separate;
    assert allocated(a.Arrays());
    snapshot := a.DeepCopy();
    ApplyAll(a, snapshot, ops, values);
  }
}
