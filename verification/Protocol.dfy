/**
 * The whole system: clients that compute operations from views of the log as stale as they like, and a log
 * that commits computed operations in any order, any number of times, or never.
 */
module Protocol {
  import opened NumberTheory
  import opened Bytes
  import opened MasseyOmura
  import opened Crypto
  import opened Ops
  import opened Rounds
  import opened Runs
  import opened Layers
  import opened ClientSteps
  import opened Honest
  import opened HonestSteps

  /** A client's variables, and how far into the log it has read. */
  datatype ClientState = ClientState(local: Local, cursor: nat)

  /** A computed operation, and the length of the log it was computed from. */
  datatype Issued = Issued(op: Op, origin: nat)

  datatype System = System(
    log: seq<Op>,
    clients: map<Uuid, ClientState>,
    issued: set<Issued>,
    history: History)

  const InitialSystem: System := System([], map[], {}, History(map[], map[], map[]))

  /** The state after the first i operations of the log. */
  function StateAt(log: seq<Op>, i: nat): (s: State)
    requires i <= |log|
    ensures Valid(s)
  {
    FromStart(log[..i])
  }

  datatype Step =
    | NewClient(id: Uuid, at: nat)                 // a client starts reading, at a server that may lag behind
    | Update(id: Uuid, at: nat, choices: Choices)  // a client handles a state machine update
    | Rejoin(id: Uuid, at: nat)                    // a configuration update makes a client join
    | StartRound(id: Uuid, at: nat, crypto: Crypto)  // a user starts the round, with any crypto
    | AbortRound(at: nat)                          // a timeout, or a client being killed
    | Commit(entry: Issued)                        // the log takes a computed operation

  predicate Enabled(size: nat, sys: System, step: Step) {
    match step
    case NewClient(id, at) => id !in sys.clients && at <= |sys.log|
    case Update(id, at, ch) =>
      && id in sys.clients && sys.clients[id].cursor <= at <= |sys.log|
      && Admissible(size, sys.clients[id].local, StateAt(sys.log, at), ch)
    case Rejoin(id, at) =>
      id in sys.clients && at <= |sys.log| && id !in Current(StateAt(sys.log, at)).participants
    case StartRound(id, at, _) =>
      id in sys.clients && at <= |sys.log| && id in Current(StateAt(sys.log, at)).participants
    case AbortRound(at) => at <= |sys.log|
    case Commit(entry) => entry in sys.issued
  }

  /** What an update adds to the history: the drawn keys when it takes new ones, the user's text when it sends one. */
  function NextHistory(size: nat, h: History, id: Uuid, sm: State, l: Local, e: Effect, ch: Choices): History
    requires Valid(sm) && |ch.random| == 8 && |ch.fallbackRandom| == 8
  {
    var c := Current(sm).crypto;
    if e.local.lastKeyGen == l.lastKeyGen || c.None? then h
    else
      var k, sessions := (id, sm.round), h.sessions[(id, sm.round) := Session(c.value, ch.keys)];
      if e.op.Some? && e.op.value.MessageOp?
      then History(sessions, h.said[k := SaidBy(ch)], h.texts[k := Worded(size, SaidBy(ch))])
      else History(sessions, h.said, h.texts)
  }

  function Issue(sys: System, op: Op, at: nat): System {
    sys.(issued := sys.issued + {Issued(op, at)})
  }

  function Do(size: nat, sha: Sha256, sys: System, step: Step): System
    requires Enabled(size, sys, step)
  {
    match step
    case NewClient(id, at) => sys.(clients := sys.clients[id := ClientState(InitialLocal, at)])
    case Update(id, at, ch) =>
      var sm, l := StateAt(sys.log, at), sys.clients[id].local;
      var e := Observe(size, sha, id, l, sm, ch);
      System(sys.log,
             sys.clients[id := ClientState(e.local, at)],
             if e.op.Some? then sys.issued + {Issued(e.op.value, at)} else sys.issued,
             NextHistory(size, sys.history, id, sm, l, e, ch))
    case Rejoin(id, at) => Issue(sys, JoinOp(id, StateAt(sys.log, at).round), at)
    case StartRound(id, at, crypto) => Issue(sys, StartOp(id, StateAt(sys.log, at).round, Some(crypto)), at)
    case AbortRound(at) => Issue(sys, AbortOp(StateAt(sys.log, at).round), at)
    case Commit(entry) => sys.(log := sys.log + [entry.op])
  }

  ghost predicate Next(size: nat, sha: Sha256, a: System, b: System) {
    exists step :: Enabled(size, a, step) && b == Do(size, sha, a, step)
  }

  /** A run of the system from its start. */
  ghost predicate IsRun(size: nat, sha: Sha256, run: seq<System>) {
    && run != [] && run[0] == InitialSystem
    && forall i :: 0 < i < |run| ==> Next(size, sha, run[i - 1], run[i])
  }

  lemma LastStep(size: nat, sha: Sha256, run: seq<System>) returns (step: Step)
    requires IsRun(size, sha, run) && |run| > 1
    ensures IsRun(size, sha, run[..|run| - 1])
    ensures Enabled(size, run[|run| - 2], step) && run[|run| - 1] == Do(size, sha, run[|run| - 2], step)
  {
    hide Enabled, Do;
    assert forall i :: 0 < i < |run| - 1 ==> Next(size, sha, run[i - 1], run[i]);
    assert Next(size, sha, run[|run| - 2], run[|run| - 1]);
    step :| Enabled(size, run[|run| - 2], step) && run[|run| - 1] == Do(size, sha, run[|run| - 2], step);
  }

  // ----- the log as a sequence of states

  lemma StateAtPrefix(log: seq<Op>, more: seq<Op>, i: nat)
    requires i <= |log|
    ensures StateAt(log + more, i) == StateAt(log, i)
  {
    assert (log + more)[..i] == log[..i];
  }

  lemma StateAtSnoc(log: seq<Op>, op: Op)
    ensures StateAt(log + [op], |log| + 1) == Apply(StateAt(log, |log|), op).state
  {
    FreshRoundRep();
    assert (log + [op])[..|log| + 1] == log + [op] && log[..|log|] == log;
    RunSnoc(InitialState, log, op);
  }

  lemma StateAtEvolves(log: seq<Op>, i: nat, j: nat)
    requires i <= j <= |log|
    ensures StateEvolves(StateAt(log, i), StateAt(log, j))
  {
    FreshRoundRep();
    assert log[..j] == log[..i] + log[i..j];
    RunConcat(InitialState, log[..i], log[i..j]);
    RunEvolves(StateAt(log, i), log[i..j]);
  }

  // ----- the invariant

  predicate ClientOk(log: seq<Op>, h: History, id: Uuid, cs: ClientState) {
    var l := cs.local;
    && cs.cursor <= |log|
    && l.lastMessageRound == l.lastKeyGen <= StateAt(log, cs.cursor).round
    && (l.lastKeyGen >= 0 ==> (id, l.lastKeyGen) in h.sessions && h.sessions[(id, l.lastKeyGen)].keys == l.keys)
    && forall k :: k in h.sessions && k.0 == id ==> k.1 <= l.lastKeyGen
  }

  predicate EntryOk(sha: Sha256, log: seq<Op>, h: History, e: Issued) {
    && e.origin <= |log|
    && ComputedFrom(StateAt(log, e.origin), e.op)
    && Content(sha, h, Current(StateAt(log, e.origin)), e.op)
  }

  /** The rounds that the state still stores are all good. */
  predicate StateGood(sha: Sha256, h: History, s: State) {
    |s.rounds| == 3 && forall r :: 0 <= r <= s.round && s.round - 3 < r ==> RoundGood(sha, h, s.rounds[r % 3], r)
  }

  predicate StatesGood(sha: Sha256, h: History, log: seq<Op>) {
    forall i :: 0 <= i <= |log| ==> StateGood(sha, h, StateAt(log, i))
  }

  predicate ClientsOk(log: seq<Op>, h: History, clients: map<Uuid, ClientState>) {
    && (forall id :: id in clients ==> ClientOk(log, h, id, clients[id]))
    && (forall k :: k in h.sessions ==> k.0 in clients)
  }

  predicate EntriesOk(sha: Sha256, log: seq<Op>, h: History, issued: set<Issued>) {
    forall e :: e in issued ==> EntryOk(sha, log, h, e)
  }

  predicate Inv(size: nat, sha: Sha256, sys: System) {
    && HistoryOk(size, sys.history)
    && ClientsOk(sys.log, sys.history, sys.clients)
    && EntriesOk(sha, sys.log, sys.history, sys.issued)
    && StatesGood(sha, sys.history, sys.log)
  }

  lemma InvEntry(size: nat, sha: Sha256, sys: System, e: Issued)
    requires Inv(size, sha, sys) && e in sys.issued
    ensures EntryOk(sha, sys.log, sys.history, e)
  {
  }

  // ----- committing

  /** An accepted operation has the content its client would compute from the current round. */
  lemma ContentTransfers(sha: Sha256, h: History, s: State, t: State, op: Op)
    requires Valid(s) && Valid(t) && StateEvolves(s, t)
    requires ComputedFrom(s, op) && Content(sha, h, Current(s), op) && Apply(t, op).updated
    ensures s.round == t.round && Content(sha, h, Current(t), op)
  {
    if RewritesMessages(op) {
      TestAndSet(s, t, op);
    }
    hide Count, RepInvariant, FlagsGrow, SameVersion;
  }

  lemma FreshRoundGood(sha: Sha256, h: History, r: int)
    ensures RoundGood(sha, h, FreshRound, r)
  {
    FreshRoundRep();
  }

  /** Replacing the current round, and moving on to a fresh one, touch no other stored round. */
  lemma SlotUpdateGood(sha: Sha256, h: History, t: State, x: RoundInfo)
    requires StateGood(sha, h, t) && RoundGood(sha, h, x, t.round)
    ensures StateGood(sha, h, State(t.round, t.rounds[t.round % 3 := x]))
    ensures StateGood(sha, h, State(t.round + 1, t.rounds[t.round % 3 := x][(t.round + 1) % 3 := FreshRound]))
  {
    assert |t.rounds| == 3;
    hide RoundGood, StateGood;
    SlotReplaced(sha, h, t, x);
    var s := State(t.round, t.rounds[t.round % 3 := x]);
    SlotOpened(sha, h, s);
  }

  lemma SlotReplaced(sha: Sha256, h: History, t: State, x: RoundInfo)
    requires StateGood(sha, h, t) && RoundGood(sha, h, x, t.round)
    ensures StateGood(sha, h, State(t.round, t.rounds[t.round % 3 := x]))
  {
    hide RoundGood;
    var s := State(t.round, t.rounds[t.round % 3 := x]);
    forall r | 0 <= r <= s.round && s.round - 3 < r ensures RoundGood(sha, h, s.rounds[r % 3], r) {
      OtherSlot(r, t.round);
      assert r < t.round ==> RoundGood(sha, h, t.rounds[r % 3], r);
    }
  }

  lemma SlotOpened(sha: Sha256, h: History, t: State)
    requires StateGood(sha, h, t)
    ensures StateGood(sha, h, State(t.round + 1, t.rounds[(t.round + 1) % 3 := FreshRound]))
  {
    FreshRoundGood(sha, h, t.round + 1);
    hide RoundGood;
    var s := State(t.round + 1, t.rounds[(t.round + 1) % 3 := FreshRound]);
    forall r | 0 <= r <= s.round && s.round - 3 < r ensures RoundGood(sha, h, s.rounds[r % 3], r) {
      OtherSlot(r, t.round + 1);
      assert r <= t.round ==> RoundGood(sha, h, t.rounds[r % 3], r);
    }
  }

  lemma OtherSlot(r: int, round: int)
    requires round - 3 < r < round || r == round
    ensures r % 3 == round % 3 <==> r == round
  {
    assert r == round || r == round - 1 || r == round - 2;
  }

  lemma CurrentGood(sha: Sha256, h: History, t: State)
    requires Valid(t) && StateGood(sha, h, t)
    ensures RepInvariant(Current(t)) && Active(Current(t).phase) && RoundGood(sha, h, Current(t), t.round)
  {
  }

  lemma ApplyKeepsGood(size: nat, sha: Sha256, h: History, t: State, op: Op)
    requires Valid(t) && HistoryOk(size, h) && StateGood(sha, h, t)
    requires Apply(t, op).updated ==> Content(sha, h, Current(t), op)
    ensures StateGood(sha, h, Apply(t, op).state)
  {
    CurrentGood(sha, h, t);
    hide *;
    if op.r == t.round {
      ApplyShape(t, op);
      HandleKeepsGood(size, sha, h, Current(t), op);
      SlotUpdateGood(sha, h, t, Handle(Current(t), op).ri);
    } else {
      ApplyOther(t, op);
    }
  }

  lemma ApplyOther(t: State, op: Op)
    requires Valid(t) && op.r != t.round
    ensures Apply(t, op).state == t
  {
  }

  lemma CommitKeepsStates(size: nat, sha: Sha256, sys: System, e: Issued)
    requires Inv(size, sha, sys) && e in sys.issued
    ensures StatesGood(sha, sys.history, sys.log + [e.op])
  {
    hide HistoryOk, ClientsOk, RepInvariant;
    var n := |sys.log|;
    assert EntryOk(sha, sys.log, sys.history, e);
    var s, t := StateAt(sys.log, e.origin), StateAt(sys.log, n);
    StateAtEvolves(sys.log, e.origin, n);
    if Apply(t, e.op).updated {
      ContentTransfers(sha, sys.history, s, t, e.op);
    }
    ApplyKeepsGood(size, sha, sys.history, t, e.op);
    StateAtSnoc(sys.log, e.op);
    hide StateGood, Apply, FromStart;
    forall i | 0 <= i <= n + 1 ensures StateGood(sha, sys.history, StateAt(sys.log + [e.op], i)) {
      if i <= n {
        StateAtPrefix(sys.log, [e.op], i);
      }
    }
  }

  /** A longer log and a larger history keep what was known about computed operations. */
  lemma EntriesMonotone(sha: Sha256, log: seq<Op>, more: seq<Op>, h: History, g: History, issued: set<Issued>)
    requires EntriesOk(sha, log, h, issued) && Extends(h, g)
    ensures EntriesOk(sha, log + more, g, issued)
  {
    forall e | e in issued ensures EntryOk(sha, log + more, g, e) {
      assert EntryOk(sha, log, h, e);
      StateAtPrefix(log, more, e.origin);
      ContentMonotone(sha, h, g, Current(StateAt(log, e.origin)), e.op);
    }
  }

  lemma CommitKeepsClients(log: seq<Op>, op: Op, h: History, clients: map<Uuid, ClientState>)
    requires ClientsOk(log, h, clients)
    ensures ClientsOk(log + [op], h, clients)
  {
    forall id | id in clients ensures ClientOk(log + [op], h, id, clients[id]) {
      assert ClientOk(log, h, id, clients[id]);
      StateAtPrefix(log, [op], clients[id].cursor);
    }
  }

  lemma CommitKeepsInv(size: nat, sha: Sha256, sys: System, e: Issued)
    requires Inv(size, sha, sys) && e in sys.issued
    ensures Inv(size, sha, sys.(log := sys.log + [e.op]))
  {
    CommitKeepsStates(size, sha, sys, e);
    hide HistoryOk, ClientsOk, EntriesOk, StatesGood, Extends;
    CommitKeepsClients(sys.log, e.op, sys.history, sys.clients);
    ExtendsReflexive(sys.history);
    EntriesMonotone(sha, sys.log, [e.op], sys.history, sys.history, sys.issued);
  }

  lemma ExtendsReflexive(h: History)
    ensures Extends(h, h)
  {
  }

  lemma IssueKeepsInv(size: nat, sha: Sha256, sys: System, op: Op, at: nat)
    requires Inv(size, sha, sys) && EntryOk(sha, sys.log, sys.history, Issued(op, at))
    ensures Inv(size, sha, Issue(sys, op, at))
  {
    hide HistoryOk, ClientsOk, StatesGood, EntryOk;
  }

  lemma NewClientKeepsInv(size: nat, sha: Sha256, sys: System, id: Uuid, at: nat)
    requires Inv(size, sha, sys) && id !in sys.clients && at <= |sys.log|
    ensures Inv(size, sha, sys.(clients := sys.clients[id := ClientState(InitialLocal, at)]))
  {
    hide HistoryOk, StatesGood, EntriesOk;
    assert forall k :: k in sys.history.sessions ==> k.0 in sys.clients;
  }

  // ----- updates

  lemma RoundSession(sha: Sha256, h: History, ri: RoundInfo, r: int, id: Uuid)
    requires RoundGood(sha, h, ri, r) && 2 <= PhaseOrder(ri.phase) <= 5 && id in ri.participants
    ensures Mine(h, ri, id, r)
  {
    Disassemble(sha, h, ri, r);
    LayersKnown(sha, h, ri, r);
    assert KnownAt(sha, h, ri, r, ParticipantIndex(ri.participants, id));
  }

  lemma LayersKnown(sha: Sha256, h: History, ri: RoundInfo, r: int)
    requires PhaseLayers(sha, h, ri, r)
    ensures Known(sha, h, ri, r)
  {
  }

  lemma CursorRound(log: seq<Op>, h: History, id: Uuid, cs: ClientState, at: nat)
    requires ClientOk(log, h, id, cs) && cs.cursor <= at <= |log|
    ensures cs.local.lastKeyGen <= StateAt(log, at).round
  {
    StateAtEvolves(log, cs.cursor, at);
  }

  /** The client holds the keys of its session in this round. */
  predicate HoldsKeys(h: History, l: Local, sm: State, id: Uuid)
    requires Valid(sm)
  {
    Mine(h, Current(sm), id, sm.round) && h.sessions[(id, sm.round)].keys == l.keys
  }

  /** The session a participant has in the round it looks at is the one whose keys it holds. */
  lemma OwnKeys(size: nat, sha: Sha256, sys: System, id: Uuid, at: nat)
    requires Inv(size, sha, sys) && id in sys.clients && sys.clients[id].cursor <= at <= |sys.log|
    requires var ri := Current(StateAt(sys.log, at)); 2 <= PhaseOrder(ri.phase) <= 5 && id in ri.participants
    ensures HoldsKeys(sys.history, sys.clients[id].local, StateAt(sys.log, at), id)
  {
    var sm, cs := StateAt(sys.log, at), sys.clients[id];
    assert StateGood(sha, sys.history, sm);
    assert ClientOk(sys.log, sys.history, id, cs);
    hide *;
    CurrentGood(sha, sys.history, sm);
    CursorRound(sys.log, sys.history, id, cs, at);
    RoundSession(sha, sys.history, Current(sm), sm.round, id);
    KeysHeld(sys.log, sys.history, id, cs, sm);
  }

  lemma KeysHeld(log: seq<Op>, h: History, id: Uuid, cs: ClientState, sm: State)
    requires ClientOk(log, h, id, cs) && Valid(sm) && Mine(h, Current(sm), id, sm.round)
    requires cs.local.lastKeyGen <= sm.round
    ensures HoldsKeys(h, cs.local, sm, id)
  {
    assert (id, sm.round).0 == id;
    assert cs.local.lastKeyGen == sm.round;
  }

  /** Outside the submit phase an update leaves the keys alone, and what it sends is honest. */
  predicate HonestEffect(sha: Sha256, h: History, l: Local, sm: State, e: Effect)
    requires Valid(sm)
  {
    && e.local.lastKeyGen == l.lastKeyGen && e.local.lastMessageRound == l.lastMessageRound
    && e.local.keys == l.keys
    && (e.op.Some? ==> ComputedFrom(sm, e.op.value) && Content(sha, h, Current(sm), e.op.value))
  }

  lemma EncryptEffect(sha: Sha256, h: History, id: Uuid, l: Local, sm: State, ch: Choices)
    requires Valid(sm) && Current(sm).phase.Encrypt?
    requires id in Current(sm).participants ==> HoldsKeys(h, l, sm, id)
    ensures HonestEffect(sha, h, l, sm, ObserveEncrypt(id, l, sm.round, Current(sm), ch))
  {
    hide EncryptOthers, Count;
  }

  lemma ScrambleEffect(sha: Sha256, h: History, id: Uuid, l: Local, sm: State, ch: Choices)
    requires Valid(sm) && Current(sm).phase.Scramble? && ShuffleAdmissible(l, Current(sm), ch)
    requires id in Current(sm).participants ==> HoldsKeys(h, l, sm, id)
    ensures HonestEffect(sha, h, l, sm, ObserveScramble(id, l, sm.round, Current(sm), ch))
  {
    hide EncryptTwice, Count;
  }

  lemma DecryptEffect(sha: Sha256, h: History, id: Uuid, l: Local, sm: State, ch: Choices)
    requires Valid(sm) && Current(sm).phase.Decrypt?
    requires id in Current(sm).participants ==> HoldsKeys(h, l, sm, id)
    ensures HonestEffect(sha, h, l, sm, ObserveDecrypt(id, l, sm.round, Current(sm), ch))
  {
    hide DecryptTwice, Count;
  }

  lemma RevealEffect(sha: Sha256, h: History, id: Uuid, l: Local, sm: State, ch: Choices)
    requires Valid(sm) && Current(sm).phase.Reveal?
    requires id in Current(sm).participants ==> HoldsKeys(h, l, sm, id)
    ensures HonestEffect(sha, h, l, sm, ObserveReveal(id, l, sm.round, Current(sm), ch))
  {
    hide Count;
  }

  lemma ObserveEffect(size: nat, sha: Sha256, h: History, id: Uuid, l: Local, sm: State, ch: Choices)
    requires Valid(sm) && Admissible(size, l, sm, ch) && !Current(sm).phase.Submit?
    requires 2 <= PhaseOrder(Current(sm).phase) <= 5 && id in Current(sm).participants ==> HoldsKeys(h, l, sm, id)
    ensures HonestEffect(sha, h, l, sm, Observe(size, sha, id, l, sm, ch))
  {
    var ri := Current(sm);
    match ri.phase
    case Encrypt => EncryptEffect(sha, h, id, l, sm, ch);
    case Scramble => ScrambleEffect(sha, h, id, l, sm, ch);
    case Decrypt => DecryptEffect(sha, h, id, l, sm, ch);
    case Reveal => RevealEffect(sha, h, id, l, sm, ch);
    case _ =>
  }

  lemma FirstLayer(c: Crypto, key: PrivateKey, x: nat)
    ensures c.Encrypt(key, NewMsg(x)) == Wrap(c, [key.Pair()], x)
  {
    NewMsgValue(x);
    assert EncryptAll(c.P(), [key.Pair()], x) == EncryptAll(c.P(), [], MasseyOmura.Encrypt(c.P(), key.Pair(), x));
  }

  lemma WordedOk(size: nat, w: Said)
    requires w.Ok()
    ensures TextOk(size, Worded(size, w))
  {
    var text := Worded(size, w);
    assert text[..HeaderLength] == Header(if |w.text| <= size then w.random else w.fallbackRandom);
  }

  /** A submit update changes nothing that matters, or opens the client's session for the round. */
  predicate SubmitEffect(size: nat, sha: Sha256, h: History, g: History, id: Uuid, l: Local, sm: State, e: Effect)
    requires Valid(sm)
  {
    && Extends(h, g) && HistoryOk(size, g)
    && (e.op.Some? ==> ComputedFrom(sm, e.op.value) && Content(sha, g, Current(sm), e.op.value))
    && e.local.lastMessageRound == e.local.lastKeyGen
    && Opens(h, g, id, l, sm.round, e.local)
  }

  predicate Opens(h: History, g: History, id: Uuid, l: Local, round: int, l': Local) {
    || (l'.lastKeyGen == l.lastKeyGen && g == h && l'.keys == l.keys)
    || (&& l.lastKeyGen < l'.lastKeyGen == round
        && g.sessions.Keys == h.sessions.Keys + {(id, round)}
        && g.sessions[(id, round)].keys == l'.keys)
  }

  /** What was said and the text meant by it are recorded together. */
  predicate Records(h: History, k: (Uuid, int), w: Said, text: seq<byte>, g: History) {
    || (g.said == h.said && g.texts == h.texts)
    || (g.said == h.said[k := w] && g.texts == h.texts[k := text])
  }

  lemma SubmitOpens(size: nat, h: History, k: (Uuid, int), s: Session, w: Said, text: seq<byte>, g: History)
    requires HistoryOk(size, h) && k !in h.sessions && SessionOk(size, s)
    requires TextOk(size, text) && Means(size, w, text)
    requires g.sessions == h.sessions[k := s] && Records(h, k, w, text, g)
    ensures Extends(h, g) && HistoryOk(size, g)
  {
    hide TextOk, SessionOk, Means;
    assert k !in h.texts && k !in h.said;
    forall j | j in g.texts
      ensures j in g.sessions && TextOk(size, g.texts[j]) && j in g.said && Means(size, g.said[j], g.texts[j])
    {
      assert j == k || j in h.texts;
    }
  }

  lemma SubmitUpdate(size: nat, sha: Sha256, h: History, id: Uuid, l: Local, sm: State, ch: Choices)
    requires Valid(sm) && HistoryOk(size, h) && Admissible(size, l, sm, ch) && Current(sm).phase.Submit?
    requires l.lastMessageRound == l.lastKeyGen
    requires forall k :: k in h.sessions && k.0 == id ==> k.1 <= l.lastKeyGen
    ensures var e := Observe(size, sha, id, l, sm, ch);
            SubmitEffect(size, sha, h, NextHistory(size, h, id, sm, l, e, ch), id, l, sm, e)
  {
    var ri := Current(sm);
    ExtendsReflexive(h);
    var e := Observe(size, sha, id, l, sm, ch);
    if e.local.lastKeyGen == l.lastKeyGen {
      hide HistoryOk, TextSent, Plain, Extends, RepInvariant;
    } else {
      SubmitFresh(size, sha, h, id, l, sm, ch);
    }
  }

  lemma SubmitFresh(size: nat, sha: Sha256, h: History, id: Uuid, l: Local, sm: State, ch: Choices)
    requires Valid(sm) && HistoryOk(size, h) && Admissible(size, l, sm, ch) && Current(sm).phase.Submit?
    requires forall k :: k in h.sessions && k.0 == id ==> k.1 <= l.lastKeyGen
    requires l.lastMessageRound == l.lastKeyGen
    requires ObserveSubmit(size, sha, id, l, sm.round, Current(sm), ch).local.lastKeyGen != l.lastKeyGen
    ensures var e := Observe(size, sha, id, l, sm, ch);
            SubmitEffect(size, sha, h, NextHistory(size, h, id, sm, l, e, ch), id, l, sm, e)
  {
    var ri := Current(sm);
    var e := Observe(size, sha, id, l, sm, ch);
    var c := ri.crypto.value;
    hide RepInvariant, HistoryOk, TextSent, Plain;
    assert l.lastKeyGen < sm.round && c.Verify(size + HeaderLength) && AdmissibleKeys(c, ch.keys);
    assert e.local == l.(keys := ch.keys, lastKeyGen := sm.round, lastMessageRound := sm.round);
    assert e.op.Some? ==> e.op.value == SubmitOp(sha, id, sm.round, c, ch.keys, ch) && id in ri.participants;
    SubmitFreshEffect(size, sha, h, id, l, sm, ch, e, c);
  }

  lemma SubmitFreshEffect(size: nat, sha: Sha256, h: History, id: Uuid, l: Local, sm: State, ch: Choices,
                          e: Effect, c: Crypto)
    requires Valid(sm) && HistoryOk(size, h) && Current(sm).phase.Submit? && Current(sm).crypto == Some(c)
    requires |ch.random| == 8 && |ch.fallbackRandom| == 8
    requires forall k :: k in h.sessions && k.0 == id ==> k.1 <= l.lastKeyGen
    requires l.lastKeyGen < sm.round && c.Verify(size + HeaderLength) && AdmissibleKeys(c, ch.keys)
    requires e.local == l.(keys := ch.keys, lastKeyGen := sm.round, lastMessageRound := sm.round)
    requires e.op.Some? ==>
               && e.op.value == SubmitOp(sha, id, sm.round, c, ch.keys, ch) && e.op.value.MessageOp?
               && id in Current(sm).participants
    ensures SubmitEffect(size, sha, h, NextHistory(size, h, id, sm, l, e, ch), id, l, sm, e)
  {
    hide VerifySysKey, ValidKey, Prime, Valid, TextSent, HistoryOk, SubmitOp, Extends;
    var g := NextHistory(size, h, id, sm, l, e, ch);
    SubmitHistory(size, h, id, sm.round, l, c, ch, g);
    if e.op.Some? {
      TextSentExactly(size, c, ch);
      SubmitContent(sha, g, id, sm, c, ch);
    }
    hide Content, ComputedFrom;
  }

  lemma SubmitHistory(size: nat, h: History, id: Uuid, round: int, l: Local, c: Crypto, ch: Choices, g: History)
    requires HistoryOk(size, h) && |ch.random| == 8 && |ch.fallbackRandom| == 8
    requires forall k :: k in h.sessions && k.0 == id ==> k.1 <= l.lastKeyGen
    requires l.lastKeyGen < round && c.Verify(size + HeaderLength) && AdmissibleKeys(c, ch.keys)
    requires g.sessions == h.sessions[(id, round) := Session(c, ch.keys)]
    requires Records(h, (id, round), SaidBy(ch), Worded(size, SaidBy(ch)), g)
    ensures Extends(h, g) && HistoryOk(size, g) && g.sessions.Keys == h.sessions.Keys + {(id, round)}
  {
    WordedOk(size, SaidBy(ch));
    hide VerifySysKey, ValidKey, Prime, Worded, HistoryOk, Extends, TextOk, Records;
    assert (id, round) !in h.sessions by {
      assert (id, round).0 == id;
    }
    SubmitOpens(size, h, (id, round), Session(c, ch.keys), SaidBy(ch), Worded(size, SaidBy(ch)), g);
  }

  lemma SubmitContent(sha: Sha256, g: History, id: Uuid, sm: State, c: Crypto, ch: Choices)
    requires Valid(sm) && Current(sm).phase.Submit? && Current(sm).crypto == Some(c) && id in Current(sm).participants
    requires |ch.random| == 8 && |ch.fallbackRandom| == 8
    requires (id, sm.round) in g.sessions && g.sessions[(id, sm.round)] == Session(c, ch.keys)
    requires (id, sm.round) in g.texts && g.texts[(id, sm.round)] == TextSent(c, ch)
    ensures var op := SubmitOp(sha, id, sm.round, c, ch.keys, ch);
            ComputedFrom(sm, op) && Content(sha, g, Current(sm), op)
  {
    FirstLayer(c, ch.keys.encryptKey, Plain(c, TextSent(c, ch)));
    hide TextSent, Plain, Wrap, RepInvariant;
  }

  lemma StatesMonotone(sha: Sha256, h: History, g: History, log: seq<Op>)
    requires Extends(h, g) && StatesGood(sha, h, log)
    ensures StatesGood(sha, g, log)
  {
    hide RoundGood;
    forall i | 0 <= i <= |log| ensures StateGood(sha, g, StateAt(log, i)) {
      var s := StateAt(log, i);
      assert StateGood(sha, h, s);
      forall r | 0 <= r <= s.round && s.round - 3 < r ensures RoundGood(sha, g, s.rounds[r % 3], r) {
        GoodMonotone(sha, h, g, s.rounds[r % 3], r);
      }
    }
  }

  lemma OpensKeys(h: History, g: History, id: Uuid, l: Local, round: int, l': Local)
    requires Opens(h, g, id, l, round, l')
    ensures forall k :: k in g.sessions ==> k in h.sessions || k == (id, round)
  {
    if g != h {
      forall k | k in g.sessions ensures k in h.sessions || k == (id, round) {
        assert k in g.sessions.Keys;
      }
    }
  }

  lemma OwnClientOk(log: seq<Op>, h: History, g: History, id: Uuid, cs: ClientState, at: nat, l': Local)
    requires ClientOk(log, h, id, cs) && cs.cursor <= at <= |log|
    requires Extends(h, g) && l'.lastMessageRound == l'.lastKeyGen
    requires Opens(h, g, id, cs.local, StateAt(log, at).round, l')
    ensures ClientOk(log, g, id, ClientState(l', at))
  {
    CursorRound(log, h, id, cs, at);
    OpensKeys(h, g, id, cs.local, StateAt(log, at).round, l');
    hide StateAt;
  }

  lemma OtherClientOk(log: seq<Op>, h: History, g: History, id: Uuid, round: int, other: Uuid, cs: ClientState)
    requires ClientOk(log, h, other, cs) && other != id && Extends(h, g)
    requires forall k :: k in g.sessions ==> k in h.sessions || k == (id, round)
    ensures ClientOk(log, g, other, cs)
  {
    hide StateAt;
  }

  lemma UpdateKeepsClients(log: seq<Op>, h: History, g: History, clients: map<Uuid, ClientState>, id: Uuid, at: nat,
                           l': Local)
    requires ClientsOk(log, h, clients) && id in clients && clients[id].cursor <= at <= |log|
    requires Extends(h, g) && l'.lastMessageRound == l'.lastKeyGen
    requires Opens(h, g, id, clients[id].local, StateAt(log, at).round, l')
    ensures ClientsOk(log, g, clients[id := ClientState(l', at)])
  {
    var after := clients[id := ClientState(l', at)];
    var round := StateAt(log, at).round;
    OpensKeys(h, g, id, clients[id].local, round, l');
    hide StateAt, Extends, Opens, ClientOk;
    forall c | c in after ensures ClientOk(log, g, c, after[c]) {
      if c == id {
        OwnClientOk(log, h, g, id, clients[id], at, l');
      } else {
        OtherClientOk(log, h, g, id, round, c, clients[c]);
      }
    }
  }

  lemma HonestIsSubmitEffect(size: nat, sha: Sha256, h: History, id: Uuid, l: Local, sm: State, ch: Choices, e: Effect)
    requires Valid(sm) && HistoryOk(size, h) && |ch.random| == 8 && |ch.fallbackRandom| == 8
    requires HonestEffect(sha, h, l, sm, e) && l.lastMessageRound == l.lastKeyGen
    ensures SubmitEffect(size, sha, h, NextHistory(size, h, id, sm, l, e, ch), id, l, sm, e)
  {
    hide HistoryOk, Content, ComputedFrom, TextSent;
    ExtendsReflexive(h);
  }

  /** What an update must bring along, whatever the phase. */
  lemma UpdateEffect(size: nat, sha: Sha256, sys: System, id: Uuid, at: nat, ch: Choices)
    requires Inv(size, sha, sys) && Enabled(size, sys, Update(id, at, ch))
    ensures var sm, l := StateAt(sys.log, at), sys.clients[id].local;
            var e := Observe(size, sha, id, l, sm, ch);
            SubmitEffect(size, sha, sys.history, NextHistory(size, sys.history, id, sm, l, e, ch), id, l, sm, e)
  {
    var sm, l := StateAt(sys.log, at), sys.clients[id].local;
    assert ClientOk(sys.log, sys.history, id, sys.clients[id]);
    hide Prime, Observe, StateAt, Valid, StatesGood, EntriesOk, Content, ComputedFrom, HistoryOk;
    hide NextHistory, RepInvariant;
    if Current(sm).phase.Submit? {
      SubmitUpdate(size, sha, sys.history, id, l, sm, ch);
    } else {
      if 2 <= PhaseOrder(Current(sm).phase) <= 5 && id in Current(sm).participants {
        OwnKeys(size, sha, sys, id, at);
      }
      hide HoldsKeys, Inv, HonestEffect;
      ObserveEffect(size, sha, sys.history, id, l, sm, ch);
      HonestIsSubmitEffect(size, sha, sys.history, id, l, sm, ch, Observe(size, sha, id, l, sm, ch));
    }
  }

  lemma EffectKeepsInv(size: nat, sha: Sha256, sys: System, id: Uuid, at: nat, e: Effect, g: History)
    requires Inv(size, sha, sys) && id in sys.clients && sys.clients[id].cursor <= at <= |sys.log|
    requires SubmitEffect(size, sha, sys.history, g, id, sys.clients[id].local, StateAt(sys.log, at), e)
    ensures Inv(size, sha,
                System(sys.log, sys.clients[id := ClientState(e.local, at)],
                       if e.op.Some? then sys.issued + {Issued(e.op.value, at)} else sys.issued, g))
  {
    hide HistoryOk, StateAt, Valid, Content, ComputedFrom, StatesGood, Extends, ClientsOk, Opens, EntriesOk;
    UpdateKeepsClients(sys.log, sys.history, g, sys.clients, id, at, e.local);
    StatesMonotone(sha, sys.history, g, sys.log);
    EntriesMonotone(sha, sys.log, [], sys.history, g, sys.issued);
    assert sys.log + [] == sys.log;
    AddEntry(size, sha, sys, g, id, sys.clients[id].local, at, e);
  }

  lemma UpdateKeepsInv(size: nat, sha: Sha256, sys: System, id: Uuid, at: nat, ch: Choices)
    requires Inv(size, sha, sys) && Enabled(size, sys, Update(id, at, ch))
    ensures Inv(size, sha, Do(size, sha, sys, Update(id, at, ch)))
  {
    hide Inv, Observe, NextHistory, SubmitEffect, StateAt, Valid;
    var sm, l := StateAt(sys.log, at), sys.clients[id].local;
    var e := Observe(size, sha, id, l, sm, ch);
    UpdateEffect(size, sha, sys, id, at, ch);
    EffectKeepsInv(size, sha, sys, id, at, e, NextHistory(size, sys.history, id, sm, l, e, ch));
  }

  lemma AddEntry(size: nat, sha: Sha256, sys: System, g: History, id: Uuid, l: Local, at: nat, e: Effect)
    requires at <= |sys.log| && EntriesOk(sha, sys.log, g, sys.issued)
    requires SubmitEffect(size, sha, sys.history, g, id, l, StateAt(sys.log, at), e)
    ensures HistoryOk(size, g)
    ensures EntriesOk(sha, sys.log, g, if e.op.Some? then sys.issued + {Issued(e.op.value, at)} else sys.issued)
  {
    hide HistoryOk, StateAt, Content, ComputedFrom, Extends, Opens;
    assert e.op.Some? ==> EntryOk(sha, sys.log, g, Issued(e.op.value, at));
  }

  // ----- every run

  lemma InitialInv(size: nat, sha: Sha256)
    ensures Inv(size, sha, InitialSystem)
  {
    FreshRoundRep();
    FreshRoundGood(sha, InitialSystem.history, 0);
    assert StateAt([], 0) == InitialState;
  }

  /** The operations that need no keys. */
  lemma IssueStepKeepsInv(size: nat, sha: Sha256, sys: System, step: Step)
    requires Inv(size, sha, sys) && Enabled(size, sys, step) && (step.Rejoin? || step.StartRound? || step.AbortRound?)
    ensures Inv(size, sha, Do(size, sha, sys, step))
  {
    hide Inv, StateAt, Valid;
    var r := StateAt(sys.log, step.at).round;
    match step
    case Rejoin(id, at) => IssueKeepsInv(size, sha, sys, JoinOp(id, r), at);
    case StartRound(id, at, crypto) => IssueKeepsInv(size, sha, sys, StartOp(id, r, Some(crypto)), at);
    case AbortRound(at) => IssueKeepsInv(size, sha, sys, AbortOp(r), at);
  }

  lemma NextKeepsInv(size: nat, sha: Sha256, sys: System, step: Step)
    requires Inv(size, sha, sys) && Enabled(size, sys, step)
    ensures Inv(size, sha, Do(size, sha, sys, step))
  {
    hide Inv, StateAt, Valid;
    match step
    case NewClient(id, at) => NewClientKeepsInv(size, sha, sys, id, at);
    case Update(id, at, ch) => UpdateKeepsInv(size, sha, sys, id, at, ch);
    case Rejoin(_, _) => IssueStepKeepsInv(size, sha, sys, step);
    case StartRound(_, _, _) => IssueStepKeepsInv(size, sha, sys, step);
    case AbortRound(_) => IssueStepKeepsInv(size, sha, sys, step);
    case Commit(entry) => CommitKeepsInv(size, sha, sys, entry);
  }

  /** The layer invariant and checkRep hold of every stored round in every state of every run. */
  lemma {:induction false} RunKeepsInv(size: nat, sha: Sha256, run: seq<System>)
    requires IsRun(size, sha, run)
    ensures Inv(size, sha, run[|run| - 1])
    decreases |run|
  {
    if |run| == 1 {
      InitialInv(size, sha);
    } else {
      hide *;
      var step := LastStep(size, sha, run);
      RunKeepsInv(size, sha, run[..|run| - 1]);
      NextKeepsInv(size, sha, run[|run| - 2], step);
    }
  }
}
