/** A client over a whole stream of updates: when it dispatches results, and that it acts at most once in a round. */
module ClientLoops {
  import opened MasseyOmura
  import opened Crypto
  import opened Ops
  import opened Rounds
  import opened Runs
  import opened Layers
  import opened ClientSteps
  import opened Protocol
  import opened Deeds

  predicate Sized(chs: seq<Choices>) {
    forall i :: 0 <= i < |chs| ==> |chs[i].random| == 8 && |chs[i].fallbackRandom| == 8
  }

  // ----- acting at most once in a round, for arbitrary updates

  /** Any updates at all that can be read: the one who sends them need not follow the protocol. */
  predicate Stream(sms: seq<State>, chs: seq<Choices>) {
    && |sms| == |chs| && Sized(chs)
    && forall i :: 0 <= i < |sms| ==> |sms[i].rounds| == NumRoundsPersisted && Readable(Current(sms[i]))
  }

  /** The variables after the first k updates of any stream. */
  function Fold(size: nat, sha: Sha256, id: Uuid, l: Local, sms: seq<State>, chs: seq<Choices>, k: nat): Local
    requires Stream(sms, chs) && k <= |sms|
    decreases k, 0
  {
    if k == 0 then l else EffectAt(size, sha, id, l, sms, chs, k - 1).local
  }

  /** What update k does. */
  function EffectAt(size: nat, sha: Sha256, id: Uuid, l: Local, sms: seq<State>, chs: seq<Choices>, k: nat): Effect
    requires Stream(sms, chs) && k < |sms|
    decreases k, 1
  {
    ObserveView(size, sha, id, Fold(size, sha, id, l, sms, chs, k), sms[k].round, Current(sms[k]), chs[k])
  }

  predicate GeneratesKeys(l: Local, e: Effect) { e.local.lastKeyGen != l.lastKeyGen }

  predicate SendsMessage(e: Effect) { e.op.Some? && e.op.value.MessageOp? }

  predicate SendsScramble(e: Effect) { e.op.Some? && e.op.value.ScrambledOp? }

  /** The guards of one update, and that they do not go down. */
  predicate Guarded(l: Local, round: int, e: Effect) {
    && (GeneratesKeys(l, e) ==> l.lastKeyGen < round == e.local.lastKeyGen)
    && (SendsMessage(e) ==> l.lastMessageRound < round == e.local.lastMessageRound)
    && (SendsScramble(e) ==> l.lastScrambledRound < round == e.local.lastScrambledRound)
    && (e.local.keys != l.keys ==> GeneratesKeys(l, e))
    && GuardsBelow(l, e.local)
  }

  predicate GuardsBelow(a: Local, b: Local) {
    && a.lastKeyGen <= b.lastKeyGen && a.lastMessageRound <= b.lastMessageRound
    && a.lastScrambledRound <= b.lastScrambledRound
  }

  lemma ViewGuarded(size: nat, sha: Sha256, id: Uuid, l: Local, round: int, ri: RoundInfo, ch: Choices)
    requires Readable(ri) && |ch.random| == 8 && |ch.fallbackRandom| == 8
    ensures Guarded(l, round, ObserveView(size, sha, id, l, round, ri, ch))
  {
    hide VerifySysKey, EncryptOthers, DecryptTwice, TextSent, Plain, Count, ParticipantIndex;
  }

  lemma EffectGuarded(size: nat, sha: Sha256, id: Uuid, l: Local, sms: seq<State>, chs: seq<Choices>, k: nat)
    requires Stream(sms, chs) && k < |sms|
    ensures Guarded(Fold(size, sha, id, l, sms, chs, k), sms[k].round, EffectAt(size, sha, id, l, sms, chs, k))
    ensures Fold(size, sha, id, l, sms, chs, k + 1) == EffectAt(size, sha, id, l, sms, chs, k).local
  {
    hide ObserveView, Readable, Guarded;
    ViewGuarded(size, sha, id, Fold(size, sha, id, l, sms, chs, k), sms[k].round, Current(sms[k]), chs[k]);
  }

  lemma {:induction false} GuardsGrow(size: nat, sha: Sha256, id: Uuid, l: Local, sms: seq<State>, chs: seq<Choices>,
                                      i: nat, j: nat)
    requires Stream(sms, chs) && i <= j <= |sms|
    ensures GuardsBelow(Fold(size, sha, id, l, sms, chs, i), Fold(size, sha, id, l, sms, chs, j))
    decreases j
  {
    hide Stream, Fold, EffectAt;
    if i < j {
      GuardsGrow(size, sha, id, l, sms, chs, i, j - 1);
      EffectGuarded(size, sha, id, l, sms, chs, j - 1);
    }
  }

  /**
   * Whatever the updates are, and wherever the client starts: of two updates that generate keys, or send a message, or
   * send a scramble, the later one is in a later round.
   */
  lemma OncePerRound(size: nat, sha: Sha256, id: Uuid, l: Local, sms: seq<State>, chs: seq<Choices>, i: nat, j: nat)
    requires Stream(sms, chs) && i < j < |sms|
    ensures var e, f := EffectAt(size, sha, id, l, sms, chs, i), EffectAt(size, sha, id, l, sms, chs, j);
            && (GeneratesKeys(Fold(size, sha, id, l, sms, chs, i), e) ==>
                GeneratesKeys(Fold(size, sha, id, l, sms, chs, j), f) ==> sms[i].round < sms[j].round)
            && (SendsMessage(e) && SendsMessage(f) ==> sms[i].round < sms[j].round)
            && (SendsScramble(e) && SendsScramble(f) ==> sms[i].round < sms[j].round)
  {
    hide Stream, Fold, EffectAt, GeneratesKeys, SendsMessage, SendsScramble;
    EffectGuarded(size, sha, id, l, sms, chs, i);
    EffectGuarded(size, sha, id, l, sms, chs, j);
    GuardsGrow(size, sha, id, l, sms, chs, i + 1, j);
  }

  // ----- dispatching results

  /** The server sends its state when the client subscribes, and after every operation that reports an effect. */
  predicate Delivers(log: seq<Op>, from: nat, k: nat)
    requires from <= k <= |log|
  {
    k == from || Apply(StateAt(log, k - 1), log[k - 1]).updated
  }

  /** The variables after the updates up to position k of a client that subscribed at position from. */
  function Feed(size: nat, sha: Sha256, id: Uuid, log: seq<Op>, chs: seq<Choices>, from: nat, k: nat): Local
    requires |chs| == |log| + 1 && Sized(chs) && from <= k <= |log|
    decreases k, 2
  {
    if Delivers(log, from, k) then UpdateAt(size, sha, id, log, chs, from, k).local
    else Before(size, sha, id, log, chs, from, k)
  }

  /** The variables when the update at position k arrives. */
  function Before(size: nat, sha: Sha256, id: Uuid, log: seq<Op>, chs: seq<Choices>, from: nat, k: nat): Local
    requires |chs| == |log| + 1 && Sized(chs) && from <= k <= |log|
    decreases k, 0
  {
    if k == from then InitialLocal else Feed(size, sha, id, log, chs, from, k - 1)
  }

  /** What the update at position k does. */
  function UpdateAt(size: nat, sha: Sha256, id: Uuid, log: seq<Op>, chs: seq<Choices>, from: nat, k: nat): Effect
    requires |chs| == |log| + 1 && Sized(chs) && from <= k <= |log|
    decreases k, 1
  {
    Observe(size, sha, id, Before(size, sha, id, log, chs, from, k), StateAt(log, k), chs[k])
  }

  lemma ObserveSends(size: nat, sha: Sha256, id: Uuid, l: Local, sm: State, ch: Choices)
    requires Valid(sm) && |ch.random| == 8 && |ch.fallbackRandom| == 8
    ensures var e := Observe(size, sha, id, l, sm, ch);
            && (e.sendsResult <==> Current(sm).phase.Prepare? && sm.round - 1 > l.lastResChSend)
            && e.local.lastResChSend == if e.sendsResult then sm.round - 1 else l.lastResChSend
  {
    hide RepInvariant, VerifySysKey, EncryptOthers, DecryptTwice, TextSent, Plain, Count;
  }

  /** The update at position k dispatches in a new round only, and the variable keeps track of it. */
  lemma FeedSends(size: nat, sha: Sha256, id: Uuid, log: seq<Op>, chs: seq<Choices>, from: nat, k: nat)
    requires |chs| == |log| + 1 && Sized(chs) && from <= k <= |log|
    ensures var l, e := Before(size, sha, id, log, chs, from, k), UpdateAt(size, sha, id, log, chs, from, k);
            var s := StateAt(log, k);
            && (e.sendsResult <==> Current(s).phase.Prepare? && s.round - 1 > l.lastResChSend)
            && Feed(size, sha, id, log, chs, from, k).lastResChSend
               == if Delivers(log, from, k) && e.sendsResult then s.round - 1 else l.lastResChSend
  {
    hide Observe, StateAt, Valid, Apply;
    ObserveSends(size, sha, id, Before(size, sha, id, log, chs, from, k), StateAt(log, k), chs[k]);
  }

  lemma DeliveredRounds(log: seq<Op>, from: nat, k: nat)
    requires from < k <= |log|
    ensures var s, t := StateAt(log, k - 1), StateAt(log, k);
            && (t.round == s.round || (t.round == s.round + 1 && Delivers(log, from, k) && Current(t) == FreshRound))
            && StateEvolves(s, t)
  {
    hide StateAt, Valid, Apply;
    StateAtNext(log, k - 1);
    RoundStep(StateAt(log, k - 1), log[k - 1]);
    StateAtEvolves(log, k - 1, k);
  }

  /** A client that subscribes here has no round before this one to miss. */
  predicate OrderlyStart(s: State)
    requires |s.rounds| == 3
  {
    s.round == 0 || (s.round == 1 && Current(s).phase.Prepare?)
  }

  lemma CurrentActive(s: State)
    requires Valid(s)
    ensures Active(Current(s).phase)
  {
    hide RepInvariant;
  }

  /**
   * Wherever the client subscribed: from the first beginning of a round that it sees on, between updates, it has
   * dispatched the results of all rounds before the current one; until then it has dispatched nothing.
   */
  lemma {:induction false} AllDispatched(size: nat, sha: Sha256, id: Uuid, log: seq<Op>, chs: seq<Choices>,
                                         from: nat, k: nat)
    requires |chs| == |log| + 1 && Sized(chs) && from <= k <= |log|
    ensures var start, s := StateAt(log, from), StateAt(log, k);
            && start.round <= s.round
            && Feed(size, sha, id, log, chs, from, k).lastResChSend
               == if start.round < s.round || Current(start).phase.Prepare? then s.round - 1 else -1
    decreases k
  {
    hide Feed, UpdateAt, StateAt, Valid, Apply;
    FeedSends(size, sha, id, log, chs, from, k);
    if k > from {
      AllDispatched(size, sha, id, log, chs, from, k - 1);
      DeliveredRounds(log, from, k);
      StateAtEvolves(log, from, k);
      CurrentActive(StateAt(log, from));
    }
  }

  /**
   * Wherever the client subscribed, each round that ends afterwards has its result dispatched exactly once, by the
   * update that starts the next round; consecutive updates may precede one another and rounds advance by at most one.
   * The round dispatched before was the one before it, except in the first new round of a client that subscribed in the
   * middle of a round later than 0.
   */
  lemma DispatchedOnce(size: nat, sha: Sha256, id: Uuid, log: seq<Op>, chs: seq<Choices>, from: nat, k: nat)
    requires |chs| == |log| + 1 && Sized(chs) && from < k <= |log| && Delivers(log, from, k)
    ensures var l, e := Before(size, sha, id, log, chs, from, k), UpdateAt(size, sha, id, log, chs, from, k);
            var start, s, t := StateAt(log, from), StateAt(log, k - 1), StateAt(log, k);
            && MayPrecede(s, t) && (t.round == s.round || t.round == s.round + 1)
            && (e.sendsResult <==> t.round == s.round + 1)
            && (t.round == s.round + 1 ==> Current(t) == FreshRound)
            && (t.round == s.round + 1 ==>
                  (l.lastResChSend == t.round - 2
                   <==> start.round < s.round || Current(start).phase.Prepare? || start.round == 0))
  {
    hide Feed, UpdateAt, StateAt, Valid, Apply;
    FeedSends(size, sha, id, log, chs, from, k);
    AllDispatched(size, sha, id, log, chs, from, k - 1);
    DeliveredRounds(log, from, k);
    StateAtEvolves(log, from, k);
    CurrentActive(StateAt(log, from));
  }

  /**
   * The source asserts that the round dispatched last is the one before. For a client that subscribes anywhere in the
   * log, its first dispatch meets the assertion exactly if the client started in round 0, or in round 1 at its
   * beginning.
   */
  lemma FirstDispatchInOrderExactly(size: nat, sha: Sha256, id: Uuid, log: seq<Op>, chs: seq<Choices>,
                                    from: nat, k: nat)
    requires |chs| == |log| + 1 && Sized(chs) && from <= k <= |log| && Delivers(log, from, k)
    requires Before(size, sha, id, log, chs, from, k).lastResChSend == -1
    requires UpdateAt(size, sha, id, log, chs, from, k).sendsResult
    ensures Before(size, sha, id, log, chs, from, k).lastResChSend == StateAt(log, k).round - 2
       <==> OrderlyStart(StateAt(log, from))
  {
    hide Feed, UpdateAt, StateAt, Valid, Apply;
    FeedSends(size, sha, id, log, chs, from, k);
    if k > from {
      AllDispatched(size, sha, id, log, chs, from, k - 1);
      DispatchedOnce(size, sha, id, log, chs, from, k);
    }
  }

  /** A client that subscribes after two rounds have been aborted dispatches at once, and not in order. */
  lemma LateStartOutOfOrder(size: nat, sha: Sha256, id: Uuid, chs: seq<Choices>)
    requires |chs| == 3 && Sized(chs)
    ensures var log: seq<Op> := [AbortOp(0), AbortOp(1)];
            && !OrderlyStart(StateAt(log, 2)) && Delivers(log, 2, 2)
            && Before(size, sha, id, log, chs, 2, 2).lastResChSend == -1
            && UpdateAt(size, sha, id, log, chs, 2, 2).sendsResult
            && Before(size, sha, id, log, chs, 2, 2).lastResChSend != StateAt(log, 2).round - 2
  {
    var log: seq<Op> := [AbortOp(0), AbortOp(1)];
    StartsAtZero(log);
    AbortEnds(log, 0);
    AbortEnds(log, 1);
    FeedSends(size, sha, id, log, chs, 2, 2);
    hide StateAt, UpdateAt, Valid;
  }

  lemma AbortEnds(log: seq<Op>, k: nat)
    requires k < |log| && log[k] == AbortOp(StateAt(log, k).round)
    ensures StateAt(log, k + 1).round == StateAt(log, k).round + 1 && Current(StateAt(log, k + 1)) == FreshRound
  {
    hide StateAt;
    StateAtNext(log, k);
    RoundStep(StateAt(log, k), log[k]);
  }
}
