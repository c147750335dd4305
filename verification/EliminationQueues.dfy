/** The queue of pending operations that keeps only the newest: anonbcast/eliminationqueue.go. */
module EliminationQueues {
  import opened Ops

  datatype Comparison = Newer | Older | Equal | Incomparable

  function OpIndex(op: Op): nat {
    match op
    case JoinOp(_, _) => 0
    case StartOp(_, _, _) => 1
    case MessageOp(_, _, _, _) => 2
    case EncryptedOp(_, _, _, _) => 3
    case ScrambledOp(_, _, _) => 4
    case DecryptedOp(_, _, _, _) => 5
    case RevealOp(_, _, _) => 6
    case AbortOp(_) => 7
  }

  /** How a relates to b from the client's point of view. */
  function Compare(a: Op, b: Op): Comparison {
    if a.r < b.r then Older
    else if a.r > b.r then Newer
    else if OpIndex(a) < OpIndex(b) then Older
    else if OpIndex(a) > OpIndex(b) then Newer
    else if a.EncryptedOp? && b.EncryptedOp? && a.prev != b.prev then (if a.prev < b.prev then Older else Newer)
    else if a.DecryptedOp? && b.DecryptedOp? && a.prev != b.prev then (if a.prev < b.prev then Older else Newer)
    else if OpIndex(a) == OpIndex(b) then Equal
    else Incomparable
  }

  // ----- the order behind the comparison

  /** Where an operation stands: its round, its kind, and how many had encrypted or decrypted before. */
  datatype Key = Key(round: int, index: nat, prev: int)

  function KeyOf(op: Op): Key {
    Key(op.r, OpIndex(op), if op.EncryptedOp? || op.DecryptedOp? then op.prev else 0)
  }

  /** Lexicographic order. */
  predicate Below(a: Key, b: Key) {
    || a.round < b.round
    || (a.round == b.round && a.index < b.index)
    || (a.round == b.round && a.index == b.index && a.prev < b.prev)
  }

  /** compare is the lexicographic order of the keys; it is total and never gives up. */
  lemma CompareIsKeyOrder(a: Op, b: Op)
    ensures Compare(a, b) == Newer <==> Below(KeyOf(b), KeyOf(a))
    ensures Compare(a, b) == Older <==> Below(KeyOf(a), KeyOf(b))
    ensures Compare(a, b) == Equal <==> KeyOf(a) == KeyOf(b)
    ensures Compare(a, b) != Incomparable
  {
    match a
    case EncryptedOp(_, _, _, _) => assert OpIndex(b) == 3 <==> b.EncryptedOp?;
    case DecryptedOp(_, _, _, _) => assert OpIndex(b) == 5 <==> b.DecryptedOp?;
    case _ =>
  }

  lemma KeyOrderTotal(a: Key, b: Key, c: Key)
    ensures Below(a, b) || a == b || Below(b, a)
    ensures !(Below(a, b) && Below(b, a)) && !Below(a, a)
    ensures Below(a, b) && Below(b, c) ==> Below(a, c)
  {
  }

  // ----- the queue as a value

  datatype Queue = Queue(ops: seq<Op>, lastFinished: Op)

  const EmptyQueue: Queue := Queue([], AbortOp(-1))

  function Add(q: Queue, op: Op): Queue {
    if Compare(op, q.lastFinished) != Newer then q
    else if q.ops == [] then q.(ops := [op])
    else if Compare(q.ops[0], op) == Newer || Compare(q.ops[0], op) == Equal then q
    else q.(ops := q.ops[0 := op])
  }

  function Finish(q: Queue, op: Op): Queue {
    Queue(if q.ops != [] && Compare(q.ops[0], op) == Equal then [] else q.ops,
          if Compare(q.lastFinished, op) == Older then op else q.lastFinished)
  }

  // ----- the queue as an object

  class EliminationQueue {
    var ops: seq<Op>
    var lastFinished: Op

    function Contents(): Queue
      reads this
    {
      Queue(ops, lastFinished)
    }

    constructor ()
      ensures Contents() == EmptyQueue
    {
      ops := [];
      lastFinished := AbortOp(-1);
    }

    method AddOp(op: Op)
      modifies this
      ensures Contents() == Add(old(Contents()), op)
    {
      if Compare(op, lastFinished) != Newer {
        return;
      }
      if |ops| != 0 {
        var c := Compare(ops[0], op);
        if c == Newer || c == Equal {
          return;
        }
        ops := ops[0 := op];
      } else {
        ops := ops + [op];
      }
    }

    /** Waiting for an operation is over when there is one. */
    method Get() returns (op: Op)
      requires ops != []
      ensures op == Contents().ops[0]
    {
      op := ops[0];
    }

    method FinishOp(op: Op)
      modifies this
      ensures Contents() == Finish(old(Contents()), op)
    {
      if |ops| > 0 {
        if Compare(ops[0], op) == Equal {
          ops := [];
        }
      }
      if Compare(lastFinished, op) == Older {
        lastFinished := op;
      }
    }
  }

  // ----- one consumer, any number of producers

  /** The queue, the operation the consumer is submitting, and everything ever added and finished. */
  datatype Track = Track(q: Queue, taken: seq<Op>, added: seq<Op>, finished: seq<Op>)

  datatype Event = Added(op: Op) | Taken | Finished | GaveUp

  const InitialTrack: Track := Track(EmptyQueue, [], [], [])

  predicate Possible(t: Track, e: Event) {
    match e
    case Added(_) => true
    case Taken => t.q.ops != [] && t.taken == []
    case Finished => t.taken != []
    case GaveUp => t.taken != []
  }

  function Step(t: Track, e: Event): Track
    requires Possible(t, e)
  {
    match e
    case Added(op) => t.(q := Add(t.q, op), added := t.added + [op])
    case Taken => t.(taken := [t.q.ops[0]])
    case Finished => Track(Finish(t.q, t.taken[0]), [], t.added, t.finished + [t.taken[0]])
    case GaveUp => t.(taken := [])
  }

  /** The newest operation the queue knows of. */
  function Top(q: Queue): Op {
    if q.ops == [] then q.lastFinished else q.ops[0]
  }

  /** The operation was the first with its key to be added. */
  ghost predicate FirstWithKey(added: seq<Op>, op: Op) {
    exists j :: 0 <= j < |added| && added[j] == op && forall i :: 0 <= i < j ==> KeyOf(added[i]) != KeyOf(op)
  }

  /**
   * No operation ever added is newer than the top; pending is newer than finished; finished ones get newer. Of several
   * operations with the same key it is the first that is kept and submitted.
   */
  ghost predicate QueueInvariant(t: Track) {
    && |t.q.ops| <= 1
    && (t.q.ops != [] ==> Below(KeyOf(t.q.lastFinished), KeyOf(t.q.ops[0])))
    && (forall i :: 0 <= i < |t.added| ==> !Below(KeyOf(Top(t.q)), KeyOf(t.added[i])))
    && (forall i :: 0 <= i < |t.q.ops| ==> FirstWithKey(t.added, t.q.ops[i]))
    && (forall i :: 0 <= i < |t.finished| ==> FirstWithKey(t.added, t.finished[i]))
    && |t.taken| <= 1
    && (t.taken != [] ==>
          && FirstWithKey(t.added, t.taken[0]) && Below(KeyOf(t.q.lastFinished), KeyOf(t.taken[0]))
          && t.q.ops != [] && !Below(KeyOf(t.q.ops[0]), KeyOf(t.taken[0])))
    && (forall i, j :: 0 <= i < j < |t.finished| ==> Below(KeyOf(t.finished[i]), KeyOf(t.finished[j])))
    && t.q.lastFinished == (if t.finished == [] then AbortOp(-1) else t.finished[|t.finished| - 1])
  }

  lemma FirstStays(added: seq<Op>, op: Op, more: Op)
    requires FirstWithKey(added, op)
    ensures FirstWithKey(added + [more], op)
  {
    hide KeyOf;
    var j :| 0 <= j < |added| && added[j] == op && forall i :: 0 <= i < j ==> KeyOf(added[i]) != KeyOf(op);
    assert (added + [more])[j] == op;
  }

  lemma NewestIsFirst(added: seq<Op>, op: Op, top: Op)
    requires Below(KeyOf(top), KeyOf(op)) && forall i :: 0 <= i < |added| ==> !Below(KeyOf(top), KeyOf(added[i]))
    ensures FirstWithKey(added + [op], op)
  {
    hide KeyOf, Below;
    assert (added + [op])[|added|] == op;
  }

  lemma AddKeepsInvariant(t: Track, op: Op)
    requires QueueInvariant(t)
    ensures QueueInvariant(Step(t, Added(op)))
  {
    hide FirstWithKey, Compare, KeyOf;
    forall x | FirstWithKey(t.added, x) ensures FirstWithKey(t.added + [op], x) {
      FirstStays(t.added, x, op);
    }
    if Below(KeyOf(Top(t.q)), KeyOf(op)) {
      NewestIsFirst(t.added, op, Top(t.q));
    }
    CompareIsKeyOrder(op, t.q.lastFinished);
    if t.q.ops != [] {
      CompareIsKeyOrder(t.q.ops[0], op);
    }
  }

  lemma FinishKeepsInvariant(t: Track)
    requires QueueInvariant(t) && t.taken != []
    ensures QueueInvariant(Step(t, Finished))
  {
    CompareIsKeyOrder(t.q.ops[0], t.taken[0]);
    CompareIsKeyOrder(t.q.lastFinished, t.taken[0]);
    hide Compare, KeyOf, FirstWithKey;
  }

  lemma StepKeepsInvariant(t: Track, e: Event)
    requires QueueInvariant(t) && Possible(t, e)
    ensures QueueInvariant(Step(t, e))
  {
    match e
    case Added(op) => AddKeepsInvariant(t, op);
    case Taken => hide KeyOf, FirstWithKey;
    case Finished => FinishKeepsInvariant(t);
    case GaveUp => hide KeyOf, FirstWithKey;
  }

  ghost predicate Follows(t: Track, u: Track) {
    exists e :: Possible(t, e) && u == Step(t, e)
  }

  ghost predicate IsTrace(trace: seq<Track>) {
    && trace != [] && trace[0] == InitialTrack
    && forall i :: 0 < i < |trace| ==> Follows(trace[i - 1], trace[i])
  }

  /**
   * The queue is a running maximum: however adds interleave with the one consumer, the pending operation (or the last
   * finished one when none is pending) has the greatest key ever added, and finished keys strictly increase.
   */
  lemma {:induction false} RunningMaximum(trace: seq<Track>)
    requires IsTrace(trace)
    ensures QueueInvariant(trace[|trace| - 1])
    decreases |trace|
  {
    if |trace| > 1 {
      var n := |trace| - 1;
      var front := trace[..n];
      assert Follows(trace[n - 1], trace[n]);
      hide QueueInvariant, Follows;
      RunningMaximum(front);
      FollowsKeepsInvariant(trace[n - 1], trace[n]);
    }
  }

  lemma FollowsKeepsInvariant(t: Track, u: Track)
    requires QueueInvariant(t) && Follows(t, u)
    ensures QueueInvariant(u)
  {
    var e :| Possible(t, e) && u == Step(t, e);
    StepKeepsInvariant(t, e);
  }
}
