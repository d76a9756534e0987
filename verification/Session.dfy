/** One WebSocket session: the resume buffer, the bounded send queue and the flush. */
module Session {
  import opened Events

  const SEND_QUEUE_SIZE: nat := 128

  // ---------------------------------------------------------------- flush order

  /** The comparator of the flush: by sequence when both events carry one, else by time. */
  predicate Less(a: Envelope, b: Envelope) {
    var (sa, sb) := (SequenceOf(a), SequenceOf(b));
    if sa != 0 && sb != 0 && sa != sb then sa < sb else a.occurredAt < b.occurredAt
  }

  /** Strict weak order on a set of events: irreflexive, asymmetric, and "not less" is transitive. */
  ghost predicate StrictWeakOrder(es: set<Envelope>) {
    && (forall x | x in es :: !Less(x, x))
    && (forall x, y | x in es && y in es && Less(x, y) :: !Less(y, x))
    && (forall x, y, z | x in es && y in es && z in es && Less(x, z) :: Less(x, y) || Less(y, z))
  }

  /** `a` precedes `b` by sequence but not by time, and the unsequenced `c` lies in the window between them. */
  predicate Straddles(a: Envelope, b: Envelope, c: Envelope) {
    && SequenceOf(a) != 0 && SequenceOf(b) != 0 && SequenceOf(a) < SequenceOf(b)
    && SequenceOf(c) == 0
    && b.occurredAt <= c.occurredAt <= a.occurredAt
  }

  ghost predicate NoStraddle(es: set<Envelope>) {
    forall a, b, c | a in es && b in es && c in es :: !Straddles(a, b, c)
  }

  /** Larger sequence numbers always carry strictly later times. */
  ghost predicate SequencesFollowTime(es: set<Envelope>) {
    forall a, b | a in es && b in es && SequenceOf(a) != 0 && SequenceOf(b) != 0 && SequenceOf(a) < SequenceOf(b) ::
      a.occurredAt < b.occurredAt
  }

  /** Exactly when the comparator may be given to a sort: no unsequenced event falls
      into the window of a pair whose times contradict their sequences. */
  lemma ComparatorIsStrictWeakOrderIff(es: set<Envelope>)
    ensures StrictWeakOrder(es) <==> NoStraddle(es)
  {
    if !NoStraddle(es) {
      var a, b, c :| a in es && b in es && c in es && Straddles(a, b, c);
      assert Less(a, b) && !Less(a, c) && !Less(c, b);
    } else {
      forall x, y, z | x in es && y in es && z in es && Less(x, z) ensures Less(x, y) || Less(y, z) {
        assert !Straddles(x, z, y) && !Straddles(z, y, x) && !Straddles(y, x, z);
      }
    }
  }

  /** The comparator is the plain order of times exactly when sequences follow time. */
  lemma ComparatorIsTimeOrderIff(es: set<Envelope>)
    ensures SequencesFollowTime(es) <==>
            forall a, b | a in es && b in es :: Less(a, b) <==> a.occurredAt < b.occurredAt
  {
    if forall a, b | a in es && b in es :: Less(a, b) <==> a.occurredAt < b.occurredAt {
      forall a, b | a in es && b in es && SequenceOf(a) != 0 && SequenceOf(b) != 0 && SequenceOf(a) < SequenceOf(b)
        ensures a.occurredAt < b.occurredAt
      {
        assert Less(a, b);
      }
    }
  }

  /** Three events, two sent messages out of time order and one read receipt between them, that form a cycle. */
  lemma ComparatorCycle() returns (a: Envelope, b: Envelope, c: Envelope)
    ensures Less(a, b) && Less(b, c) && Less(c, a)
    ensures !StrictWeakOrder({a, b, c})
  {
    var m := Message("m", "conv", "u", 1, "text", "", "", 0);
    a := Envelope(MessageSent(m), 30);
    b := Envelope(MessageSent(m.(sequence := 2)), 10);
    c := Envelope(ReadReceiptUpdated("conv", "u", 0), 20);
    var es := {a, b, c};
    assert a in es && b in es && c in es;
    assert Straddles(a, b, c);
    ComparatorIsStrictWeakOrderIff(es);
  }

  // ---------------------------------------------------------------- sorting

  ghost predicate SortedByLess(s: seq<Envelope>) {
    forall i, j | 0 <= i < j < |s| :: !Less(s[j], s[i])
  }

  /** What a sort with this comparator promises: always a permutation, and sorted
      whenever the comparator is a strict weak order on the input. */
  ghost predicate SortResult(before: seq<Envelope>, after: seq<Envelope>) {
    && multiset(after) == multiset(before)
    && (StrictWeakOrder(SetOf(before)) ==> SortedByLess(after))
  }

  /** When sequences follow time, a flushed buffer ascends in time and in sequence. */
  lemma FlushAscends(before: seq<Envelope>, after: seq<Envelope>)
    requires SortResult(before, after)
    requires SequencesFollowTime(SetOf(before))
    ensures forall i, j | 0 <= i < j < |after| ::
              && after[i].occurredAt <= after[j].occurredAt
              && (SequenceOf(after[i]) != 0 && SequenceOf(after[j]) != 0 ==>
                  SequenceOf(after[i]) <= SequenceOf(after[j]))
  {
    var es := SetOf(before);
    ComparatorIsTimeOrderIff(es);
    assert NoStraddle(es);
    ComparatorIsStrictWeakOrderIff(es);
    forall k | 0 <= k < |after| ensures after[k] in es {
      assert after[k] in multiset(after);
    }
  }

  /** Insertion sort by adjacent swaps, as the library's sort does on short slices. */
  method SortSlice(s: seq<Envelope>) returns (r: seq<Envelope>)
    ensures SortResult(s, r)
  {
    r := s;
    var i := 0;
    ghost var ordered := StrictWeakOrder(SetOf(s));
    while i < |s|
      invariant 0 <= i <= |s| == |r|
      invariant multiset(r) == multiset(s)
      invariant ordered ==> forall p, q | 0 <= p < q < i :: !Less(r[q], r[p])
    {
      var j := i;
      while 0 < j && Less(r[j], r[j - 1])
        invariant 0 <= j <= i < |s| == |r|
        invariant multiset(r) == multiset(s)
        invariant ordered ==> forall p, q | 0 <= p < q <= i && q != j :: !Less(r[q], r[p])
      {
        ElementsOf(s, r);
        r := r[j := r[j - 1]][j - 1 := r[j]];
        j := j - 1;
      }
      ElementsOf(s, r);
      if ordered && 0 < j {
        forall p | 0 <= p < j ensures !Less(r[j], r[p]) {
          assert p < j - 1 ==> !Less(r[j - 1], r[p]);
        }
      }
      i := i + 1;
    }
  }

  lemma ElementsOf(s: seq<Envelope>, r: seq<Envelope>)
    requires multiset(r) == multiset(s)
    ensures forall k | 0 <= k < |r| :: r[k] in SetOf(s)
  {
    forall k | 0 <= k < |r| ensures r[k] in SetOf(s) {
      assert r[k] in multiset(r);
    }
  }

  // ---------------------------------------------------------------- one session

  /** The mutable part of a session. */
  datatype Core = Core(queue: seq<Envelope>, closed: bool, ready: bool, buffer: seq<Envelope>)

  const FRESH := Core([], false, false, [])

  /** The non-blocking send on the bounded queue; a full queue closes the session. */
  function Enqueue(c: Core, e: Envelope): Core {
    if |c.queue| < SEND_QUEUE_SIZE then c.(queue := c.queue + [e]) else c.(closed := true)
  }

  function TrySendSpec(c: Core, e: Envelope): Core {
    if c.closed then c else Enqueue(c, e)
  }

  function SendAllSpec(c: Core, es: seq<Envelope>): Core
    decreases |es|
  {
    if es == [] then c else SendAllSpec(TrySendSpec(c, es[0]), es[1..])
  }

  lemma {:induction false} SendAllSnoc(c: Core, es: seq<Envelope>, e: Envelope)
    ensures SendAllSpec(c, es + [e]) == TrySendSpec(SendAllSpec(c, es), e)
    decreases |es|
  {
    if es == [] {
      assert [e][1..] == [];
    } else {
      assert (es + [e])[1..] == es[1..] + [e];
      SendAllSnoc(TrySendSpec(c, es[0]), es[1..], e);
    }
  }

  /** A run of sends accepts a prefix: everything when it fits into an open session's
      queue, and otherwise exactly what fits, after which the session is closed. */
  lemma {:induction false} SendAllAcceptsPrefix(c: Core, es: seq<Envelope>)
    requires |c.queue| <= SEND_QUEUE_SIZE
    ensures var r := SendAllSpec(c, es);
            var room := if c.closed then 0 else SEND_QUEUE_SIZE - |c.queue|;
            && r == c.(queue := r.queue, closed := r.closed)
            && (|es| <= room ==> r.queue == c.queue + es && r.closed == c.closed)
            && (|es| > room ==> r.queue == c.queue + es[..room] && r.closed)
    decreases |es|
  {
    if es != [] {
      SendAllAcceptsPrefix(TrySendSpec(c, es[0]), es[1..]);
      if !c.closed && |c.queue| < SEND_QUEUE_SIZE {
        var room := SEND_QUEUE_SIZE - |c.queue|;
        assert [es[0]] + es[1..] == es;
        if |es| > room {
          assert [es[0]] + es[1..][..room - 1] == es[..room];
        }
      }
    }
  }

  class Session {
    const id: Id
    const userId: Id
    const deviceId: Id
    var queue: seq<Envelope>
    var closed: bool
    var ready: bool
    var resumeBuffer: seq<Envelope>

    ghost function Abs(): Core reads this {
      Core(queue, closed, ready, resumeBuffer)
    }

    constructor (id: Id, userId: Id, deviceId: Id)
      ensures this.id == id && this.userId == userId && this.deviceId == deviceId
      ensures Abs() == FRESH
    {
      this.id, this.userId, this.deviceId := id, userId, deviceId;
      queue, closed, ready, resumeBuffer := [], false, false, [];
    }

    method CloseWithReason()
      modifies `closed
      ensures closed
    {
      closed := true;
    }

    method TrySend(e: Envelope) returns (ok: bool)
      modifies `queue, `closed
      ensures Abs() == TrySendSpec(old(Abs()), e)
      ensures ok <==> !old(closed) && |old(queue)| < SEND_QUEUE_SIZE
      ensures ok ==> queue == old(queue) + [e] && !closed
      ensures !ok ==> queue == old(queue) && closed
    {
      if closed {
        return false;
      }
      if |queue| < SEND_QUEUE_SIZE {
        queue := queue + [e];
        return true;
      }
      CloseWithReason();
      return false;
    }

    /** Takes the event while the session is resuming, and refuses it once it is ready. */
    method Buffer(e: Envelope) returns (taken: bool)
      modifies `resumeBuffer
      ensures taken <==> !ready
      ensures resumeBuffer == if taken then old(resumeBuffer) + [e] else old(resumeBuffer)
    {
      if ready {
        return false;
      }
      resumeBuffer := resumeBuffer + [e];
      return true;
    }

    /** The first flush sends some sort result of the buffer and empties it; a later one does nothing. */
    method FlushBufferSorted() returns (ghost order: seq<Envelope>)
      modifies `ready, `resumeBuffer, `queue, `closed
      ensures old(ready) ==> Abs() == old(Abs())
      ensures !old(ready) ==>
                && SortResult(old(resumeBuffer), order)
                && Abs() == SendAllSpec(old(Abs()).(ready := true), order).(buffer := [])
    {
      order := [];
      if ready {
        return;
      }
      resumeBuffer := SortSlice(resumeBuffer);
      order := resumeBuffer;
      ready := true;
      ghost var start := old(Abs()).(ready := true);
      var i := 0;
      while i < |resumeBuffer|
        invariant 0 <= i <= |resumeBuffer|
        invariant resumeBuffer == order && ready
        invariant Abs().(buffer := []) == SendAllSpec(start, order[..i]).(buffer := [])
      {
        SendAllSnoc(start, order[..i], order[i]);
        assert order[..i] + [order[i]] == order[..i + 1];
        var _ := TrySend(resumeBuffer[i]);
        i := i + 1;
      }
      assert order[..i] == order;
      resumeBuffer := [];
    }
  }
}
