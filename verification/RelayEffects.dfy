/** What one batch of a worker does to its tables and to the stream, said row by row, and that enough good batches leave
    nothing pending. */
module RelayEffects {
  import opened Events
  import opened Outbox

  // ---------------------------------------------------------------- what a batch comes to

  /** Every publish and every row update of the batch succeeds. */
  ghost predicate AllGood(batch: seq<nat>, answer: nat -> Answer) {
    forall i | 0 <= i < |batch| :: answer(i) == Ok
  }

  /** The first failure of the batch is at `k`. */
  ghost predicate FailsAt(batch: seq<nat>, answer: nat -> Answer, k: nat) {
    k < |batch| && answer(k) != Ok && forall i | 0 <= i < k :: answer(i) == Ok
  }

  /** Exactly these rows are processed now, and every other row is as before. */
  ghost predicate OnlyProcessed(before: map<nat, Row>, after: map<nat, Row>, ids: seq<nat>) {
    && after.Keys == before.Keys
    && forall id | id in before ::
         after[id] == if id in ids then Row(before[id].event, before[id].retries, true) else before[id]
  }

  /** The stream has these records more. */
  ghost predicate Streamed(before: seq<Entry>, after: seq<Entry>, ids: seq<nat>) {
    && |after| == |before| + |ids| && after[..|before|] == before
    && forall i | 0 <= i < |ids| :: after[|before| + i] == Published(ids[i])
  }

  /** The batch holds rows of the table, each once. */
  ghost predicate Rows(outbox: map<nat, Row>, batch: seq<nat>) {
    && (forall i | 0 <= i < |batch| :: batch[i] in outbox)
    && forall i, j | 0 <= i < j < |batch| :: batch[i] != batch[j]
  }

  lemma LeadingAll(batch: seq<nat>, answer: nat -> Answer, k: nat)
    ensures AllGood(batch, answer) ==> Leading(answer, 0, |batch|) == |batch|
    ensures FailsAt(batch, answer, k) ==> Leading(answer, 0, |batch|) == k
  {
  }

  /** A batch in which everything goes well and whose commit is applied: its rows are processed, they were appended to
      the stream in order, and nothing else changed. */
  lemma GoodBatchIs(s: State, batch: seq<nat>, answer: nat -> Answer, commit: CommitAnswer)
    requires Rows(s.outbox, batch) && AllGood(batch, answer) && commit != Aborted && s.tx.None?
    ensures var t := BatchEffect(s, batch, answer, commit);
            && OnlyProcessed(s.outbox, t.outbox, batch) && t.dlq == s.dlq && t.next == s.next && t.tx.None?
            && Streamed(s.history, t.history, batch) && t.relay == s.relay && t.log == s.log
  {
    LeadingAll(batch, answer, 0);
    assert batch[..|batch|] == batch;
  }

  /** The failed row is dead with one retry more if its retries were used up, and otherwise has one more. */
  ghost predicate Counted(before: State, after: State, id: nat, max: nat, processed: seq<nat>)
    requires id in before.outbox
  {
    var row := before.outbox[id];
    if row.retries >= max
    then && OnlyProcessed(before.outbox - {id}, after.outbox, processed)
         && after.dlq == before.dlq[id := DeadRow(row.event, row.retries + 1)]
    else && OnlyProcessed(before.outbox[id := Row(row.event, row.retries + 1, row.processed)], after.outbox, processed)
         && after.dlq == before.dlq
  }

  lemma FailCounts(s: State, ids: seq<nat>, id: nat, max: nat)
    requires s.relay == PartialCommit(max) && id in s.outbox && id !in ids
    ensures Counted(s, Fail(s.(outbox := MarkProcessed(s.outbox, ids)), id), id, max, ids)
  {
  }

  /** The state in which a failed publish leaves the relay before it counts. */
  function Failing(s: State, batch: seq<nat>, k: nat, reached: bool): State
    requires k < |batch|
  {
    s.(history := s.history + Publishes(batch[..k]) + (if reached then [Published(batch[k])] else []))
  }

  lemma FailedPublishCounts(s: State, batch: seq<nat>, answer: nat -> Answer, commit: CommitAnswer, k: nat, max: nat)
    requires Rows(s.outbox, batch) && FailsAt(batch, answer, k) && commit != Aborted && s.tx.None?
    requires s.relay == PartialCommit(max) && answer(k).PublishError?
    ensures var f := Failing(s, batch, k, answer(k).reached);
            BatchEffect(s, batch, answer, commit) == Fail(f.(outbox := MarkProcessed(s.outbox, batch[..k])), batch[k])
  {
    LeadingAll(batch, answer, k);
    var f := Failing(s, batch, k, answer(k).reached);
    assert f.history == (s.history + Publishes(batch[..k])) + (if answer(k).reached then [Published(batch[k])] else []);
    assert batch[k] in MarkProcessed(s.outbox, batch[..k]);
  }

  lemma FailingStreamed(s: State, batch: seq<nat>, k: nat, reached: bool)
    requires k < |batch|
    ensures Streamed(s.history, Failing(s, batch, k, reached).history, batch[..k] + if reached then [batch[k]] else [])
  {
  }

  /** A failed publish at `k` of the relay that commits its progress, if that commit is applied: the rows before it are
      processed; its own row is dead with one retry more if its retries were used up, and otherwise pending with one
      more; and nothing else changed. The stream has the events before it, and its own if it reached the stream. */
  lemma FailedPublishIs(s: State, batch: seq<nat>, answer: nat -> Answer, commit: CommitAnswer, k: nat, max: nat)
    requires Rows(s.outbox, batch) && FailsAt(batch, answer, k) && commit != Aborted && s.tx.None?
    requires s.relay == PartialCommit(max) && answer(k).PublishError?
    ensures var t := BatchEffect(s, batch, answer, commit);
            var onStream := batch[..k] + if answer(k).reached then [batch[k]] else [];
            && Counted(s, t, batch[k], max, batch[..k])
            && if s.outbox[batch[k]].retries >= max
               then && |t.history| > 0 && t.history[|t.history| - 1] == DeadLettered(batch[k])
                    && Streamed(s.history, t.history[..|t.history| - 1], onStream)
               else Streamed(s.history, t.history, onStream)
  {
    FailedPublishCounts(s, batch, answer, commit, k, max);
    var f := Failing(s, batch, k, answer(k).reached);
    FailCounts(f, batch[..k], batch[k], max);
    FailingStreamed(s, batch, k, answer(k).reached);
    var t := BatchEffect(s, batch, answer, commit);
    assert t.history == f.history + if s.outbox[batch[k]].retries >= max then [DeadLettered(batch[k])] else [];
  }

  /** Any other batch that fails, or whose commit is not applied, leaves the tables alone; what reached the stream stays
      there: the events before the failure, and the failed one unless its publish failed without reaching it. */
  lemma AbortedBatchIs(s: State, batch: seq<nat>, answer: nat -> Answer, commit: CommitAnswer, k: nat)
    requires Rows(s.outbox, batch) && s.tx.None? && batch != []
    requires (k == |batch| && AllGood(batch, answer)) || FailsAt(batch, answer, k)
    requires commit == Aborted || (k < |batch| && !(answer(k).PublishError? && s.relay.PartialCommit?))
    ensures var t := BatchEffect(s, batch, answer, commit);
            && t.outbox == s.outbox && t.dlq == s.dlq && t.tx.None?
            && Streamed(s.history, t.history,
                        batch[..k] + if k < |batch| && answer(k) != PublishError(false)
                                        && answer(k) != PublishAndUpdateError(false) then [batch[k]] else [])
  {
    LeadingAll(batch, answer, k);
    assert k == |batch| ==> batch[..k] + [] == batch[..k];
  }

  // ---------------------------------------------------------------- the batch query

  /** A batch is as full as it can be: below its limit it holds every pending row. */
  lemma BatchIsFull(outbox: map<nat, Row>, next: nat, limit: nat)
    ensures var batch := Batch(outbox, next, limit);
            && |batch| <= limit
            && (|batch| < limit ==> forall id: nat | id < next && id in outbox && !outbox[id].processed :: id in batch)
  {
    PendingIdsExact(outbox, 0, next);
    forall id: nat | id < next && id in outbox && !outbox[id].processed ensures id in PendingIds(outbox, 0, next) {
      assert Pending(outbox, id);
    }
  }

  // ---------------------------------------------------------------- enough good batches drain the outbox

  /** The state after one batch of the worker in which everything goes well and the commit is applied. */
  function GoodBatch(s: State, limit: nat): State {
    BatchRows(s, limit);
    BatchEffect(s, Batch(s.outbox, s.next, limit), _ => Ok, Committed)
  }

  function GoodBatches(s: State, limit: nat, n: nat): State {
    if n == 0 then s else GoodBatch(GoodBatches(s, limit, n - 1), limit)
  }

  lemma BatchRows(s: State, limit: nat)
    ensures Rows(s.outbox, Batch(s.outbox, s.next, limit))
    ensures forall i | 0 <= i < |Batch(s.outbox, s.next, limit)| ::
              Batch(s.outbox, s.next, limit)[i] in s.outbox && Pending(s.outbox, Batch(s.outbox, s.next, limit)[i])
  {
    BatchIsOldest(s.outbox, s.next, limit);
  }

  function Unpublished(outbox: map<nat, Row>): set<nat> {
    set id | id in outbox && !outbox[id].processed
  }

  lemma GoodBatchSafe(s: State, limit: nat)
    requires Safe(s) && s.tx.None?
    ensures Safe(GoodBatch(s, limit)) && GoodBatch(s, limit).tx.None?
  {
    BatchRows(s, limit);
    BatchEffectSafe(s, limit, _ => Ok, Committed);
    GoodBatchIs(s, Batch(s.outbox, s.next, limit), _ => Ok, Committed);
  }

  lemma {:induction false} GoodBatchesSafe(s: State, limit: nat, n: nat)
    requires Safe(s) && s.tx.None?
    ensures Safe(GoodBatches(s, limit, n)) && GoodBatches(s, limit, n).tx.None?
  {
    if n > 0 {
      GoodBatchesSafe(s, limit, n - 1);
      GoodBatchSafe(GoodBatches(s, limit, n - 1), limit);
    }
  }

  /** A good batch takes rows off what is pending, if there are any. */
  lemma GoodBatchAdvances(s: State, limit: nat)
    requires Safe(s) && s.tx.None? && limit > 0
    ensures var t := GoodBatch(s, limit);
            && (Unpublished(s.outbox) == {} ==> Unpublished(t.outbox) == {})
            && (Unpublished(s.outbox) != {} ==> |Unpublished(t.outbox)| < |Unpublished(s.outbox)|)
  {
    var batch := Batch(s.outbox, s.next, limit);
    BatchRows(s, limit);
    GoodBatchIs(s, batch, _ => Ok, Committed);
    var t := GoodBatch(s, limit);
    assert Unpublished(t.outbox) <= Unpublished(s.outbox);
    if id :| id in Unpublished(s.outbox) {
      BatchIsFull(s.outbox, s.next, limit);
      assert id in s.log && id < s.next;
      var first := batch[0];
      assert first in Unpublished(s.outbox) && first !in Unpublished(t.outbox);
      SmallerSet(Unpublished(t.outbox), Unpublished(s.outbox), first);
    }
  }

  lemma SmallerSet(a: set<nat>, b: set<nat>, x: nat)
    requires a <= b && x in b && x !in a
    ensures |a| < |b|
  {
    var rest := b - a - {x};
    assert b == a + rest + {x};
  }

  /** How many events are unpublished after `n` good batches. */
  function Left(s: State, limit: nat, n: nat): nat {
    |Unpublished(GoodBatches(s, limit, n).outbox)|
  }

  lemma LeftFalls(s: State, limit: nat, n: nat)
    requires Safe(s) && s.tx.None? && limit > 0
    ensures Left(s, limit, n + 1) < Left(s, limit, n) || Left(s, limit, n + 1) == Left(s, limit, n) == 0
  {
    GoodBatchesSafe(s, limit, n);
    GoodBatchAdvances(GoodBatches(s, limit, n), limit);
  }

  lemma {:induction false} LeftIsLess(s: State, limit: nat, n: nat)
    requires Safe(s) && s.tx.None? && limit > 0
    ensures Left(s, limit, n) == 0 || Left(s, limit, n) + n <= |Unpublished(s.outbox)|
  {
    if n > 0 {
      LeftIsLess(s, limit, n - 1);
      LeftFalls(s, limit, n - 1);
    }
  }

  /** As many good batches as there are unpublished events leave nothing pending, whichever relay it is. */
  lemma {:induction false} GoodBatchesDrain(s: State, limit: nat, n: nat)
    requires Safe(s) && s.tx.None? && limit > 0 && n >= |Unpublished(s.outbox)|
    ensures forall id :: !Pending(GoodBatches(s, limit, n).outbox, id)
  {
    LeftIsLess(s, limit, n);
    NothingLeft(GoodBatches(s, limit, n).outbox);
  }

  lemma NothingLeft(outbox: map<nat, Row>)
    ensures |Unpublished(outbox)| == 0 ==> forall id :: !Pending(outbox, id)
  {
    forall id | Pending(outbox, id) ensures |Unpublished(outbox)| > 0 {
      assert id in Unpublished(outbox);
    }
  }
}
