/** The transactional outbox and its relays. One worker opens a transaction on the oldest pending rows and
    publishes them one by one; producers append rows meanwhile, and whatever was published stays published
    when the transaction rolls back. The two relays differ only in what a failed publish leads to:
    the conversation relay commits the progress made and counts a retry or dead-letters the row,
    the message relay rolls the whole batch back. */
module Outbox {
  import opened Events

  datatype Relay = PartialCommit(maxRetries: nat) | AllOrNothing

  datatype Row = Row(event: Envelope, retries: nat, processed: bool)
  datatype DeadRow = DeadRow(event: Envelope, retries: nat)

  /** What became visible, in order: an event on the stream, or a row in the dead-letter table. */
  datatype Entry = Published(id: nat) | DeadLettered(id: nat)

  /** The worker's open transaction: its batch, how many events it has published, whether one failed. */
  datatype Tx = Tx(batch: seq<nat>, done: nat, failed: bool)

  datatype State = State(
    relay: Relay,
    next: nat,                  // the next id of the serial column; rolled-back inserts leave gaps
    outbox: map<nat, Row>,
    dlq: map<nat, DeadRow>,
    tx: Option<Tx>,
    // history variables
    log: map<nat, Envelope>,    // every event ever inserted
    history: seq<Entry>)

  datatype Step =
    | Insert(id: nat, e: Envelope)
    | Begin(limit: nat)
    | PublishOk
    | PublishFail(reached: bool)  // reached: the record is on the stream although the publish reports an error
    | Rollback
    | Commit

  // ---------------------------------------------------------------- the batch query

  predicate Pending(outbox: map<nat, Row>, id: nat) {
    id in outbox && !outbox[id].processed
  }

  /** Pending ids from `lo` up to `hi`, ORDER BY id. */
  function PendingIds(outbox: map<nat, Row>, lo: nat, hi: nat): seq<nat>
    requires lo <= hi
    decreases hi - lo
  {
    if lo == hi then []
    else if Pending(outbox, lo) then [lo] + PendingIds(outbox, lo + 1, hi)
    else PendingIds(outbox, lo + 1, hi)
  }

  lemma {:induction false} PendingIdsExact(outbox: map<nat, Row>, lo: nat, hi: nat)
    requires lo <= hi
    ensures var ids := PendingIds(outbox, lo, hi);
            && (forall id: nat | id in ids :: lo <= id < hi && Pending(outbox, id))
            && (forall i, j | 0 <= i < j < |ids| :: ids[i] < ids[j])
            && (forall id: nat | lo <= id < hi && Pending(outbox, id) :: id in ids)
    decreases hi - lo
  {
    if lo < hi {
      PendingIdsExact(outbox, lo + 1, hi);
      var ids, tail := PendingIds(outbox, lo, hi), PendingIds(outbox, lo + 1, hi);
      assert ids == if Pending(outbox, lo) then [lo] + tail else tail;
      forall id: nat | lo <= id < hi && Pending(outbox, id) ensures id in ids {
        assert id != lo ==> id in tail;
      }
      forall i, j | 0 <= i < j < |ids| ensures ids[i] < ids[j] {
        if Pending(outbox, lo) {
          assert ids[j] == tail[j - 1] && tail[j - 1] in tail;
        }
      }
    }
  }

  /** SELECT ... WHERE processed_at IS NULL ORDER BY id LIMIT limit. */
  function Batch(outbox: map<nat, Row>, next: nat, limit: nat): seq<nat> {
    var ids := PendingIds(outbox, 0, next);
    if |ids| <= limit then ids else ids[..limit]
  }

  // ---------------------------------------------------------------- table updates

  function MarkProcessed(outbox: map<nat, Row>, ids: seq<nat>): map<nat, Row> {
    map id | id in outbox :: if id in ids then outbox[id].(processed := true) else outbox[id]
  }

  /** Marking the published part of the batch, and closing the transaction. */
  function Marked(s: State): State
    requires s.tx.Some? && s.tx.value.done <= |s.tx.value.batch|
  {
    s.(outbox := MarkProcessed(s.outbox, s.tx.value.batch[..s.tx.value.done]), tx := None)
  }

  function Bumped(outbox: map<nat, Row>, id: nat): map<nat, Row>
    requires id in outbox
  {
    outbox[id := outbox[id].(retries := outbox[id].retries + 1)]
  }

  function DeadLetter(s: State, id: nat): State
    requires id in s.outbox
  {
    s.(outbox := s.outbox - {id},
       dlq := s.dlq[id := DeadRow(s.outbox[id].event, s.outbox[id].retries + 1)],
       history := s.history + [DeadLettered(id)])
  }

  /** A failed row is dead-lettered once its retries are used up; before that it counts one more. */
  function Fail(s: State, id: nat): State
    requires id in s.outbox && s.relay.PartialCommit?
  {
    if s.outbox[id].retries >= s.relay.maxRetries then DeadLetter(s, id)
    else s.(outbox := Bumped(s.outbox, id))
  }

  // ---------------------------------------------------------------- the machine

  predicate Enabled(s: State, st: Step) {
    match st
    case Insert(id, _) => s.next <= id
    case Begin(limit) => s.tx.None? && Batch(s.outbox, s.next, limit) != []
    case PublishOk => s.tx.Some? && s.tx.value.done < |s.tx.value.batch| && !s.tx.value.failed
    case PublishFail(_) => s.tx.Some? && s.tx.value.done < |s.tx.value.batch| && !s.tx.value.failed
    case Rollback => s.tx.Some?
    case Commit =>
      && s.tx.Some?
      && (if s.tx.value.failed then s.relay.PartialCommit? && s.tx.value.done < |s.tx.value.batch|
          else s.tx.value.done == |s.tx.value.batch|)
  }

  function Apply(s: State, st: Step): State
    requires Enabled(s, st)
  {
    match st
    case Insert(id, e) =>
      s.(next := id + 1, outbox := s.outbox[id := Row(e, 0, false)], log := s.log[id := e])
    case Begin(limit) => s.(tx := Some(Tx(Batch(s.outbox, s.next, limit), 0, false)))
    case PublishOk =>
      var Tx(batch, done, _) := s.tx.value;
      s.(tx := Some(Tx(batch, done + 1, false)), history := s.history + [Published(batch[done])])
    case PublishFail(reached) =>
      var Tx(batch, done, _) := s.tx.value;
      s.(tx := Some(Tx(batch, done, true)), history := if reached then s.history + [Published(batch[done])]
          else s.history)
    case Rollback => s.(tx := None)
    case Commit =>
      var Tx(batch, done, failed) := s.tx.value;
      if failed && batch[done] in s.outbox then Fail(Marked(s), batch[done]) else Marked(s)
  }

  // ---------------------------------------------------------------- safety

  predicate Settled(outbox: map<nat, Row>, dlq: map<nat, DeadRow>, id: nat) {
    id in dlq || (id in outbox && outbox[id].processed)
  }

  /** The id published last, or -1. */
  function LastPublished(h: seq<Entry>): int {
    if h == [] then -1
    else if h[|h| - 1].Published? then h[|h| - 1].id
    else LastPublished(h[..|h| - 1])
  }

  /** Each event is in exactly one of the outbox table (pending or processed) and the dead-letter table. */
  ghost predicate Partitioned(next: nat, outbox: map<nat, Row>, dlq: map<nat, DeadRow>, log: map<nat, Envelope>) {
    && (forall id | id in log :: id < next && (id in outbox <==> id !in dlq))
    && (forall id | id in outbox :: id in log && outbox[id].event == log[id])
    && (forall id | id in dlq :: id in log && dlq[id].event == log[id])
  }

  /** Processed rows were published and dead rows are on record. */
  ghost predicate Recorded(outbox: map<nat, Row>, dlq: map<nat, DeadRow>, history: seq<Entry>) {
    && (forall id | id in outbox && outbox[id].processed :: Published(id) in history)
    && (forall id | id in dlq :: DeadLettered(id) in history)
    && (forall e | e in history && e.DeadLettered? :: e.id in dlq)
  }

  ghost predicate DownwardClosed(outbox: map<nat, Row>, dlq: map<nat, DeadRow>, log: map<nat, Envelope>) {
    forall i, j {:trigger Settled(outbox, dlq, i), Settled(outbox, dlq, j)}
      | i in log && j in log && i < j && Settled(outbox, dlq, j) :: Settled(outbox, dlq, i)
  }

  ghost predicate Retries(relay: Relay, outbox: map<nat, Row>, dlq: map<nat, DeadRow>) {
    match relay
    case PartialCommit(max) =>
      && (forall id | Pending(outbox, id) :: outbox[id].retries <= max)
      && (forall id | id in dlq :: dlq[id].retries == max + 1)
    case AllOrNothing => dlq == map[]
  }

  /** An entry may follow history `h`: its event was inserted, every lower event was published or dead-lettered
      before, and a publish skips only over dead-lettered events since the publish before it. */
  ghost predicate MayFollow(log: map<nat, Envelope>, h: seq<Entry>, e: Entry) {
    && e.id in log
    && (forall j {:trigger Published(j)} {:trigger DeadLettered(j)} | j in log && j < e.id ::
          Published(j) in h || DeadLettered(j) in h)
    && (e.Published? ==>
          forall j {:trigger DeadLettered(j)} | j in log && LastPublished(h) < j < e.id :: DeadLettered(j) in h)
  }

  ghost predicate InOrder(log: map<nat, Envelope>, history: seq<Entry>) {
    forall p: nat {:trigger MayFollow(log, history[..p], history[p])} | p < |history| ::
      MayFollow(log, history[..p], history[p])
  }

  /** Everything above the last publish that is settled was dead-lettered. */
  ghost predicate CaughtUp(outbox: map<nat, Row>, dlq: map<nat, DeadRow>, log: map<nat, Envelope>,
                           history: seq<Entry>) {
    forall j | j in log && LastPublished(history) < j && Settled(outbox, dlq, j) :: j in dlq
  }

  /** The open transaction holds the oldest pending rows, and published the first `done` of them last. */
  ghost predicate Holding(tx: Tx, outbox: map<nat, Row>, history: seq<Entry>) {
    var Tx(batch, done, failed) := tx;
    && done <= |batch| && batch != [] && (failed ==> done < |batch|)
    && (forall i | 0 <= i < |batch| :: Pending(outbox, batch[i]))
    && (forall i, j | 0 <= i < j < |batch| :: batch[i] < batch[j])
    && (forall id | Pending(outbox, id) && id <= batch[|batch| - 1] :: id in batch)
    && (forall i | 0 <= i < done :: Published(batch[i]) in history)
    && (done > 0 ==> LastPublished(history) >= batch[done - 1])
  }

  ghost predicate Safe(s: State) {
    && Partitioned(s.next, s.outbox, s.dlq, s.log)
    && Recorded(s.outbox, s.dlq, s.history)
    && DownwardClosed(s.outbox, s.dlq, s.log)
    && Retries(s.relay, s.outbox, s.dlq)
    && InOrder(s.log, s.history)
    && CaughtUp(s.outbox, s.dlq, s.log, s.history)
    && (s.tx.Some? ==> Holding(s.tx.value, s.outbox, s.history))
  }

  ghost predicate Initial(s: State) {
    s.outbox == map[] && s.dlq == map[] && s.tx.None? && s.log == map[] && s.history == []
  }

  ghost predicate IsTrace(ss: seq<State>, steps: seq<Step>) {
    && |ss| == |steps| + 1
    && forall i | 0 <= i < |steps| ::
         Enabled(ss[i], steps[i]) && ss[i + 1] == Apply(ss[i], steps[i])
  }

  // ---------------------------------------------------------------- every step is safe

  lemma InsertTables(s: State, id: nat, e: Envelope)
    requires Partitioned(s.next, s.outbox, s.dlq, s.log) && s.next <= id
    requires DownwardClosed(s.outbox, s.dlq, s.log) && Retries(s.relay, s.outbox, s.dlq)
    ensures var outbox, log := s.outbox[id := Row(e, 0, false)], s.log[id := e];
            && Partitioned(id + 1, outbox, s.dlq, log) && DownwardClosed(outbox, s.dlq, log)
            && Retries(s.relay, outbox, s.dlq)
  {
    var outbox, log := s.outbox[id := Row(e, 0, false)], s.log[id := e];
    forall i, j | i in log && j in log && i < j && Settled(outbox, s.dlq, j) ensures Settled(outbox, s.dlq, i) {
      assert j != id && Settled(s.outbox, s.dlq, j) && Settled(s.outbox, s.dlq, i);
    }
  }

  lemma InsertHolding(s: State, id: nat, e: Envelope)
    requires Partitioned(s.next, s.outbox, s.dlq, s.log) && s.next <= id
    requires s.tx.Some? && Holding(s.tx.value, s.outbox, s.history)
    ensures Holding(s.tx.value, s.outbox[id := Row(e, 0, false)], s.history)
  {
  }

  lemma InsertSafe(s: State, id: nat, e: Envelope)
    requires Safe(s) && Enabled(s, Insert(id, e))
    ensures Safe(Apply(s, Insert(id, e)))
  {
    var t := Apply(s, Insert(id, e));
    InsertTables(s, id, e);
    InsertInOrder(s.log, s.history, id, e, s.next);
    if s.tx.Some? {
      InsertHolding(s, id, e);
    }
    assert forall i | i in s.outbox || i in s.dlq :: i != id;
  }

  lemma InsertInOrder(log: map<nat, Envelope>, history: seq<Entry>, id: nat, e: Envelope, next: nat)
    requires InOrder(log, history) && (forall i | i in log :: i < next) && next <= id
    ensures InOrder(log[id := e], history)
  {
    forall p: nat | p < |history| ensures MayFollow(log[id := e], history[..p], history[p]) {
      assert MayFollow(log, history[..p], history[p]);
    }
  }

  /** The batch is the oldest pending rows, ascending. */
  lemma BatchIsOldest(outbox: map<nat, Row>, next: nat, limit: nat)
    ensures var batch := Batch(outbox, next, limit);
            && (forall i | 0 <= i < |batch| :: batch[i] < next && Pending(outbox, batch[i]))
            && (forall i, j | 0 <= i < j < |batch| :: batch[i] < batch[j])
            && (forall id: nat | Pending(outbox, id) && id < next && batch != [] && id <= batch[|batch| - 1] ::
                id in batch)
  {
    PendingIdsExact(outbox, 0, next);
    var ids, batch := PendingIds(outbox, 0, next), Batch(outbox, next, limit);
    forall id: nat | Pending(outbox, id) && id < next && batch != [] && id <= batch[|batch| - 1] ensures id in batch {
      var k :| 0 <= k < |ids| && ids[k] == id;
      assert k < |batch| && batch[k] == id;
    }
    forall i | 0 <= i < |batch| ensures batch[i] < next && Pending(outbox, batch[i]) {
      assert batch[i] == ids[i] && ids[i] in ids;
    }
  }

  lemma BeginSafe(s: State, limit: nat)
    requires Safe(s) && Enabled(s, Begin(limit))
    ensures Safe(Apply(s, Begin(limit)))
  {
    BatchIsOldest(s.outbox, s.next, limit);
  }

  /** Whatever lies below the event about to be published is on record, and what lies between it and
      the last publish was dead-lettered. */
  lemma BelowNext(tx: Tx, outbox: map<nat, Row>, dlq: map<nat, DeadRow>, log: map<nat, Envelope>, history: seq<Entry>,
                  j: nat)
    requires Holding(tx, outbox, history) && tx.done < |tx.batch|
    requires Recorded(outbox, dlq, history) && CaughtUp(outbox, dlq, log, history)
    requires j in log && j < tx.batch[tx.done] && (j in outbox || j in dlq)
    ensures Published(j) in history || DeadLettered(j) in history
    ensures LastPublished(history) < j ==> DeadLettered(j) in history
  {
    if Pending(outbox, j) {
      var k :| 0 <= k < |tx.batch| && tx.batch[k] == j;
      assert k < tx.done;
    } else {
      assert Settled(outbox, dlq, j);
    }
  }

  /** The event about to be published comes in order. */
  lemma NextInOrder(s: State)
    requires Safe(s) && s.tx.Some? && s.tx.value.done < |s.tx.value.batch|
    ensures var id := s.tx.value.batch[s.tx.value.done];
            MayFollow(s.log, s.history, Published(id)) && MayFollow(s.log, s.history, DeadLettered(id))
  {
    var id := s.tx.value.batch[s.tx.value.done];
    assert Pending(s.outbox, id);
    forall j | j in s.log && j < id
      ensures Published(j) in s.history || DeadLettered(j) in s.history
      ensures LastPublished(s.history) < j ==> DeadLettered(j) in s.history
    {
      BelowNext(s.tx.value, s.outbox, s.dlq, s.log, s.history, j);
    }
  }

  lemma InOrderSnoc(log: map<nat, Envelope>, history: seq<Entry>, e: Entry)
    requires InOrder(log, history) && MayFollow(log, history, e)
    ensures InOrder(log, history + [e])
  {
    var h := history + [e];
    forall p: nat | p < |h| ensures MayFollow(log, h[..p], h[p]) {
      assert h[..p] == history[..p];
      if p == |history| {
        assert history[..p] == history;
      } else {
        assert MayFollow(log, history[..p], history[p]);
      }
    }
  }

  lemma PublishCaughtUp(s: State, id: nat)
    requires Partitioned(s.next, s.outbox, s.dlq, s.log) && DownwardClosed(s.outbox, s.dlq, s.log)
    requires Pending(s.outbox, id)
    ensures CaughtUp(s.outbox, s.dlq, s.log, s.history + [Published(id)])
  {
    assert LastPublished(s.history + [Published(id)]) == id;
    assert id in s.log && !Settled(s.outbox, s.dlq, id);
  }

  lemma RecordedGrows(outbox: map<nat, Row>, dlq: map<nat, DeadRow>, history: seq<Entry>, id: nat)
    requires Recorded(outbox, dlq, history)
    ensures Recorded(outbox, dlq, history + [Published(id)])
  {
  }

  lemma PublishHolding(tx: Tx, outbox: map<nat, Row>, history: seq<Entry>)
    requires Holding(tx, outbox, history) && tx.done < |tx.batch| && !tx.failed
    ensures Holding(Tx(tx.batch, tx.done + 1, false), outbox, history + [Published(tx.batch[tx.done])])
  {
  }

  /** Whatever the worker is told, an event of its batch comes onto the stream in order. */
  lemma NextSafe(s: State)
    requires Safe(s) && s.tx.Some? && s.tx.value.done < |s.tx.value.batch|
    ensures var h := s.history + [Published(s.tx.value.batch[s.tx.value.done])];
            Recorded(s.outbox, s.dlq, h) && InOrder(s.log, h) && CaughtUp(s.outbox, s.dlq, s.log, h)
  {
    var id := s.tx.value.batch[s.tx.value.done];
    NextInOrder(s);
    InOrderSnoc(s.log, s.history, Published(id));
    assert Pending(s.outbox, id);
    PublishCaughtUp(s, id);
    RecordedGrows(s.outbox, s.dlq, s.history, id);
  }

  lemma PublishOkSafe(s: State)
    requires Safe(s) && Enabled(s, PublishOk)
    ensures Safe(Apply(s, PublishOk))
  {
    NextSafe(s);
    PublishHolding(s.tx.value, s.outbox, s.history);
  }

  lemma FailHolding(tx: Tx, outbox: map<nat, Row>, history: seq<Entry>)
    requires Holding(tx, outbox, history) && tx.done < |tx.batch|
    ensures Holding(tx.(failed := true), outbox, history)
    ensures Holding(tx.(failed := true), outbox, history + [Published(tx.batch[tx.done])])
  {
    var h := history + [Published(tx.batch[tx.done])];
    assert h[..|h| - 1] == history && LastPublished(h) == tx.batch[tx.done];
  }

  lemma PublishFailSafe(s: State, reached: bool)
    requires Safe(s) && Enabled(s, PublishFail(reached))
    ensures Safe(Apply(s, PublishFail(reached)))
  {
    NextSafe(s);
    FailHolding(s.tx.value, s.outbox, s.history);
  }

  // ---------------------------------------------------------------- commit

  lemma MarkTables(tx: Tx, outbox: map<nat, Row>, dlq: map<nat, DeadRow>, log: map<nat, Envelope>, next: nat,
                   history: seq<Entry>)
    requires Partitioned(next, outbox, dlq, log) && DownwardClosed(outbox, dlq, log)
    requires Holding(tx, outbox, history)
    ensures var marked := MarkProcessed(outbox, tx.batch[..tx.done]);
            Partitioned(next, marked, dlq, log) && DownwardClosed(marked, dlq, log)
  {
    var ids := tx.batch[..tx.done];
    var marked := MarkProcessed(outbox, ids);
    forall i, j | i in log && j in log && i < j && Settled(marked, dlq, j) ensures Settled(marked, dlq, i) {
      if j !in ids {
        assert Settled(outbox, dlq, j) && Settled(outbox, dlq, i);
      } else if Pending(outbox, i) {
        var k :| 0 <= k < tx.done && ids[k] == j;
        assert tx.batch[k] <= tx.batch[|tx.batch| - 1];
        var l :| 0 <= l < |tx.batch| && tx.batch[l] == i;
        assert l < k && ids[l] == i;
      }
    }
  }

  lemma MarkHistory(tx: Tx, outbox: map<nat, Row>, dlq: map<nat, DeadRow>, log: map<nat, Envelope>, history: seq<Entry>)
    requires Recorded(outbox, dlq, history) && CaughtUp(outbox, dlq, log, history)
    requires Holding(tx, outbox, history)
    ensures var marked := MarkProcessed(outbox, tx.batch[..tx.done]);
            Recorded(marked, dlq, history) && CaughtUp(marked, dlq, log, history)
  {
    var ids := tx.batch[..tx.done];
    var marked := MarkProcessed(outbox, ids);
    forall id | id in ids ensures Published(id) in history && id <= LastPublished(history) {
      var k :| 0 <= k < tx.done && ids[k] == id;
      assert tx.batch[k] <= tx.batch[tx.done - 1];
    }
  }

  lemma MarkSafe(s: State)
    requires Safe(s) && s.tx.Some?
    ensures Safe(Marked(s))
  {
    MarkTables(s.tx.value, s.outbox, s.dlq, s.log, s.next, s.history);
    MarkHistory(s.tx.value, s.outbox, s.dlq, s.log, s.history);
  }

  lemma BumpTables(s: State, id: nat)
    requires Partitioned(s.next, s.outbox, s.dlq, s.log) && DownwardClosed(s.outbox, s.dlq, s.log)
    requires s.relay.PartialCommit? && Retries(s.relay, s.outbox, s.dlq)
    requires Pending(s.outbox, id) && s.outbox[id].retries < s.relay.maxRetries
    ensures var outbox := Bumped(s.outbox, id);
            && Partitioned(s.next, outbox, s.dlq, s.log) && DownwardClosed(outbox, s.dlq, s.log)
            && Retries(s.relay, outbox, s.dlq)
  {
    assert forall i :: Settled(Bumped(s.outbox, id), s.dlq, i) <==> Settled(s.outbox, s.dlq, i);
  }

  lemma BumpHistory(s: State, id: nat)
    requires Recorded(s.outbox, s.dlq, s.history) && CaughtUp(s.outbox, s.dlq, s.log, s.history)
    requires Pending(s.outbox, id)
    ensures var outbox := Bumped(s.outbox, id);
            Recorded(outbox, s.dlq, s.history) && CaughtUp(outbox, s.dlq, s.log, s.history)
  {
  }

  lemma DeadTables(s: State, id: nat, t: State)
    requires Partitioned(s.next, s.outbox, s.dlq, s.log) && DownwardClosed(s.outbox, s.dlq, s.log)
    requires s.relay.PartialCommit? && Retries(s.relay, s.outbox, s.dlq)
    requires Pending(s.outbox, id) && s.outbox[id].retries >= s.relay.maxRetries
    requires forall j | j in s.log && j < id :: Settled(s.outbox, s.dlq, j)
    requires t == DeadLetter(s, id)
    ensures Partitioned(t.next, t.outbox, t.dlq, t.log) && DownwardClosed(t.outbox, t.dlq, t.log)
    ensures Retries(t.relay, t.outbox, t.dlq)
  {
    assert forall i :: Settled(t.outbox, t.dlq, i) <==> Settled(s.outbox, s.dlq, i) || i == id;
  }

  lemma DeadHistory(s: State, id: nat, t: State)
    requires Recorded(s.outbox, s.dlq, s.history) && CaughtUp(s.outbox, s.dlq, s.log, s.history)
    requires id in s.outbox && id in s.log && InOrder(s.log, s.history)
    requires forall j | j in s.log && j < id :: Settled(s.outbox, s.dlq, j)
    requires t == DeadLetter(s, id)
    ensures Recorded(t.outbox, t.dlq, t.history) && CaughtUp(t.outbox, t.dlq, t.log, t.history)
    ensures InOrder(t.log, t.history)
  {
    assert (s.history + [DeadLettered(id)])[..|s.history|] == s.history;
    InOrderSnoc(s.log, s.history, DeadLettered(id));
  }

  /** Below a failed event everything is settled once the events published before it are marked. */
  lemma BelowFailed(tx: Tx, outbox: map<nat, Row>, dlq: map<nat, DeadRow>, log: map<nat, Envelope>, next: nat,
                    history: seq<Entry>)
    requires Partitioned(next, outbox, dlq, log) && Holding(tx, outbox, history) && tx.done < |tx.batch|
    ensures var marked, id := MarkProcessed(outbox, tx.batch[..tx.done]), tx.batch[tx.done];
            && id in log && Pending(marked, id) && marked[id] == outbox[id]
            && forall j | j in log && j < id :: Settled(marked, dlq, j)
  {
    var ids := tx.batch[..tx.done];
    var marked, id := MarkProcessed(outbox, ids), tx.batch[tx.done];
    assert Pending(outbox, id) && id <= tx.batch[|tx.batch| - 1];
    assert id !in ids;
    forall j | j in log && j < id ensures Settled(marked, dlq, j) {
      if Pending(outbox, j) {
        var k :| 0 <= k < |tx.batch| && tx.batch[k] == j;
        assert k < tx.done && ids[k] == j;
      }
    }
  }

  lemma DeadSafe(s: State, id: nat)
    requires Safe(s) && s.tx.None? && s.relay.PartialCommit? && Pending(s.outbox, id)
    requires s.outbox[id].retries >= s.relay.maxRetries
    requires forall j | j in s.log && j < id :: Settled(s.outbox, s.dlq, j)
    ensures Safe(DeadLetter(s, id))
  {
    DeadTables(s, id, DeadLetter(s, id));
    DeadHistory(s, id, DeadLetter(s, id));
  }

  lemma BumpSafe(s: State, id: nat)
    requires Safe(s) && s.tx.None? && s.relay.PartialCommit? && Pending(s.outbox, id)
    requires s.outbox[id].retries < s.relay.maxRetries
    ensures Safe(s.(outbox := Bumped(s.outbox, id)))
  {
    BumpTables(s, id);
    BumpHistory(s, id);
  }

  lemma FailedRow(s: State)
    requires Safe(s) && s.tx.Some? && s.tx.value.done < |s.tx.value.batch|
    ensures var id := s.tx.value.batch[s.tx.value.done];
            && Pending(Marked(s).outbox, id)
            && forall j | j in Marked(s).log && j < id :: Settled(Marked(s).outbox, Marked(s).dlq, j)
  {
    BelowFailed(s.tx.value, s.outbox, s.dlq, s.log, s.next, s.history);
  }

  lemma CommitSafe(s: State, t: State)
    requires Safe(s) && Enabled(s, Commit) && t == Apply(s, Commit)
    ensures Safe(t)
  {
    MarkSafe(s);
    if s.tx.value.failed {
      FailedRow(s);
      var id := s.tx.value.batch[s.tx.value.done];
      if Marked(s).outbox[id].retries >= s.relay.maxRetries {
        DeadSafe(Marked(s), id);
      } else {
        BumpSafe(Marked(s), id);
      }
    }
  }

  lemma StepSafe(s: State, st: Step)
    requires Safe(s) && Enabled(s, st)
    ensures Safe(Apply(s, st))
  {
    match st {
      case Insert(id, e) => InsertSafe(s, id, e);
      case Begin(limit) => BeginSafe(s, limit);
      case PublishOk => PublishOkSafe(s);
      case PublishFail(reached) => PublishFailSafe(s, reached);
      case Commit => CommitSafe(s, Apply(s, st));
      case _ =>
    }
  }

  // ---------------------------------------------------------------- safety over whole runs

  lemma {:induction false} TraceSafe(ss: seq<State>, steps: seq<Step>, i: nat)
    requires IsTrace(ss, steps) && Initial(ss[0]) && i < |ss|
    ensures Safe(ss[i])
  {
    if i > 0 {
      TraceSafe(ss, steps, i - 1);
      StepSafe(ss[i - 1], steps[i - 1]);
    }
  }

  /** Both relays, at every moment of every run: each inserted event is in exactly one of pending, processed
      and dead-lettered; processed events were published; settled ids are downward closed; and whatever
      became visible did so after every lower event had been published or dead-lettered. */
  lemma RelaySafety(ss: seq<State>, steps: seq<Step>, i: nat)
    requires IsTrace(ss, steps) && Initial(ss[0]) && i < |ss|
    ensures var s := ss[i];
            && (forall id | id in s.log ::
                  && (Pending(s.outbox, id) ==> id !in s.dlq)
                  && (Pending(s.outbox, id) || Settled(s.outbox, s.dlq, id))
                  && !(Pending(s.outbox, id) && Settled(s.outbox, s.dlq, id))
                  && !(id in s.dlq && id in s.outbox))
            && (forall id | id in s.outbox && s.outbox[id].processed :: Published(id) in s.history)
            && (forall i, j | i in s.log && j in s.log && i < j && Settled(s.outbox, s.dlq, j) ::
                  Settled(s.outbox, s.dlq, i))
            && (forall p: nat, j | p < |s.history| && j in s.log && j < s.history[p].id ::
                  Published(j) in s.history[..p] || DeadLettered(j) in s.history[..p])
  {
    TraceSafe(ss, steps, i);
    var s := ss[i];
    forall p: nat, j | p < |s.history| && j in s.log && j < s.history[p].id
      ensures Published(j) in s.history[..p] || DeadLettered(j) in s.history[..p]
    {
      assert MayFollow(s.log, s.history[..p], s.history[p]);
      assert Published(j) == Published(j);  // the term that the quantifier in MayFollow is triggered by
    }
  }

  /** Retry counts stay within bounds, and a dead row carries one more than the maximum; the message relay,
      which has no retry counter, dead-letters nothing. */
  lemma RetryBounds(ss: seq<State>, steps: seq<Step>, i: nat)
    requires IsTrace(ss, steps) && Initial(ss[0]) && i < |ss|
    ensures ss[i].relay == ss[0].relay
    ensures ss[i].relay.AllOrNothing? ==> ss[i].dlq == map[]
    ensures ss[i].relay.PartialCommit? ==>
              && (forall id | Pending(ss[i].outbox, id) :: ss[i].outbox[id].retries <= ss[0].relay.maxRetries)
              && (forall id | id in ss[i].dlq :: ss[i].dlq[id].retries == ss[0].relay.maxRetries + 1)
  {
    RelayConstant(ss, steps, i);
    TraceSafe(ss, steps, i);
  }

  lemma {:induction false} RelayConstant(ss: seq<State>, steps: seq<Step>, i: nat)
    requires IsTrace(ss, steps) && i < |ss|
    ensures ss[i].relay == ss[0].relay
  {
    if i > 0 {
      RelayConstant(ss, steps, i - 1);
    }
  }

  // ---------------------------------------------------------------- the stream

  /** The ids on the event stream, in order. */
  function Stream(h: seq<Entry>): seq<nat> {
    if h == [] then []
    else if h[|h| - 1].Published? then Stream(h[..|h| - 1]) + [h[|h| - 1].id]
    else Stream(h[..|h| - 1])
  }

  /** Event `j` does not lie strictly between record `p` and the record before it. */
  predicate NoSkip(ids: seq<nat>, p: nat, j: nat)
    requires p < |ids|
  {
    j <= (if p == 0 then -1 else ids[p - 1]) || j >= ids[p]
  }

  /** From one record to the next the stream moves to the next event of the log, or back. */
  ghost predicate Rewinding(log: map<nat, Envelope>, ids: seq<nat>) {
    forall p: nat, j: nat {:trigger NoSkip(ids, p, j)} | p < |ids| && j in log :: NoSkip(ids, p, j)
  }

  lemma {:induction false} StreamLast(h: seq<Entry>)
    ensures LastPublished(h) == if Stream(h) == [] then -1 else Stream(h)[|Stream(h)| - 1]
    decreases |h|
  {
    if h != [] {
      StreamLast(h[..|h| - 1]);
    }
  }

  lemma {:induction false} StreamMember(h: seq<Entry>, id: nat)
    ensures id in Stream(h) <==> Published(id) in h
    decreases |h|
  {
    if h != [] {
      StreamMember(h[..|h| - 1], id);
      assert h == h[..|h| - 1] + [h[|h| - 1]];
    }
  }

  /** Where nothing was dead-lettered, the stream is the log with rewinds. */
  lemma {:induction false} StreamRewinds(log: map<nat, Envelope>, h: seq<Entry>)
    requires InOrder(log, h)
    requires forall e | e in h :: e.Published?
    ensures Rewinding(log, Stream(h))
    decreases |h|
  {
    if h != [] {
      var g, e := h[..|h| - 1], h[|h| - 1];
      forall p: nat | p < |g| ensures MayFollow(log, g[..p], g[p]) {
        assert g[..p] == h[..p] && MayFollow(log, h[..p], h[p]);
      }
      forall x | x in g ensures x.Published? {
        assert x in h;
      }
      StreamRewinds(log, g);
      StreamLast(g);
      assert MayFollow(log, h[..|h| - 1], h[|h| - 1]);
      forall p: nat, j: nat | p < |Stream(h)| && j in log ensures NoSkip(Stream(h), p, j) {
        assert p < |Stream(g)| ==> NoSkip(Stream(g), p, j);
        assert DeadLettered(j) !in g;
      }
    }
  }

  /** Every record on the stream is an event of the log. */
  lemma StreamInLog(log: map<nat, Envelope>, h: seq<Entry>, k: nat)
    requires InOrder(log, h) && k < |Stream(h)|
    ensures Stream(h)[k] in log
  {
    var id := Stream(h)[k];
    StreamMember(h, id);
    var p :| 0 <= p < |h| && h[p] == Published(id);
    assert MayFollow(log, h[..p], h[p]);
  }

  ghost predicate Drained(s: State) {
    s.dlq == map[] && forall id | id in s.log :: !Pending(s.outbox, id)
  }

  /** Once a relay that dead-lettered nothing has drained its outbox, the stream holds the whole log,
      rewinds only, and ends with the last event. */
  lemma DrainedStream(s: State)
    requires Safe(s) && Drained(s)
    ensures var ids := Stream(s.history);
            && Rewinding(s.log, ids)
            && (forall id | id in s.log :: id in ids)
            && (forall id | id in s.log :: ids != [] && id <= ids[|ids| - 1])
            && (forall k | 0 <= k < |ids| :: ids[k] in s.log)
  {
    StreamRewinds(s.log, s.history);
    StreamLast(s.history);
    forall id | id in s.log ensures id in Stream(s.history) && id <= LastPublished(s.history) {
      assert Settled(s.outbox, s.dlq, id);
      StreamMember(s.history, id);
    }
    forall k | 0 <= k < |Stream(s.history)| ensures Stream(s.history)[k] in s.log {
      StreamInLog(s.log, s.history, k);
    }
  }

  // ---------------------------------------------------------------- progress

  /** What a row may still cost the relay: the failures left to it, and its last attempt. */
  function Cost(outbox: map<nat, Row>, max: nat, id: nat): nat {
    if Pending(outbox, id) && outbox[id].retries <= max then max + 1 - outbox[id].retries else 0
  }

  function Potential(outbox: map<nat, Row>, max: nat, n: nat): nat {
    if n == 0 then 0 else Potential(outbox, max, n - 1) + Cost(outbox, max, n - 1)
  }

  lemma {:induction false} PotentialFalls(a: map<nat, Row>, b: map<nat, Row>, max: nat, n: nat, k: nat)
    requires forall i: nat | i < n :: Cost(b, max, i) <= Cost(a, max, i)
    requires k < n ==> Cost(b, max, k) < Cost(a, max, k)
    ensures Potential(b, max, n) <= Potential(a, max, n)
    ensures k < n ==> Potential(b, max, n) < Potential(a, max, n)
  {
    if n > 0 {
      PotentialFalls(a, b, max, n - 1, k);
    }
  }

  /** Every committed batch brings the dead-lettering relay strictly closer to an empty outbox. */
  lemma CommitProgress(s: State, max: nat)
    requires Safe(s) && Enabled(s, Commit) && s.relay == PartialCommit(max)
    ensures Potential(Apply(s, Commit).outbox, max, s.next) < Potential(s.outbox, max, s.next)
  {
    var Tx(batch, done, failed) := s.tx.value;
    var t := Apply(s, Commit);
    var ids := batch[..done];
    forall i: nat | i < s.next ensures Cost(t.outbox, max, i) <= Cost(s.outbox, max, i) {
    }
    var k := batch[0];
    assert Pending(s.outbox, k);
    if done > 0 {
      assert ids[0] == k;
      assert failed ==> batch[done] != k;
    }
    PotentialFalls(s.outbox, t.outbox, max, s.next, k);
  }

  function Commits(steps: seq<Step>): nat {
    if steps == [] then 0
    else Commits(steps[..|steps| - 1]) + (if steps[|steps| - 1].Commit? then 1 else 0)
  }

  lemma StepPotential(s: State, st: Step, max: nat)
    requires Safe(s) && Enabled(s, st) && !st.Insert? && s.relay == PartialCommit(max)
    ensures var t := Apply(s, st);
            && t.relay == s.relay && t.next == s.next
            && Potential(t.outbox, max, t.next) + (if st.Commit? then 1 else 0) <= Potential(s.outbox, max, s.next)
  {
    if st.Commit? {
      CommitProgress(s, max);
    }
  }

  /** While no producer inserts, the number of committed batches is bounded by the potential of the outbox
      at the start. */
  lemma {:induction false} CommitsAreBounded(ss: seq<State>, steps: seq<Step>, max: nat, i: nat)
    requires IsTrace(ss, steps) && Safe(ss[0]) && ss[0].relay == PartialCommit(max) && i < |ss|
    requires forall k | 0 <= k < |steps| :: !steps[k].Insert?
    ensures Safe(ss[i]) && ss[i].relay == ss[0].relay && ss[i].next == ss[0].next
    ensures Commits(steps[..i]) + Potential(ss[i].outbox, max, ss[i].next) <= Potential(ss[0].outbox, max, ss[0].next)
  {
    if i > 0 {
      CommitsAreBounded(ss, steps, max, i - 1);
      StepSafe(ss[i - 1], steps[i - 1]);
      StepPotential(ss[i - 1], steps[i - 1], max);
      assert steps[..i][..i - 1] == steps[..i - 1];
    }
  }

  /** At potential zero nothing is pending, and while something is pending there is a batch to open:
      a finite outbox drains. */
  lemma PendingMeansWork(s: State, max: nat, limit: nat)
    requires Safe(s) && s.relay == PartialCommit(max) && limit > 0
    ensures (exists id :: Pending(s.outbox, id)) <==> Potential(s.outbox, max, s.next) > 0
    ensures (exists id :: Pending(s.outbox, id)) <==> Batch(s.outbox, s.next, limit) != []
  {
    forall id | Pending(s.outbox, id) ensures Potential(s.outbox, max, s.next) > 0 {
      CostCounts(s.outbox, max, s.next, id);
    }
    if forall id :: !Pending(s.outbox, id) {
      NoCost(s.outbox, max, s.next);
    }
    PendingIdsExact(s.outbox, 0, s.next);
    var ids := PendingIds(s.outbox, 0, s.next);
    forall id | Pending(s.outbox, id) ensures ids != [] {
      assert id in ids;
    }
    if ids != [] {
      assert Pending(s.outbox, ids[0]);
    }
  }

  lemma {:induction false} NoCost(outbox: map<nat, Row>, max: nat, n: nat)
    requires forall id :: !Pending(outbox, id)
    ensures Potential(outbox, max, n) == 0
  {
    if n > 0 {
      NoCost(outbox, max, n - 1);
    }
  }

  lemma {:induction false} CostCounts(outbox: map<nat, Row>, max: nat, n: nat, id: nat)
    requires id < n
    ensures Potential(outbox, max, n) >= Cost(outbox, max, id)
  {
    if id < n - 1 {
      CostCounts(outbox, max, n - 1, id);
    }
  }

  // ---------------------------------------------------------------- the two workers

  /** What the environment does to one event of a batch: both calls succeed, the row update fails after the
      publish, the publish fails, or the publish and then the bookkeeping for it fail. A publish that reports an
      error may have reached the stream. */
  datatype Answer = Ok | UpdateError | PublishError(reached: bool) | PublishAndUpdateError(reached: bool)

  /** The event is on the stream, whatever the worker was told. */
  predicate OnStream(a: Answer) {
    match a
    case PublishError(reached) => reached
    case PublishAndUpdateError(reached) => reached
    case _ => true
  }

  /** The commit succeeds, is applied although its reply is lost, or is not applied. */
  datatype CommitAnswer = Committed | LostReply | Aborted

  function Publishes(ids: seq<nat>): seq<Entry> {
    seq(|ids|, i requires 0 <= i < |ids| => Published(ids[i]))
  }

  /** How many events of the batch go through before the first failure. */
  function Leading(answer: nat -> Answer, i: nat, n: nat): (k: nat)
    requires i <= n
    ensures i <= k <= n && (forall j | i <= j < k :: answer(j).Ok?) && (k < n ==> !answer(k).Ok?)
    decreases n - i
  {
    if i == n || !answer(i).Ok? then i else Leading(answer, i + 1, n)
  }

  function AfterPublishing(s: State, batch: seq<nat>, k: nat): State
    requires k <= |batch|
  {
    s.(tx := Some(Tx(batch, k, false)), history := s.history + Publishes(batch[..k]))
  }

  lemma AfterPublishingSteps(s: State, batch: seq<nat>, k: nat)
    requires k <= |batch| && s.tx.None?
    ensures k == 0 ==> AfterPublishing(s, batch, k) == s.(tx := Some(Tx(batch, 0, false)))
    ensures k > 0 ==> AfterPublishing(s, batch, k) == Apply(AfterPublishing(s, batch, k - 1), PublishOk)
  {
  }

  lemma PublishesSnoc(batch: seq<nat>, i: nat)
    requires i < |batch|
    ensures Publishes(batch[..i + 1]) == Publishes(batch[..i]) + [Published(batch[i])]
  {
  }

  lemma {:induction false} PublishingSafe(s: State, batch: seq<nat>, k: nat)
    requires s.tx.None? && Safe(s.(tx := Some(Tx(batch, 0, false)))) && k <= |batch|
    ensures Safe(AfterPublishing(s, batch, k))
  {
    AfterPublishingSteps(s, batch, k);
    if k > 0 {
      PublishingSafe(s, batch, k - 1);
      PublishOkSafe(AfterPublishing(s, batch, k - 1));
    }
  }

  /** The machine steps that end a batch after `k` successful publishes. */
  function LastSteps(t: State, k: nat, answer: nat -> Answer, commit: CommitAnswer): State
    requires t.tx.Some? && t.tx.value.done == k <= |t.tx.value.batch| && !t.tx.value.failed
    requires forall i | 0 <= i < |t.tx.value.batch| :: t.tx.value.batch[i] in t.outbox
  {
    if k == |t.tx.value.batch| then Apply(t, if commit.Aborted? then Rollback else Commit)
    else
      var failed := Apply(t, PublishFail(OnStream(answer(k))));
      Apply(failed, if answer(k).PublishError? && !commit.Aborted? && t.relay.PartialCommit? then Commit else Rollback)
  }

  /** The effect of one batch, as steps of the machine. Publishing is never undone; the tables change only when
      the commit is applied, even if its reply is lost; and a failed publish then settles the events before it and
      counts against its own row, or, for the all-or-nothing relay, settles nothing. */
  function BatchEffect(s: State, batch: seq<nat>, answer: nat -> Answer, commit: CommitAnswer): State
    requires forall i | 0 <= i < |batch| :: batch[i] in s.outbox
  {
    if batch == [] then s
    else
      var k := Leading(answer, 0, |batch|);
      LastSteps(AfterPublishing(s, batch, k), k, answer, commit)
  }

  lemma LastStepsSafe(t: State, k: nat, answer: nat -> Answer, commit: CommitAnswer)
    requires t.tx.Some? && t.tx.value.done == k <= |t.tx.value.batch| && !t.tx.value.failed
    requires forall i | 0 <= i < |t.tx.value.batch| :: t.tx.value.batch[i] in t.outbox
    requires Safe(t)
    ensures Safe(LastSteps(t, k, answer, commit))
  {
    if k == |t.tx.value.batch| {
      StepSafe(t, if commit.Aborted? then Rollback else Commit);
    } else {
      var failed := Apply(t, PublishFail(OnStream(answer(k))));
      StepSafe(t, PublishFail(OnStream(answer(k))));
      StepSafe(failed, if answer(k).PublishError? && !commit.Aborted? && t.relay.PartialCommit? then Commit
          else Rollback);
    }
  }

  /** The effect of a batch is one run of machine steps, so both workers keep the safety invariant whatever fails. */
  lemma BatchEffectSafe(s: State, limit: nat, answer: nat -> Answer, commit: CommitAnswer)
    requires Safe(s) && s.tx.None?
    requires forall i | 0 <= i < |Batch(s.outbox, s.next, limit)| :: Batch(s.outbox, s.next, limit)[i] in s.outbox
    ensures Safe(BatchEffect(s, Batch(s.outbox, s.next, limit), answer, commit))
  {
    var batch := Batch(s.outbox, s.next, limit);
    if batch != [] {
      BeginSafe(s, limit);
      var k := Leading(answer, 0, |batch|);
      PublishingSafe(s, batch, k);
      LastStepsSafe(AfterPublishing(s, batch, k), k, answer, commit);
    }
  }

  lemma MarkSnoc(outbox: map<nat, Row>, ids: seq<nat>, id: nat)
    requires id in outbox
    ensures MarkProcessed(outbox, ids + [id])
         == MarkProcessed(outbox, ids)[id := outbox[id].(processed := true)]
  {
  }

  /** Publishes the batch up to the first failure, marking rows in a copy of the table. */
  method PublishLoop(outbox: map<nat, Row>, batch: seq<nat>, answer: nat -> Answer)
    returns (i: nat, sent: seq<Entry>, work: map<nat, Row>)
    requires forall j | 0 <= j < |batch| :: batch[j] in outbox
    ensures i == Leading(answer, 0, |batch|)
    ensures sent == Publishes(batch[..i]) && work == MarkProcessed(outbox, batch[..i])
  {
    i, sent, work := 0, [], outbox;
    while i < |batch| && answer(i).Ok?
      invariant i <= |batch| && forall j | 0 <= j < i :: answer(j).Ok?
      invariant sent == Publishes(batch[..i]) && work == MarkProcessed(outbox, batch[..i])
    {
      sent := sent + [Published(batch[i])];
      MarkSnoc(outbox, batch[..i], batch[i]);
      assert batch[..i + 1] == batch[..i] + [batch[i]];
      work := work[batch[i] := outbox[batch[i]].(processed := true)];
      i := i + 1;
    }
  }

  /** The tables of one service and the stream its worker publishes to. */
  class Store {
    var next: nat
    var outbox: map<nat, Row>
    var dlq: map<nat, DeadRow>
    var history: seq<Entry>
    ghost var log: map<nat, Envelope>

    ghost function Abs(relay: Relay): State reads this {
      State(relay, next, outbox, dlq, None, log, history)
    }

    constructor ()
      ensures forall relay :: Initial(Abs(relay))
    {
      next, outbox, dlq, history, log := 0, map[], map[], [], map[];
    }

    method InsertOutbox(e: Envelope)
      modifies this
      ensures forall relay :: Abs(relay) == Apply(old(Abs(relay)), Insert(old(next), e))
    {
      outbox := outbox[next := Row(e, 0, false)];
      log := log[next := e];
      next := next + 1;
    }

    /** SELECT ... FOR UPDATE of the oldest pending rows. */
    method SelectBatch(batchSize: nat) returns (batch: seq<nat>)
      ensures batch == Batch(outbox, next, batchSize)
      ensures forall i | 0 <= i < |batch| :: Pending(outbox, batch[i])
    {
      BatchIsOldest(outbox, next, batchSize);
      batch := Batch(outbox, next, batchSize);
    }

    /** Moves a row whose retries are used up to the dead-letter table, and counts one more for any other. */
    method CountFailure(id: nat, maxRetries: nat)
      requires id in outbox
      modifies `outbox, `dlq, `history
      ensures Abs(PartialCommit(maxRetries)) == Fail(old(Abs(PartialCommit(maxRetries))), id)
    {
      if outbox[id].retries >= maxRetries {
        dlq := dlq[id := DeadRow(outbox[id].event, outbox[id].retries + 1)];
        outbox := outbox - {id};
        history := history + [DeadLettered(id)];
      } else {
        outbox := outbox[id := outbox[id].(retries := outbox[id].retries + 1)];
      }
    }

    /** The conversation service's worker: progress made before a failed publish is committed. */
    method ProcessBatchPartial(batchSize: nat, configured: nat, answer: nat -> Answer, commit: CommitAnswer)
      returns (ghost batch: seq<nat>, failed: bool)
      modifies `outbox, `dlq, `history
      ensures batch == Batch(old(outbox), next, batchSize) && forall i | 0 <= i < |batch| :: batch[i] in old(outbox)
      ensures var relay := PartialCommit(if configured == 0 then 3 else configured);
              Abs(relay) == BatchEffect(old(Abs(relay)), batch, answer, commit)
    {
      var events := SelectBatch(batchSize);
      batch := events;
      if events == [] {
        return batch, false;
      }
      var maxRetries := if configured == 0 then 3 else configured;
      var i, sent, work := PublishLoop(outbox, events, answer);
      history := history + sent;
      if i == |events| {
        if !commit.Aborted? {
          outbox := work;
        }
        return batch, !commit.Committed?;
      }
      var id := events[i];
      PublishesSnoc(events, i);
      if OnStream(answer(i)) {
        history := history + [Published(id)];
      }
      if answer(i).PublishError? && !commit.Aborted? {
        outbox := work;
        CountFailure(id, maxRetries);
      }
      failed := true;
    }

    /** The message service's worker: any failure rolls the whole batch back. */
    method ProcessBatchAtomic(batchSize: nat, answer: nat -> Answer, commit: CommitAnswer)
      returns (ghost batch: seq<nat>, failed: bool)
      modifies `outbox, `history
      ensures batch == Batch(old(outbox), next, batchSize) && forall i | 0 <= i < |batch| :: batch[i] in old(outbox)
      ensures Abs(AllOrNothing) == BatchEffect(old(Abs(AllOrNothing)), batch, answer, commit)
    {
      var events := SelectBatch(batchSize);
      batch := events;
      if events == [] {
        return batch, false;
      }
      var i, sent, work := PublishLoop(outbox, events, answer);
      history := history + sent;
      if i == |events| {
        if !commit.Aborted? {
          outbox := work;
        }
        return batch, !commit.Committed?;
      }
      PublishesSnoc(events, i);
      if OnStream(answer(i)) {
        history := history + [Published(events[i])];
      }
      failed := true;
    }
  }
}
