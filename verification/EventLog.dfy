/** The outbox table read as a log: the events in the order of their ids, whatever gaps the ids have. */
module EventLog {
  import opened Events
  import O = Outbox

  function LogSeq(log: map<nat, Envelope>, n: nat): seq<Envelope> {
    if n == 0 then []
    else if n - 1 in log then LogSeq(log, n - 1) + [log[n - 1]]
    else LogSeq(log, n - 1)
  }

  /** The place of an id in the log: how many events have a lower id. */
  function Rank(log: map<nat, Envelope>, id: nat): nat {
    |LogSeq(log, id)|
  }

  lemma {:induction false} PrefixOfLog(log: map<nat, Envelope>, m: nat, n: nat)
    requires m <= n
    ensures LogSeq(log, m) <= LogSeq(log, n)
    decreases n
  {
    if m < n {
      PrefixOfLog(log, m, n - 1);
    }
  }

  lemma RankExact(log: map<nat, Envelope>, id: nat, n: nat)
    requires id in log && id < n
    ensures Rank(log, id) < |LogSeq(log, n)| && LogSeq(log, n)[Rank(log, id)] == log[id]
  {
  }

  lemma RankGrows(log: map<nat, Envelope>, i: nat, j: nat)
    requires i in log && i < j
    ensures Rank(log, i) < Rank(log, j)
  {
    PrefixOfLog(log, i + 1, j);
  }

  /** Every place of the log belongs to an id. */
  lemma {:induction false} IdAt(log: map<nat, Envelope>, n: nat, k: nat) returns (id: nat)
    requires k < |LogSeq(log, n)|
    ensures id in log && id < n && Rank(log, id) == k && LogSeq(log, n)[k] == log[id]
    decreases n
  {
    if k == |LogSeq(log, n - 1)| {
      id := n - 1;
    } else {
      id := IdAt(log, n - 1, k);
    }
  }

  /** An insert with a new highest id appends to the log. */
  lemma {:induction false} InsertAppends(log: map<nat, Envelope>, next: nat, id: nat, e: Envelope, n: nat)
    requires (forall i | i in log :: i < next) && next <= id && n <= id
    ensures LogSeq(log[id := e], n) == LogSeq(log, n)
    ensures n >= next ==> LogSeq(log, n) == LogSeq(log, next)
    ensures n == id ==> LogSeq(log[id := e], n + 1) == LogSeq(log, next) + [e]
  {
    if n > 0 {
      InsertAppends(log, next, id, e, n - 1);
    }
  }

  lemma {:induction false} EmptyLog(n: nat)
    ensures LogSeq(map[], n) == []
  {
    if n > 0 {
      EmptyLog(n - 1);
    }
  }

  // ---------------------------------------------------------------- a service and its relay

  /** A transaction appends one event to its log at most. */
  ghost predicate AppendsOne(before: seq<Envelope>, after: seq<Envelope>) {
    after == before || (|after| == |before| + 1 && after[..|before|] == before)
  }

  /** The relay's table after a transaction of the service: the new event, if any, under any new highest id. */
  function Follow(r: O.State, id: nat, before: seq<Envelope>, after: seq<Envelope>): O.State
    requires r.next <= id
  {
    if |after| > |before| then O.Apply(r, O.Insert(id, after[|after| - 1])) else r
  }

  lemma RelayKeepsLog(r: O.State, st: O.Step)
    requires O.Enabled(r, st) && !st.Insert?
    ensures O.Apply(r, st).log == r.log && O.Apply(r, st).next == r.next
  {
  }

  lemma InsertKeepsLog(r: O.State, before: seq<Envelope>, id: nat, e: Envelope)
    requires O.Safe(r) && r.next <= id && LogSeq(r.log, r.next) == before
    ensures var t := O.Apply(r, O.Insert(id, e)); O.Safe(t) && LogSeq(t.log, t.next) == before + [e]
  {
    O.StepSafe(r, O.Insert(id, e));
    InsertAppends(r.log, r.next, id, e, id);
  }

  lemma FollowKeepsLog(r: O.State, id: nat, before: seq<Envelope>, after: seq<Envelope>)
    requires O.Safe(r) && LogSeq(r.log, r.next) == before && r.next <= id && AppendsOne(before, after)
    ensures var t := Follow(r, id, before, after); O.Safe(t) && LogSeq(t.log, t.next) == after
  {
    if |after| > |before| {
      InsertKeepsLog(r, before, id, after[|after| - 1]);
      assert before + [after[|after| - 1]] == after;
    }
  }

  lemma RelayStep(r: O.State, st: O.Step)
    requires O.Safe(r) && O.Enabled(r, st) && !st.Insert?
    ensures var t := O.Apply(r, st); O.Safe(t) && LogSeq(t.log, t.next) == LogSeq(r.log, r.next)
  {
    O.StepSafe(r, st);
    RelayKeepsLog(r, st);
  }

  lemma StreamGrows(r: O.State, st: O.Step)
    requires O.Enabled(r, st)
    ensures O.Stream(r.history) <= O.Stream(O.Apply(r, st).history)
  {
    var h := O.Apply(r, st).history;
    if h != r.history {
      assert h[..|h| - 1] == r.history;
    }
  }

  /** From step to step the stream only grows, and records keep their events. */
  ghost predicate Continues(r: O.State, t: O.State) {
    && O.Stream(r.history) <= O.Stream(t.history)
    && (forall id | id in r.log :: id in t.log && t.log[id] == r.log[id])
  }

  lemma RelayContinues(r: O.State, st: O.Step)
    requires O.Enabled(r, st) && !st.Insert?
    ensures Continues(r, O.Apply(r, st))
  {
    StreamGrows(r, st);
    RelayKeepsLog(r, st);
  }
}
