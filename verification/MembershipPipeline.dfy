/** From the participants table to a membership cache: the conversation service commits, the relay publishes its
    outbox with retries and rewinds, and a delivery instance feeds the stream to one cache entry. */
module MembershipPipeline {
  import opened Events
  import opened EventLog
  import C = Conversation
  import O = Outbox
  import V = Convergence

  datatype State = State(service: C.State, relay: O.State)

  /** A service step appends its event to the relay's table in the same transaction, under any new highest id. */
  datatype Step = Serve(st: C.Step, id: nat) | Relay(rst: O.Step)

  predicate Enabled(s: State, st: Step) {
    match st
    case Serve(_, id) => s.relay.next <= id
    case Relay(rst) => !rst.Insert? && O.Enabled(s.relay, rst)
  }

  function Apply(s: State, st: Step): State
    requires Enabled(s, st)
  {
    match st
    case Serve(cst, id) =>
      var t := C.Apply(s.service, cst);
      State(t, Follow(s.relay, id, s.service.db.outbox, t.db.outbox))
    case Relay(rst) => s.(relay := O.Apply(s.relay, rst))
  }

  ghost predicate Initial(s: State) {
    s.service == C.INIT && O.Initial(s.relay)
  }

  ghost predicate Next(s: State, t: State) {
    exists st: Step :: Enabled(s, st) && t == Apply(s, st)
  }

  ghost predicate StepAt(run: seq<State>, i: nat)
    requires i + 1 < |run|
  {
    Next(run[i], run[i + 1])
  }

  ghost predicate IsRun(run: seq<State>) {
    && |run| > 0 && Initial(run[0])
    && forall i: nat {:trigger StepAt(run, i)} | i + 1 < |run| :: StepAt(run, i)
  }

  /** The events of the conversation service send no messages. */
  ghost predicate NoMessages(outbox: seq<Envelope>) {
    forall k | 0 <= k < |outbox| :: !outbox[k].body.MessageSent?
  }

  ghost predicate Inv(s: State) {
    && C.Inv(s.service) && O.Safe(s.relay)
    && LogSeq(s.relay.log, s.relay.next) == s.service.db.outbox && NoMessages(s.service.db.outbox)
  }

  // ---------------------------------------------------------------- the invariant

  lemma ServiceAppends(s: C.State, st: C.Step)
    ensures AppendsOne(s.db.outbox, C.Apply(s, st).db.outbox)
    ensures NoMessages(s.db.outbox) ==> NoMessages(C.Apply(s, st).db.outbox)
  {
  }

  lemma InvStep(s: State, st: Step, t: State)
    requires Inv(s) && Enabled(s, st) && t == Apply(s, st)
    ensures Inv(t)
  {
    if st.Serve? {
      C.InvStep(s.service, st.st);
      ServiceAppends(s.service, st.st);
      FollowKeepsLog(s.relay, st.id, s.service.db.outbox, t.service.db.outbox);
    } else {
      RelayStep(s.relay, st.rst);
    }
  }

  lemma StepContinues(s: State, st: Step, t: State)
    requires O.Safe(s.relay) && Enabled(s, st) && t == Apply(s, st)
    ensures Continues(s.relay, t.relay)
  {
    if st.Relay? {
      RelayContinues(s.relay, st.rst);
    }
  }

  lemma InitialInv(s: State)
    requires Initial(s)
    ensures Inv(s)
  {
    C.Invariant([]);
    EmptyLog(s.relay.next);
  }

  lemma {:induction false} Invariant(run: seq<State>, i: nat)
    requires IsRun(run) && i < |run|
    ensures Inv(run[i])
  {
    if i == 0 {
      InitialInv(run[0]);
    } else {
      Invariant(run, i - 1);
      assert StepAt(run, i - 1);
      var st :| Enabled(run[i - 1], st) && run[i] == Apply(run[i - 1], st);
      InvStep(run[i - 1], st, run[i]);
    }
  }

  // ---------------------------------------------------------------- the log as the cache sees it

  lemma {:induction false} MembersAreReplay(log: map<nat, Envelope>, n: nat, c: Id)
    ensures V.Members(log, n, c) == C.Replay(LogSeq(log, n), c)
  {
    if n > 0 {
      MembersAreReplay(log, n - 1, c);
      if n - 1 in log {
        C.AppendReplay(LogSeq(log, n - 1), log[n - 1], c);
      }
    }
  }

  /** An event by id is an event by place. */
  lemma PlaceOf(log: map<nat, Envelope>, next: nat, es: seq<Envelope>, id: nat) returns (k: nat)
    requires es == LogSeq(log, next) && id in log && id < next
    ensures k == Rank(log, id) && k < |es| && es[k] == log[id]
  {
    RankExact(log, id, next);
    k := Rank(log, id);
  }

  lemma CreatedOnce(log: map<nat, Envelope>, next: nat, es: seq<Envelope>, founders: map<Id, seq<Id>>, birth: nat,
                    id: nat)
    requires es == LogSeq(log, next) && C.LogShape(es, founders) && birth in log && birth < next && id in log
    requires id < next
    requires log[birth].body.ConversationCreated? && C.Structural(log[id].body)
    requires ConversationOf(log[id].body) == log[birth].body.created
    ensures id >= birth
  {
    var k := PlaceOf(log, next, es, birth);
    var m := PlaceOf(log, next, es, id);
    if id < birth {
      RankGrows(log, id, birth);
    }
  }

  /** What the service guarantees about its log is what the cache relies on. */
  lemma LogIsWellFormed(log: map<nat, Envelope>, next: nat, es: seq<Envelope>, founders: map<Id, seq<Id>>, c: Id)
    returns (birth: nat)
    requires es == LogSeq(log, next) && C.LogShape(es, founders) && (forall i | i in log :: i < next)
    requires c in founders && founders[c] != []
    ensures V.WellFormed(log, next, c, birth, founders[c][0])
  {
    var k :| 0 <= k < |es| && es[k].body == ConversationCreated(c, founders[c]);
    birth := IdAt(log, next, k);
    forall id | id in log && C.Structural(log[id].body) && ConversationOf(log[id].body) == c
      ensures id >= birth && (log[id].body.ConversationCreated? ==> id == birth)
      ensures log[id].body.MembershipChanged? ==> log[id].body.user != founders[c][0]
    {
      CreatedOnce(log, next, es, founders, birth, id);
      var m := PlaceOf(log, next, es, id);
      assert es[m].body == log[id].body;
      if log[id].body.ConversationCreated? {
        CreatedOnce(log, next, es, founders, id, birth);
      }
    }
  }

  // ---------------------------------------------------------------- the stream as the cache sees it

  function RecordIds(items: seq<V.Item>): seq<nat> {
    if items == [] then []
    else if items[|items| - 1].Rec? then RecordIds(items[..|items| - 1]) + [items[|items| - 1].id]
    else RecordIds(items[..|items| - 1])
  }

  /** The record before place `k` of the stream, or -1. */
  function Before(ids: seq<nat>, k: nat): int
    requires k <= |ids|
  {
    if k == 0 then -1 else ids[k - 1]
  }

  /** A lookup answers with a committed version, and the other topics carry no membership. */
  predicate Admissible(next: nat, it: V.Item) {
    && (it.Other? ==> !C.Structural(it.body))
    && (it.version.Some? ==> it.version.value <= next)
  }

  lemma {:induction false} RecordIdsPrefix(items: seq<V.Item>, q: nat)
    requires q <= |items|
    ensures RecordIds(items[..q]) <= RecordIds(items)
    decreases |items|
  {
    if q == |items| {
      assert items[..q] == items;
    } else {
      assert items[..|items| - 1][..q] == items[..q];
      RecordIdsPrefix(items[..|items| - 1], q);
    }
  }

  lemma {:induction false} PositionIsRecord(ids: seq<nat>, k: nat, items: seq<V.Item>)
    requires k <= |ids| && RecordIds(items) <= ids[k..]
    ensures k + |RecordIds(items)| <= |ids|
    ensures V.Position(Before(ids, k), items) == Before(ids, k + |RecordIds(items)|)
    decreases |items|
  {
    if items != [] {
      var rest := RecordIds(items);
      var front := RecordIds(items[..|items| - 1]);
      assert front <= rest;
      PositionIsRecord(ids, k, items[..|items| - 1]);
      if items[|items| - 1].Rec? {
        assert rest[|front|] == ids[k..][|front|];
      }
    }
  }

  /** Where the record of an item stands in the stream. */
  lemma RecordAt(ids: seq<nat>, k: nat, items: seq<V.Item>, q: nat)
    requires k <= |ids| && RecordIds(items) == ids[k..] && q < |items|
    ensures var p := k + |RecordIds(items[..q])|;
            && p <= |ids| && V.Position(Before(ids, k), items[..q]) == Before(ids, p)
            && (items[q].Rec? ==> p < |ids| && ids[p] == items[q].id)
  {
    RecordIdsPrefix(items, q);
    PositionIsRecord(ids, k, items[..q]);
    if items[q].Rec? {
      RecordIdsPrefix(items, q + 1);
      assert items[..q + 1][..q] == items[..q];
      var p := k + |RecordIds(items[..q])|;
      assert RecordIds(items[..q + 1])[p - k] == items[q].id;
    }
  }

  lemma RecordFollows(log: map<nat, Envelope>, ids: seq<nat>, p: nat, j: nat)
    requires O.Rewinding(log, ids) && p < |ids| && j in log
    ensures j <= Before(ids, p) || j >= ids[p]
  {
    assert O.NoSkip(ids, p, j);
  }

  lemma ItemFollows(log: map<nat, Envelope>, next: nat, ids: seq<nat>, p: nat, it: V.Item)
    requires O.Rewinding(log, ids) && (forall q | 0 <= q < |ids| :: ids[q] in log) && (forall i | i in log :: i < next)
    requires p <= |ids| && (it.Rec? ==> p < |ids| && ids[p] == it.id) && Admissible(next, it)
    ensures V.Follows(log, next, Before(ids, p), it)
  {
    if it.Rec? {
      forall j | j in log ensures j <= Before(ids, p) || j >= it.id {
        RecordFollows(log, ids, p, j);
      }
    }
  }

  /** A consumer that reads the relay's stream from place `k` on, with events of other topics in between. */
  lemma ItemsAreStream(log: map<nat, Envelope>, next: nat, ids: seq<nat>, k: nat, items: seq<V.Item>)
    requires O.Rewinding(log, ids) && (forall p | 0 <= p < |ids| :: ids[p] in log) && (forall i | i in log :: i < next)
    requires k <= |ids| && RecordIds(items) == ids[k..] && forall it | it in items :: Admissible(next, it)
    ensures V.IsStream(log, next, Before(ids, k), items)
  {
    forall q: nat | q < |items| ensures V.FollowsAt(log, next, Before(ids, k), items, q) {
      RecordAt(ids, k, items, q);
      ItemFollows(log, next, ids, k + |RecordIds(items[..q])|, items[q]);
    }
  }

  // ---------------------------------------------------------------- theorems

  /** A consumer of the drained relay: where it began to read, what it read, and the entry it keeps. */
  ghost predicate Reads(s: State, k: nat, items: seq<V.Item>) {
    var ids := O.Stream(s.relay.history);
    && k <= |ids| && RecordIds(items) == ids[k..]
    && forall it | it in items :: Admissible(s.relay.next, it)
  }

  lemma StreamFacts(r: O.State, k: nat, items: seq<V.Item>)
    requires O.Safe(r) && O.Drained(r) && k <= |O.Stream(r.history)|
    requires RecordIds(items) == O.Stream(r.history)[k..] && forall it | it in items :: Admissible(r.next, it)
    ensures V.IsStream(r.log, r.next, Before(O.Stream(r.history), k), items)
    ensures V.AtEnd(r.log, Before(O.Stream(r.history), k), items)
  {
    O.DrainedStream(r);
    ItemsAreStream(r.log, r.next, O.Stream(r.history), k, items);
    PositionIsRecord(O.Stream(r.history), k, items);
  }

  lemma ServiceFacts(service: C.State, log: map<nat, Envelope>, next: nat, c: Id) returns (birth: nat)
    requires C.Inv(service) && (forall i | i in log :: i < next) && LogSeq(log, next) == service.db.outbox
    requires c in service.db.convs
    ensures c in service.founders && service.founders[c] != []
    ensures V.WellFormed(log, next, c, birth, service.founders[c][0])
    ensures c in service.db.participants && V.Members(log, next, c) == service.db.participants[c].Keys
  {
    assert C.Governed(service.db.convs[c], service.founders[c], service.db.participants[c]);
    birth := LogIsWellFormed(log, next, service.db.outbox, service.founders, c);
    MembersAreReplay(log, next, c);
  }

  /** Before its creation a conversation has no members. */
  lemma {:induction false} NobodyBeforeBirth(log: map<nat, Envelope>, next: nat, c: Id, birth: nat, creator: Id, n: nat)
    requires V.WellFormed(log, next, c, birth, creator) && n <= birth
    ensures V.Members(log, n, c) == {}
  {
    if n > 0 {
      NobodyBeforeBirth(log, next, c, birth, creator, n - 1);
    }
  }

  /** Membership converges, end to end: in every run of service and relay in which nothing was dead-lettered and the
      outbox is drained, a cache entry loaded with members from a table no older than the consumer's start ends
      equal to the participants table, whatever lookups would answer. */
  lemma LoadedEntryConverges(run: seq<State>, i: nat, c: Id, k: nat, items: seq<V.Item>, version: nat)
    requires IsRun(run) && i < |run| && O.Drained(run[i].relay)
    requires c in run[i].service.db.convs && Reads(run[i], k, items)
    requires Before(O.Stream(run[i].relay.history), k) < version <= run[i].relay.next
    requires V.Members(run[i].relay.log, version, c) != {}
    ensures var r := run[i].relay;
            && V.IsStream(r.log, r.next, Before(O.Stream(r.history), k), items)
            && c in run[i].service.db.participants
            && V.Feed(r.log, r.next, c, Before(O.Stream(r.history), k), V.Members(r.log, version, c), items)
               == run[i].service.db.participants[c].Keys
  {
    Invariant(run, i);
    var r := run[i].relay;
    StreamFacts(r, k, items);
    var birth := ServiceFacts(run[i].service, r.log, r.next, c);
    var creator := run[i].service.founders[c][0];
    if version <= birth {
      NobodyBeforeBirth(r.log, r.next, c, birth, creator, version);
    }
    V.LoadedEntryConverges(r.log, r.next, c, birth, creator, Before(O.Stream(r.history), k), version, items);
  }

  /** Exactly when an entry ends equal to the table, whatever it began with and whatever lookups answer: what it was
      last replaced with agrees with the table about everybody not changed since. */
  lemma EntryConvergesIff(run: seq<State>, i: nat, c: Id, k: nat, items: seq<V.Item>, entry: set<Id>)
    requires IsRun(run) && i < |run| && O.Drained(run[i].relay)
    requires c in run[i].service.db.convs && Reads(run[i], k, items)
    ensures var r := run[i].relay;
            && V.IsStream(r.log, r.next, Before(O.Stream(r.history), k), items)
            && c in run[i].service.db.participants
            && (V.Feed(r.log, r.next, c, Before(O.Stream(r.history), k), entry, items)
                == run[i].service.db.participants[c].Keys
                <==> V.FreshBasis(r.log, r.next, c, Before(O.Stream(r.history), k), entry, items))
  {
    Invariant(run, i);
    var r := run[i].relay;
    StreamFacts(r, k, items);
    var birth := ServiceFacts(run[i].service, r.log, r.next, c);
    V.EntryConvergesIff(r.log, r.next, c, birth, run[i].service.founders[c][0], Before(O.Stream(r.history), k), entry,
                        items);
  }

  /** An entry that begins empty ends equal to the table exactly when something replaces it as a whole, and the last
      replacement was fresh. */
  lemma UnloadedEntryConvergesIff(run: seq<State>, i: nat, c: Id, k: nat, items: seq<V.Item>)
    requires IsRun(run) && i < |run| && O.Drained(run[i].relay)
    requires c in run[i].service.db.convs && Reads(run[i], k, items)
    ensures var r := run[i].relay;
            var start := Before(O.Stream(r.history), k);
            && V.IsStream(r.log, r.next, start, items)
            && c in run[i].service.db.participants
            && (V.Feed(r.log, r.next, c, start, {}, items) == run[i].service.db.participants[c].Keys <==>
                V.EverLoads(r.log, r.next, c, start, {}, items)
                && V.FreshBasis(r.log, r.next, c, start, {}, items))
  {
    Invariant(run, i);
    var r := run[i].relay;
    StreamFacts(r, k, items);
    var birth := ServiceFacts(run[i].service, r.log, r.next, c);
    V.UnloadedEntryConvergesIff(r.log, r.next, c, birth, run[i].service.founders[c][0], Before(O.Stream(r.history), k),
                                items);
  }
}
