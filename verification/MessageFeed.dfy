/** The message service with its relay: what is stored, what is in the event log, and what is on the stream. */
module MessageFeed {
  import opened Events
  import opened EventLog
  import C = Conversation
  import H = History
  import M = MessageService
  import O = Outbox

  datatype State = State(service: M.State, relay: O.State)

  /** A service step appends its event to the relay's table in the same transaction, under any new highest id. */
  datatype Step = Serve(st: M.Step, id: nat) | Relay(rst: O.Step)

  predicate Enabled(s: State, st: Step) {
    match st
    case Serve(mst, id) => M.Enabled(s.service, mst) && s.relay.next <= id
    case Relay(rst) => !rst.Insert? && O.Enabled(s.relay, rst)
  }

  function Apply(s: State, st: Step): State
    requires Enabled(s, st)
  {
    match st
    case Serve(mst, id) =>
      var t := M.Apply(s.service, mst);
      State(t, Follow(s.relay, id, s.service.db.outbox, t.db.outbox))
    case Relay(rst) => s.(relay := O.Apply(s.relay, rst))
  }

  ghost predicate Initial(s: State) {
    M.Initial(s.service) && O.Initial(s.relay)
  }

  function StoreOf(messages: map<Id, M.Row>): set<Message> {
    set id | id in messages :: messages[id].message
  }

  /** The events of the message service change no membership. */
  ghost predicate Plain(outbox: seq<Envelope>) {
    forall k | 0 <= k < |outbox| :: !C.Structural(outbox[k].body)
  }

  ghost predicate Inv(s: State) {
    && M.Inv(s.service) && O.Safe(s.relay)
    && LogSeq(s.relay.log, s.relay.next) == s.service.db.outbox && Plain(s.service.db.outbox)
  }

  // ---------------------------------------------------------------- the service's table and its log

  lemma {:induction false} RowWasSent(log: seq<Envelope>, id: Id) returns (k: nat)
    requires id in M.Replay(log)
    ensures k < |log| && log[k].body == MessageSent(M.Replay(log)[id].message)
    decreases |log|
  {
    var front, b := log[..|log| - 1], log[|log| - 1].body;
    if b.MessageSent? && b.message.id == id {
      k := |log| - 1;
    } else {
      k := RowWasSent(front, id);
    }
  }

  lemma {:induction false} SentIsCounted(log: seq<Envelope>, k: nat)
    requires k < |log| && log[k].body.MessageSent?
    ensures M.SentCount(log, log[k].body.message.id) >= 1
    decreases |log|
  {
    if k < |log| - 1 {
      SentIsCounted(log[..|log| - 1], k);
    }
  }

  lemma {:induction false} SentIsRow(log: seq<Envelope>, k: nat)
    requires k < |log| && log[k].body.MessageSent? && M.SentCount(log, log[k].body.message.id) <= 1
    ensures var m := log[k].body.message; m.id in M.Replay(log) && M.Replay(log)[m.id].message == m
    decreases |log|
  {
    var front, m := log[..|log| - 1], log[k].body.message;
    if k < |log| - 1 {
      SentIsCounted(front, k);
      SentIsRow(front, k);
    }
  }

  /** The log announces exactly the stored messages. */
  lemma LogAnnouncesStore(messages: map<Id, M.Row>, outbox: seq<Envelope>, k: nat)
    requires M.Logged(messages, outbox) && k < |outbox| && outbox[k].body.MessageSent?
    ensures outbox[k].body.message in StoreOf(messages)
  {
    SentIsRow(outbox, k);
  }

  // ---------------------------------------------------------------- service steps

  /** A service step adds at most one message, with a positive sequence number, and at most one event, a plain one. */
  ghost predicate Grows(before: M.Db, after: M.Db) {
    && AppendsOne(before.outbox, after.outbox)
    && (Plain(before.outbox) ==> Plain(after.outbox))
    && (|| StoreOf(after.messages) == StoreOf(before.messages)
        || exists m: Message :: m.sequence > 0 && StoreOf(after.messages) == StoreOf(before.messages) + {m})
  }

  lemma InsertGrows(db: M.Db, key: M.Key, m: Message, now: int)
    requires m.id !in db.messages && m.sequence > 0
    ensures Grows(db, M.Insert(db, key, m, now))
  {
    var t := M.Insert(db, key, m, now);
    forall x | x in StoreOf(db.messages) + {m} ensures x in StoreOf(t.messages) {
      if x != m {
        var id :| id in db.messages && db.messages[id].message == x;
        assert id in t.messages && t.messages[id].message == x;
      } else {
        assert t.messages[m.id].message == x;
      }
    }
    assert StoreOf(t.messages) == StoreOf(db.messages) + {m};
  }

  lemma DeleteGrows(db: M.Db, conv: Id, id: Id, now: int)
    requires id in db.messages
    ensures Grows(db, M.MarkDeleted(db, conv, id, now))
  {
    var t := M.MarkDeleted(db, conv, id, now);
    forall m | m in StoreOf(db.messages) ensures m in StoreOf(t.messages) {
      var x :| x in db.messages && db.messages[x].message == m;
      assert x in t.messages && t.messages[x].message == m;
    }
    assert StoreOf(t.messages) == StoreOf(db.messages);
  }

  lemma SendGrows(s: M.State, cmd: M.SendCommand, env: M.Env)
    requires M.Inv(s)
    ensures Grows(s.db, M.SendAttempt(s.db, cmd, env).0)
  {
    M.SendCases(s.db, s.origin, cmd, env);
    if M.SendAttempt(s.db, cmd, env).0 != s.db {
      InsertGrows(s.db, cmd.key, M.Written(cmd, env), env.eventAt);
    }
  }

  lemma ServiceGrows(s: M.State, st: M.Step)
    requires M.Inv(s) && M.Enabled(s, st)
    ensures Grows(s.db, M.Apply(s, st).db)
  {
    match st
    case Send(cmd, env, _) => SendGrows(s, cmd, env);
    case SendWithout(cmd, env) => SendGrows(s, cmd, env);
    case Delete(cmd, env) =>
      M.DeleteCases(s.db, cmd, env);
      if M.Apply(s, st).db != s.db {
        DeleteGrows(s.db, cmd.conv, cmd.messageId, env.eventAt);
      }
    case _ =>
  }

  lemma SequencesAreUnique(s: M.State)
    requires M.Inv(s)
    ensures H.UniqueSequences(StoreOf(s.db.messages))
  {
  }

  lemma InvStep(s: State, st: Step, t: State)
    requires Inv(s) && Enabled(s, st) && t == Apply(s, st)
    ensures Inv(t)
  {
    if st.Serve? {
      M.InvStep(s.service, st.st);
      ServiceGrows(s.service, st.st);
      FollowKeepsLog(s.relay, st.id, s.service.db.outbox, t.service.db.outbox);
    } else {
      RelayStep(s.relay, st.rst);
    }
  }

  lemma InitialInv(s: State)
    requires Initial(s)
    ensures Inv(s)
  {
    M.InitialInv(s.service);
    EmptyLog(s.relay.next);
  }

  // ---------------------------------------------------------------- the stream

  /** Every record of the stream is a plain event of the log, and a message on it is stored. */
  ghost predicate Stocked(log: map<nat, Envelope>, ids: seq<nat>, store: set<Message>) {
    forall p | 0 <= p < |ids| ::
      && ids[p] in log && !C.Structural(log[ids[p]].body)
      && (log[ids[p]].body.MessageSent? ==> log[ids[p]].body.message in store)
  }

  lemma StreamIsStocked(s: State)
    requires Inv(s)
    ensures Stocked(s.relay.log, O.Stream(s.relay.history), StoreOf(s.service.db.messages))
  {
    forall p | 0 <= p < |O.Stream(s.relay.history)|
      ensures var id := O.Stream(s.relay.history)[p];
              && id in s.relay.log && !C.Structural(s.relay.log[id].body)
              && (s.relay.log[id].body.MessageSent? ==>
                    s.relay.log[id].body.message in StoreOf(s.service.db.messages))
    {
      O.StreamInLog(s.relay.log, s.relay.history, p);
      var id := O.Stream(s.relay.history)[p];
      RankExact(s.relay.log, id, s.relay.next);
      if s.relay.log[id].body.MessageSent? {
        LogAnnouncesStore(s.service.db.messages, s.service.db.outbox, Rank(s.relay.log, id));
      }
    }
  }

  /** In a drained relay every stored message is on the stream. */
  lemma StoredIsOnStream(s: State, id: Id) returns (p: nat)
    requires Inv(s) && O.Drained(s.relay) && id in s.service.db.messages
    ensures p < |O.Stream(s.relay.history)|
    ensures var rec := O.Stream(s.relay.history)[p];
            rec in s.relay.log && s.relay.log[rec].body == MessageSent(s.service.db.messages[id].message)
  {
    var k := RowWasSent(s.service.db.outbox, id);
    var rec := IdAt(s.relay.log, s.relay.next, k);
    O.DrainedStream(s.relay);
    p :| 0 <= p < |O.Stream(s.relay.history)| && O.Stream(s.relay.history)[p] == rec;
  }

  lemma StepContinues(s: State, st: Step, t: State)
    requires O.Safe(s.relay) && Enabled(s, st) && t == Apply(s, st)
    ensures Continues(s.relay, t.relay)
  {
    if st.Relay? {
      RelayContinues(s.relay, st.rst);
    }
  }
}
