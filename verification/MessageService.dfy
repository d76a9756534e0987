/** Sending and deleting messages. A command runs in a serializable transaction that is retried; the sequence
    number comes from the conversation service during the transaction and is not given back when it aborts. */
module MessageService {
  import opened Events

  const MAX_TX_RETRIES: nat := 5
  const MAX_MESSAGE_SIZE: nat := 5000

  /** The primary key of the idempotency table. */
  datatype Key = Key(clientMsgId: Id, user: Id, conv: Id)

  datatype Row = Row(message: Message, deleted: bool)

  datatype Db = Db(idempotency: map<Key, Option<Message>>, messages: map<Id, Row>, outbox: seq<Envelope>)

  datatype SendCommand = SendCommand(key: Key, kind: string, content: string, metadata: string)

  datatype DeleteCommand = DeleteCommand(conv: Id, messageId: Id, requester: Id)

  datatype Error =
    | Fault | Rpc | NotParticipant | InvalidMessage | InvalidSequence | TooLarge | Constraint | NotFound | InvalidInput

  /** What a commit may come to: applied, applied although the reply is lost, or not applied. */
  datatype Fate = Applied | ReplyLost | SerializationFailure | Rejected

  /** What the outside contributes to one attempt. `fault` is a failing statement, `retryable` whether the error
      text of a failure reads as a serialization error. */
  datatype Env = Env(
    begins: bool,
    fault: bool,
    retryable: bool,
    participants: Option<seq<Id>>,
    sequence: Option<int>,
    isAdmin: Option<bool>,
    uuid: Id,
    now: int,       // the time put into the message, and the later one of its event
    eventAt: int,
    fate: Fate)

  datatype Result<+T> = Ok(value: T) | Err(error: Error)

  // ---------------------------------------------------------------- transactions on the tables

  function NewMessage(id: Id, cmd: SendCommand, sequence: int, now: int): Result<Message> {
    if id == "" || cmd.key.conv == "" || cmd.key.user == "" then Err(InvalidMessage)
    else if sequence <= 0 then Err(InvalidSequence)
    else if |cmd.content| > MAX_MESSAGE_SIZE then Err(TooLarge)
    else Ok(Message(id, cmd.key.conv, cmd.key.user, sequence, cmd.kind, cmd.content, cmd.metadata, now))
  }

  predicate SequenceTaken(messages: map<Id, Row>, conv: Id, sequence: int) {
    exists id | id in messages :: messages[id].message.conv == conv && messages[id].message.sequence == sequence
  }

  /** The message, outbox and idempotency rows of one send, written together. */
  function Insert(db: Db, key: Key, m: Message, now: int): Db {
    Db(db.idempotency[key := Some(m)],
       db.messages[m.id := Row(m, false)],
       db.outbox + [Envelope(MessageSent(m), now)])
  }

  function SendBody(db: Db, cmd: SendCommand, env: Env): Result<(Db, Message)> {
    if env.fault then Err(Fault)
    else if cmd.key in db.idempotency && db.idempotency[cmd.key].Some? then Ok((db, db.idempotency[cmd.key].value))
    else if env.participants.None? || env.sequence.None? then Err(Rpc)
    else if cmd.key.user !in env.participants.value then Err(NotParticipant)
    else
      match NewMessage(env.uuid, cmd, env.sequence.value, env.now)
      case Err(e) => Err(e)
      case Ok(m) =>
        if m.id in db.messages || SequenceTaken(db.messages, m.conv, m.sequence) then Err(Constraint)
        else Ok((Insert(db, cmd.key, m, env.eventAt), m))
  }

  function MarkDeleted(db: Db, conv: Id, id: Id, now: int): Db
    requires id in db.messages
  {
    db.(messages := db.messages[id := db.messages[id].(deleted := true)],
        outbox := db.outbox + [Envelope(MessageDeleted(conv, id), now)])
  }

  function DeleteBody(db: Db, cmd: DeleteCommand, env: Env): Result<Db> {
    if env.fault then Err(Fault)
    else if cmd.messageId !in db.messages then Err(NotFound)
    else
      var row := db.messages[cmd.messageId];
      if row.message.conv != cmd.conv then Err(InvalidInput)
      else if row.message.sender != cmd.requester && env.isAdmin.None? then Err(Rpc)
      else if row.message.sender != cmd.requester && !env.isAdmin.value then Err(NotParticipant)
      else if row.deleted then Ok(db)
      else Ok(MarkDeleted(db, cmd.conv, cmd.messageId, env.eventAt))
  }

  // ---------------------------------------------------------------- one attempt, and the retry loop

  datatype Attempt<+T> = Done(value: T) | Retry | Failed

  /** The transaction manager around a transaction body: roll back on an error, then commit. */
  function Settle<T>(db: Db, after: Result<(Db, T)>, env: Env): (Db, Attempt<T>) {
    if !env.begins then (db, Failed)
    else
      match after
      case Err(_) => (db, if env.retryable then Retry else Failed)
      case Ok((db', v)) =>
        match env.fate
        case Applied => (db', Done(v))
        case ReplyLost => (db', Failed)
        case SerializationFailure => (db, Retry)
        case Rejected => (db, Failed)
  }

  function SendAttempt(db: Db, cmd: SendCommand, env: Env): (Db, Attempt<Message>) {
    Settle(db, SendBody(db, cmd, env), env)
  }

  function DeleteAttempt(db: Db, cmd: DeleteCommand, env: Env): (Db, Attempt<bool>) {
    Settle(db, match DeleteBody(db, cmd, env) case Ok(t) => Ok((t, true)) case Err(e) => Err(e), env)
  }

  /** Attempts `i` and later of one call, with nobody else at the tables. */
  function SendLoop(db: Db, cmd: SendCommand, env: nat -> Env, i: nat): (Db, Option<Message>)
    requires i <= MAX_TX_RETRIES
    decreases MAX_TX_RETRIES - i
  {
    if i == MAX_TX_RETRIES then (db, None)
    else
      match SendAttempt(db, cmd, env(i))
      case (db', Done(m)) => (db', Some(m))
      case (db', Failed) => (db', None)
      case (db', Retry) => SendLoop(db', cmd, env, i + 1)
  }

  // ---------------------------------------------------------------- the machine

  /** A number taken from a conversation's counter. */
  datatype Ticket = Ticket(conv: Id, sequence: int)

  datatype State = State(
    db: Db,
    counter: map<Id, nat>,         // next_sequence of the conversation service
    inflight: map<nat, Ticket>,    // numbers held by running attempts
    // history variables
    burned: set<Ticket>,           // numbers lost by attempts that did not use them
    origin: map<Id, Key>,          // the request that a message came from
    replies: set<(Key, Message)>)  // successful answers given to callers

  datatype Step =
    | CreateCounter(conv: Id)
    | TakeSequence(slot: nat, conv: Id)
    | LoseSequence(slot: nat)
    | Send(cmd: SendCommand, env: Env, slot: nat)
    | SendWithout(cmd: SendCommand, env: Env)
    | Delete(dcmd: DeleteCommand, env: Env)

  ghost predicate Initial(s: State) {
    && s.db == Db(map[], map[], []) && s.counter == map[] && s.inflight == map[]
    && s.burned == {} && s.origin == map[] && s.replies == {}
  }

  predicate Enabled(s: State, st: Step) {
    match st
    case CreateCounter(c) => c !in s.counter
    case TakeSequence(slot, c) => c in s.counter && slot !in s.inflight
    case LoseSequence(slot) => slot in s.inflight
    case Send(cmd, env, slot) =>
      slot in s.inflight && s.inflight[slot].conv == cmd.key.conv && env.sequence == Some(s.inflight[slot].sequence)
    case SendWithout(_, env) => env.sequence.None?
    case Delete(_, _) => true
  }

  predicate Inserted(db: Db, db': Db) {
    db'.messages.Keys != db.messages.Keys
  }

  function Replied(s: State, key: Key, r: Attempt<Message>): set<(Key, Message)> {
    if r.Done? then s.replies + {(key, r.value)} else s.replies
  }

  function Apply(s: State, st: Step): State
    requires Enabled(s, st)
  {
    match st
    case CreateCounter(c) => s.(counter := s.counter[c := 0])
    case TakeSequence(slot, c) =>
      s.(counter := s.counter[c := s.counter[c] + 1],
         inflight := s.inflight[slot := Ticket(c, s.counter[c] + 1)])
    case LoseSequence(slot) =>
      s.(inflight := s.inflight - {slot}, burned := s.burned + {s.inflight[slot]})
    case Send(cmd, env, slot) =>
      var (db', r) := SendAttempt(s.db, cmd, env);
      var t := s.(db := db', inflight := s.inflight - {slot}, replies := Replied(s, cmd.key, r));
      if Inserted(s.db, db') then t.(origin := s.origin[env.uuid := cmd.key])
      else t.(burned := s.burned + {s.inflight[slot]})
    case SendWithout(cmd, env) =>
      var (db', r) := SendAttempt(s.db, cmd, env);
      s.(db := db', replies := Replied(s, cmd.key, r))
    case Delete(cmd, env) => s.(db := DeleteAttempt(s.db, cmd, env).0)
  }

  ghost predicate Next(s: State, t: State) {
    exists st: Step :: Enabled(s, st) && t == Apply(s, st)
  }

  ghost predicate StepAt(run: seq<State>, i: nat)
    requires i + 1 < |run|
  {
    Next(run[i], run[i + 1])
  }

  ghost predicate IsRun(run: seq<State>) {
    && |run| > 0 && Initial(run[0])
    && forall i: nat {:trigger StepAt(run, i)} | i + 1 < |run| :: StepAt(run, i)
  }

  // ---------------------------------------------------------------- invariant

  /** Every idempotency row has a payload: the stored message that its request wrote. */
  ghost predicate RowsAnswer(idempotency: map<Key, Option<Message>>, messages: map<Id, Row>, origin: map<Id, Key>) {
    forall k | k in idempotency ::
      && idempotency[k].Some?
      && idempotency[k].value.id in messages && messages[idempotency[k].value.id].message == idempotency[k].value
      && idempotency[k].value.id in origin && origin[idempotency[k].value.id] == k
  }

  /** Every message came from a request whose idempotency row names it. */
  ghost predicate MessagesAnswer(idempotency: map<Key, Option<Message>>, messages: map<Id, Row>, origin: map<Id, Key>) {
    && origin.Keys == messages.Keys
    && (forall id | id in messages ::
          && messages[id].message.id == id
          && origin[id] in idempotency && idempotency[origin[id]].Some? && idempotency[origin[id]].value.id == id
          && origin[id].conv == messages[id].message.conv && origin[id].user == messages[id].message.sender)
  }

  /** Idempotency rows and messages correspond one to one; no committed row is without a payload. */
  ghost predicate Keyed(idempotency: map<Key, Option<Message>>, messages: map<Id, Row>, origin: map<Id, Key>) {
    RowsAnswer(idempotency, messages, origin) && MessagesAnswer(idempotency, messages, origin)
  }

  ghost predicate Answered(idempotency: map<Key, Option<Message>>, replies: set<(Key, Message)>) {
    forall r | r in replies :: r.0 in idempotency && idempotency[r.0] == Some(r.1)
  }

  function Replay(log: seq<Envelope>): map<Id, Row> {
    if log == [] then map[]
    else
      var table := Replay(log[..|log| - 1]);
      match log[|log| - 1].body
      case MessageSent(m) => table[m.id := Row(m, false)]
      case MessageDeleted(_, id) => if id in table then table[id := table[id].(deleted := true)] else table
      case _ => table
  }

  function SentCount(log: seq<Envelope>, id: Id): nat {
    if log == [] then 0
    else
      SentCount(log[..|log| - 1], id) +
      (if log[|log| - 1].body.MessageSent? && log[|log| - 1].body.message.id == id then 1 else 0)
  }

  function DeletedCount(log: seq<Envelope>, id: Id): nat {
    if log == [] then 0
    else
      DeletedCount(log[..|log| - 1], id) +
      (if log[|log| - 1].body.MessageDeleted? && log[|log| - 1].body.messageId == id then 1 else 0)
  }

  /** The log rebuilds the table and names every row once, and every deletion once. */
  ghost predicate Logged(messages: map<Id, Row>, outbox: seq<Envelope>) {
    && Replay(outbox) == messages
    && (forall id: Id :: SentCount(outbox, id) == if id in messages then 1 else 0)
    && (forall id: Id :: DeletedCount(outbox, id) == if id in messages && messages[id].deleted then 1 else 0)
  }

  function TicketOf(m: Message): Ticket {
    Ticket(m.conv, m.sequence)
  }

  ghost predicate Used(messages: map<Id, Row>, t: Ticket) {
    exists id :: id in messages && TicketOf(messages[id].message) == t
  }

  ghost predicate Held(inflight: map<nat, Ticket>, t: Ticket) {
    exists slot :: slot in inflight && inflight[slot] == t
  }

  predicate Drawn(counter: map<Id, nat>, t: Ticket) {
    t.conv in counter && 1 <= t.sequence <= counter[t.conv]
  }

  /** The numbers drawn from the counters are split between messages, running attempts and losses. */
  ghost predicate Accounted(counter: map<Id, nat>, messages: map<Id, Row>, inflight: map<nat, Ticket>,
                            burned: set<Ticket>) {
    && (forall t: Ticket :: Drawn(counter, t) <==> Used(messages, t) || Held(inflight, t) || t in burned)
    && (forall t: Ticket :: !(Used(messages, t) && Held(inflight, t)))
    && (forall t | t in burned :: !Used(messages, t) && !Held(inflight, t))
    && (forall a, b | a in inflight && b in inflight && inflight[a] == inflight[b] :: a == b)
    && (forall a, b | a in messages && b in messages &&
        TicketOf(messages[a].message) == TicketOf(messages[b].message) :: a == b)
  }

  ghost predicate Inv(s: State) {
    && Keyed(s.db.idempotency, s.db.messages, s.origin)
    && Answered(s.db.idempotency, s.replies)
    && Logged(s.db.messages, s.db.outbox)
    && Accounted(s.counter, s.db.messages, s.inflight, s.burned)
  }

  // ---------------------------------------------------------------- steps

  lemma InsertRows(db: Db, origin: map<Id, Key>, key: Key, m: Message, now: int, t: Db)
    requires RowsAnswer(db.idempotency, db.messages, origin) && t == Insert(db, key, m, now)
    requires m.id !in db.messages
    ensures RowsAnswer(t.idempotency, t.messages, origin[m.id := key])
  {
  }

  lemma InsertMessages(db: Db, origin: map<Id, Key>, key: Key, m: Message, now: int, t: Db)
    requires MessagesAnswer(db.idempotency, db.messages, origin) && t == Insert(db, key, m, now)
    requires key !in db.idempotency && m.id !in db.messages && m.conv == key.conv && m.sender == key.user
    ensures MessagesAnswer(t.idempotency, t.messages, origin[m.id := key])
  {
  }

  lemma InsertKeyed(db: Db, origin: map<Id, Key>, key: Key, m: Message, now: int, t: Db)
    requires Keyed(db.idempotency, db.messages, origin) && t == Insert(db, key, m, now)
    requires key !in db.idempotency && m.id !in db.messages && m.conv == key.conv && m.sender == key.user
    ensures Keyed(t.idempotency, t.messages, origin[m.id := key])
  {
    InsertRows(db, origin, key, m, now, t);
    InsertMessages(db, origin, key, m, now, t);
  }

  lemma InsertLogged(db: Db, key: Key, m: Message, now: int, t: Db)
    requires Logged(db.messages, db.outbox) && m.id !in db.messages && t == Insert(db, key, m, now)
    ensures Logged(t.messages, t.outbox)
  {
  }

  lemma DeleteLogged(db: Db, conv: Id, id: Id, now: int, t: Db)
    requires Logged(db.messages, db.outbox) && id in db.messages && !db.messages[id].deleted
    requires t == MarkDeleted(db, conv, id, now)
    ensures Logged(t.messages, t.outbox)
  {
  }

  lemma DeleteKeyed(db: Db, origin: map<Id, Key>, conv: Id, id: Id, now: int, t: Db)
    requires Keyed(db.idempotency, db.messages, origin) && id in db.messages && t == MarkDeleted(db, conv, id, now)
    ensures Keyed(t.idempotency, t.messages, origin)
  {
  }

  lemma DeleteAccounted(s: State, conv: Id, id: Id, now: int, t: Db)
    requires Accounted(s.counter, s.db.messages, s.inflight, s.burned) && id in s.db.messages
    requires t == MarkDeleted(s.db, conv, id, now)
    ensures Accounted(s.counter, t.messages, s.inflight, s.burned)
  {
    forall k: Ticket ensures Used(t.messages, k) <==> Used(s.db.messages, k) {
      if Used(s.db.messages, k) {
        var x :| x in s.db.messages && TicketOf(s.db.messages[x].message) == k;
        assert x in t.messages && TicketOf(t.messages[x].message) == k;
      }
    }
  }

  lemma TakeAccounted(s: State, slot: nat, c: Id)
    requires Accounted(s.counter, s.db.messages, s.inflight, s.burned) && c in s.counter && slot !in s.inflight
    ensures var n := s.counter[c] + 1;
            Accounted(s.counter[c := n], s.db.messages, s.inflight[slot := Ticket(c, n)], s.burned)
  {
    var n := s.counter[c] + 1;
    var counter, inflight := s.counter[c := n], s.inflight[slot := Ticket(c, n)];
    assert !Drawn(s.counter, Ticket(c, n));
    assert !Used(s.db.messages, Ticket(c, n)) && !Held(s.inflight, Ticket(c, n)) && Ticket(c, n) !in s.burned;
    forall t: Ticket
      ensures Drawn(counter, t) <==> Drawn(s.counter, t) || t == Ticket(c, n)
      ensures Held(inflight, t) <==> Held(s.inflight, t) || t == Ticket(c, n)
    {
      if Held(s.inflight, t) {
        var x :| x in s.inflight && s.inflight[x] == t;
        assert x in inflight && inflight[x] == t;
      }
      assert slot in inflight && inflight[slot] == Ticket(c, n);
    }
    forall a, b | a in inflight && b in inflight && inflight[a] == inflight[b] ensures a == b {
      assert a != slot ==> Held(s.inflight, inflight[a]);
      assert b != slot ==> Held(s.inflight, inflight[b]);
    }
  }

  lemma ReleaseHeld(inflight: map<nat, Ticket>, slot: nat, t: Ticket)
    requires slot in inflight
    requires forall a, b | a in inflight && b in inflight && inflight[a] == inflight[b] :: a == b
    ensures Held(inflight - {slot}, t) <==> Held(inflight, t) && t != inflight[slot]
  {
    if Held(inflight, t) && t != inflight[slot] {
      var x :| x in inflight && inflight[x] == t;
      assert x in inflight - {slot} && (inflight - {slot})[x] == t;
    }
  }

  lemma LoseAccounted(s: State, slot: nat)
    requires Accounted(s.counter, s.db.messages, s.inflight, s.burned) && slot in s.inflight
    ensures Accounted(s.counter, s.db.messages, s.inflight - {slot}, s.burned + {s.inflight[slot]})
  {
    assert Held(s.inflight, s.inflight[slot]);
    forall t: Ticket ensures Held(s.inflight - {slot}, t) <==> Held(s.inflight, t) && t != s.inflight[slot] {
      ReleaseHeld(s.inflight, slot, t);
    }
  }

  lemma UseAccounted(s: State, slot: nat, m: Message)
    requires Accounted(s.counter, s.db.messages, s.inflight, s.burned) && slot in s.inflight
    requires m.id !in s.db.messages && TicketOf(m) == s.inflight[slot]
    ensures Accounted(s.counter, s.db.messages[m.id := Row(m, false)], s.inflight - {slot}, s.burned)
  {
    var messages := s.db.messages[m.id := Row(m, false)];
    assert Held(s.inflight, TicketOf(m));
    forall t: Ticket
      ensures Held(s.inflight - {slot}, t) <==> Held(s.inflight, t) && t != TicketOf(m)
      ensures Used(messages, t) <==> Used(s.db.messages, t) || t == TicketOf(m)
    {
      ReleaseHeld(s.inflight, slot, t);
      if Used(s.db.messages, t) {
        var x :| x in s.db.messages && TicketOf(s.db.messages[x].message) == t;
        assert x in messages && TicketOf(messages[x].message) == t;
      }
      assert m.id in messages && TicketOf(messages[m.id].message) == TicketOf(m);
    }
    forall a, b | a in messages && b in messages && TicketOf(messages[a].message) == TicketOf(messages[b].message)
      ensures a == b
    {
      assert a != m.id ==> Used(s.db.messages, TicketOf(messages[a].message));
      assert b != m.id ==> Used(s.db.messages, TicketOf(messages[b].message));
    }
  }

  /** The two ways an attempt can end: the tables as they were, or one message inserted for a key without one. */
  lemma SendCases(db: Db, origin: map<Id, Key>, cmd: SendCommand, env: Env)
    requires Keyed(db.idempotency, db.messages, origin)
    ensures var (db', r) := SendAttempt(db, cmd, env);
            && (db' == db ==>
                  !Inserted(db, db') &&
                  (r.Done? ==> cmd.key in db.idempotency && db.idempotency[cmd.key] == Some(r.value)))
            && (db' != db ==>
                  && Inserted(db, db')
                  && cmd.key !in db.idempotency && env.sequence.Some?
                  && var m := Written(cmd, env);
                     && m.id !in db.messages && m.sequence > 0
                     && db' == Insert(db, cmd.key, m, env.eventAt)
                     && (r.Done? ==> r.value == m))
  {
    var (db', r) := SendAttempt(db, cmd, env);
    if db' != db {
      assert env.uuid in db'.messages.Keys && env.uuid !in db.messages.Keys;
    }
  }

  /** The message that a send writes. */
  function Written(cmd: SendCommand, env: Env): Message
    requires env.sequence.Some?
  {
    Message(env.uuid, cmd.key.conv, cmd.key.user, env.sequence.value, cmd.kind, cmd.content, cmd.metadata, env.now)
  }

  lemma InsertAnswered(s: State, key: Key, m: Message, t: State)
    requires Answered(s.db.idempotency, s.replies) && key !in s.db.idempotency
    requires t.db.idempotency == s.db.idempotency[key := Some(m)]
    requires t.replies == s.replies || t.replies == s.replies + {(key, m)}
    ensures Answered(t.db.idempotency, t.replies)
  {
  }

  lemma InsertStep(s: State, cmd: SendCommand, env: Env, slot: nat, t: State)
    requires Inv(s) && slot in s.inflight && cmd.key !in s.db.idempotency && env.uuid !in s.db.messages
    requires env.sequence == Some(s.inflight[slot].sequence) && s.inflight[slot].conv == cmd.key.conv
    requires t.db == Insert(s.db, cmd.key, Written(cmd, env), env.eventAt)
    requires t.counter == s.counter && t.inflight == s.inflight - {slot} && t.burned == s.burned
    requires t.origin == s.origin[env.uuid := cmd.key]
    requires t.replies == s.replies || t.replies == s.replies + {(cmd.key, Written(cmd, env))}
    ensures Inv(t)
  {
    var m := Written(cmd, env);
    InsertKeyed(s.db, s.origin, cmd.key, m, env.eventAt, t.db);
    InsertLogged(s.db, cmd.key, m, env.eventAt, t.db);
    UseAccounted(s, slot, m);
    InsertAnswered(s, cmd.key, m, t);
  }

  lemma SendStep(s: State, cmd: SendCommand, env: Env, slot: nat)
    requires Inv(s) && Enabled(s, Send(cmd, env, slot))
    ensures Inv(Apply(s, Send(cmd, env, slot)))
  {
    SendCases(s.db, s.origin, cmd, env);
    if SendAttempt(s.db, cmd, env).0 != s.db {
      InsertStep(s, cmd, env, slot, Apply(s, Send(cmd, env, slot)));
    } else {
      LoseAccounted(s, slot);
    }
  }

  lemma SendWithoutStep(s: State, cmd: SendCommand, env: Env)
    requires Inv(s) && Enabled(s, SendWithout(cmd, env))
    ensures Inv(Apply(s, SendWithout(cmd, env)))
  {
    SendCases(s.db, s.origin, cmd, env);
  }

  lemma DeleteCases(db: Db, cmd: DeleteCommand, env: Env)
    ensures var t := DeleteAttempt(db, cmd, env).0;
            || t == db
            || (&& cmd.messageId in db.messages && !db.messages[cmd.messageId].deleted
                && db.messages[cmd.messageId].message.conv == cmd.conv
                && (db.messages[cmd.messageId].message.sender == cmd.requester || env.isAdmin == Some(true))
                && t == MarkDeleted(db, cmd.conv, cmd.messageId, env.eventAt))
  {
  }

  lemma DeleteStep(s: State, cmd: DeleteCommand, env: Env, t: State)
    requires Inv(s) && t == Apply(s, Delete(cmd, env))
    ensures Inv(t)
  {
    DeleteCases(s.db, cmd, env);
    if t.db != s.db {
      DeleteKeyed(s.db, s.origin, cmd.conv, cmd.messageId, env.eventAt, t.db);
      DeleteLogged(s.db, cmd.conv, cmd.messageId, env.eventAt, t.db);
      DeleteAccounted(s, cmd.conv, cmd.messageId, env.eventAt, t.db);
    }
  }

  lemma CreateStep(s: State, c: Id)
    requires Inv(s) && Enabled(s, CreateCounter(c))
    ensures Inv(Apply(s, CreateCounter(c)))
  {
    assert forall t: Ticket :: Drawn(s.counter[c := 0], t) <==> Drawn(s.counter, t);
  }

  lemma InvStep(s: State, st: Step)
    requires Inv(s) && Enabled(s, st)
    ensures Inv(Apply(s, st))
  {
    match st {
      case CreateCounter(c) => CreateStep(s, c);
      case TakeSequence(slot, c) => TakeAccounted(s, slot, c);
      case LoseSequence(slot) => LoseAccounted(s, slot);
      case Send(cmd, env, slot) => SendStep(s, cmd, env, slot);
      case SendWithout(cmd, env) => SendWithoutStep(s, cmd, env);
      case Delete(cmd, env) => DeleteStep(s, cmd, env, Apply(s, st));
    }
  }

  lemma InitialInv(s: State)
    requires Initial(s)
    ensures Inv(s)
  {
  }

  lemma {:induction false} Invariant(run: seq<State>, i: nat)
    requires IsRun(run) && i < |run|
    ensures Inv(run[i])
  {
    if i == 0 {
      InitialInv(run[0]);
    } else {
      Invariant(run, i - 1);
      assert StepAt(run, i - 1);
      var st :| Enabled(run[i - 1], st) && run[i] == Apply(run[i - 1], st);
      InvStep(run[i - 1], st);
    }
  }

  // ---------------------------------------------------------------- theorems

  /** Exactly-once send, at every moment of every run: a request has at most one message and that message one
      MESSAGE_SENT event; no committed idempotency row is empty; and all successful answers to a request are the
      message it wrote. */
  lemma ExactlyOnceSend(run: seq<State>, i: nat)
    requires IsRun(run) && i < |run|
    ensures var s := run[i];
            && s.origin.Keys == s.db.messages.Keys
            && (forall a, b | a in s.origin && b in s.origin && s.origin[a] == s.origin[b] :: a == b)
            && (forall id | id in s.db.messages :: SentCount(s.db.outbox, id) == 1)
            && (forall k | k in s.db.idempotency :: s.db.idempotency[k].Some?)
            && (forall r | r in s.replies ::
                  r.1.id in s.db.messages && s.db.messages[r.1.id].message == r.1 && s.origin[r.1.id] == r.0)
            && (forall q, r | q in s.replies && r in s.replies && q.0 == r.0 :: q.1 == r.1)
  {
    Invariant(run, i);
  }

  /** Nothing committed is taken back: answers and rows persist, and a row changes only from present to deleted. */
  ghost predicate Extends(s: State, t: State) {
    && s.replies <= t.replies
    && s.db.outbox <= t.db.outbox
    && (forall k | k in s.db.idempotency :: k in t.db.idempotency && t.db.idempotency[k] == s.db.idempotency[k])
    && (forall id | id in s.db.messages ::
          && id in t.db.messages
          && t.db.messages[id].message == s.db.messages[id].message
          && (s.db.messages[id].deleted ==> t.db.messages[id].deleted))
  }

  lemma SendExtends(s: State, cmd: SendCommand, env: Env, t: State)
    requires Keyed(s.db.idempotency, s.db.messages, s.origin)
    requires t.db == SendAttempt(s.db, cmd, env).0 && s.replies <= t.replies
    ensures Extends(s, t)
  {
    SendCases(s.db, s.origin, cmd, env);
  }

  lemma DeleteExtends(s: State, cmd: DeleteCommand, env: Env, t: State)
    requires t == s.(db := DeleteAttempt(s.db, cmd, env).0)
    ensures Extends(s, t)
  {
    DeleteCases(s.db, cmd, env);
  }

  lemma StepExtends(s: State, st: Step, t: State)
    requires Keyed(s.db.idempotency, s.db.messages, s.origin) && Enabled(s, st) && t == Apply(s, st)
    ensures Extends(s, t)
  {
    match st {
      case Send(cmd, env, _) => SendExtends(s, cmd, env, t);
      case SendWithout(cmd, env) => SendExtends(s, cmd, env, t);
      case Delete(cmd, env) => DeleteExtends(s, cmd, env, t);
      case _ =>
    }
  }

  lemma ExtendsOn(r: State, s: State, t: State)
    requires Extends(r, s) && Extends(s, t)
    ensures Extends(r, t)
  {
  }

  lemma NextExtends(s: State, t: State)
    requires Keyed(s.db.idempotency, s.db.messages, s.origin) && Next(s, t)
    ensures Extends(s, t)
  {
    var st :| Enabled(s, st) && t == Apply(s, st);
    StepExtends(s, st, t);
  }

  lemma {:induction false} NothingTakenBack(run: seq<State>, i: nat, j: nat)
    requires IsRun(run) && i <= j < |run|
    ensures Extends(run[i], run[j])
    decreases j - i
  {
    if i < j {
      NothingTakenBack(run, i, j - 1);
      Invariant(run, j - 1);
      assert StepAt(run, j - 1);
      NextExtends(run[j - 1], run[j]);
      ExtendsOn(run[i], run[j - 1], run[j]);
    }
  }

  /** The event log rebuilds the messages table, and names every row once and every deletion once. */
  lemma LogReplaysToTable(run: seq<State>, i: nat)
    requires IsRun(run) && i < |run|
    ensures Replay(run[i].db.outbox) == run[i].db.messages
    ensures forall id | id in run[i].db.messages ::
              && SentCount(run[i].db.outbox, id) == 1
              && DeletedCount(run[i].db.outbox, id) == if run[i].db.messages[id].deleted then 1 else 0
  {
    Invariant(run, i);
  }

  /** Every number drawn from a counter is in exactly one place, and no two messages share one. */
  lemma SequenceAccounting(run: seq<State>, i: nat, t: Ticket)
    requires IsRun(run) && i < |run|
    ensures var s := run[i];
            && (Drawn(s.counter, t) <==> Used(s.db.messages, t) || Held(s.inflight, t) || t in s.burned)
            && !(Used(s.db.messages, t) && Held(s.inflight, t))
            && !(Used(s.db.messages, t) && t in s.burned)
            && !(Held(s.inflight, t) && t in s.burned)
            && (forall a, b | a in s.db.messages && b in s.db.messages
                              && TicketOf(s.db.messages[a].message) == t == TicketOf(s.db.messages[b].message) ::
                                  a == b)
  {
    Invariant(run, i);
  }

  // ---------------------------------------------------------------- gaps, told by the steps of a run

  ghost predicate TraceAt(run: seq<State>, steps: seq<Step>, i: nat)
    requires i < |steps| && i + 1 < |run|
  {
    Enabled(run[i], steps[i]) && run[i + 1] == Apply(run[i], steps[i])
  }

  ghost predicate IsTrace(run: seq<State>, steps: seq<Step>) {
    && |run| == |steps| + 1 && Initial(run[0])
    && forall i: nat {:trigger TraceAt(run, steps, i)} | i < |steps| :: TraceAt(run, steps, i)
  }

  lemma {:induction false} TraceInv(run: seq<State>, steps: seq<Step>, i: nat)
    requires IsTrace(run, steps) && i < |run|
    ensures Inv(run[i])
  {
    if i == 0 {
      InitialInv(run[0]);
    } else {
      TraceInv(run, steps, i - 1);
      assert TraceAt(run, steps, i - 1);
      InvStep(run[i - 1], steps[i - 1]);
    }
  }

  /** The step ends the attempt that holds a number in the slot. */
  predicate Ends(st: Step, slot: nat) {
    (st.LoseSequence? || st.Send?) && st.slot == slot
  }

  /** It ends it with a message. */
  ghost predicate Writes(s: State, st: Step, slot: nat) {
    st.Send? && st.slot == slot && Inserted(s.db, SendAttempt(s.db, st.cmd, st.env).0)
  }

  /** The attempt that took a number at step `i` had ended by `n`, and it had ended with a message. */
  ghost predicate WrittenBy(run: seq<State>, steps: seq<Step>, i: nat, n: nat, slot: nat)
    requires n <= |steps| < |run|
  {
    exists j: nat :: i < j < n && Writes(run[j], steps[j], slot) && forall m: nat | i < m < j :: !Ends(steps[m], slot)
  }

  predicate Running(steps: seq<Step>, i: nat, n: nat, slot: nat)
    requires n <= |steps|
  {
    forall m: nat | i < m < n :: !Ends(steps[m], slot)
  }

  lemma EndOfAttempt(s: State, st: Step, t: State, slot: nat)
    requires Keyed(s.db.idempotency, s.db.messages, s.origin) && Enabled(s, st) && t == Apply(s, st)
    requires slot in s.inflight
    ensures !Ends(st, slot) ==> slot in t.inflight && t.inflight[slot] == s.inflight[slot]
    ensures Ends(st, slot) && Writes(s, st, slot) ==> Used(t.db.messages, s.inflight[slot])
    ensures Ends(st, slot) && !Writes(s, st, slot) ==> s.inflight[slot] in t.burned
  {
    if Writes(s, st, slot) {
      SendCases(s.db, s.origin, st.cmd, st.env);
      var m := Written(st.cmd, st.env);
      assert m.id in t.db.messages && TicketOf(t.db.messages[m.id].message) == s.inflight[slot];
    }
  }

  lemma KeptForGood(s: State, st: Step, t: State, k: Ticket)
    requires Keyed(s.db.idempotency, s.db.messages, s.origin) && Enabled(s, st) && t == Apply(s, st)
    ensures k in s.burned ==> k in t.burned
    ensures Used(s.db.messages, k) ==> Used(t.db.messages, k)
    ensures forall c | c in s.counter :: c in t.counter && s.counter[c] <= t.counter[c]
  {
    StepExtends(s, st, t);
    if Used(s.db.messages, k) {
      var id :| id in s.db.messages && TicketOf(s.db.messages[id].message) == k;
      assert id in t.db.messages && TicketOf(t.db.messages[id].message) == k;
    }
  }

  /** What becomes of a number: its attempt is running and holds it, or ended with its message, or burned it. */
  lemma {:induction false} FateOfNumber(run: seq<State>, steps: seq<Step>, i: nat, n: nat, slot: nat, conv: Id)
    requires IsTrace(run, steps) && i < n <= |steps| && steps[i] == TakeSequence(slot, conv) && conv in run[i].counter
    ensures var k := Ticket(conv, run[i].counter[conv] + 1);
            && Drawn(run[n].counter, k)
            && (if Running(steps, i, n, slot) then slot in run[n].inflight && run[n].inflight[slot] == k
                else if WrittenBy(run, steps, i, n, slot) then Used(run[n].db.messages, k)
                else k in run[n].burned)
    decreases n
  {
    assert TraceAt(run, steps, n - 1);
    if n > i + 1 {
      var k := Ticket(conv, run[i].counter[conv] + 1);
      FateOfNumber(run, steps, i, n - 1, slot, conv);
      TraceInv(run, steps, n - 1);
      KeptForGood(run[n - 1], steps[n - 1], run[n], k);
      if Running(steps, i, n - 1, slot) {
        EndOfAttempt(run[n - 1], steps[n - 1], run[n], slot);
        EndsNow(run, steps, i, n, slot);
      } else {
        EndedBefore(run, steps, i, n, slot);
      }
    }
  }

  lemma EndsNow(run: seq<State>, steps: seq<Step>, i: nat, n: nat, slot: nat)
    requires i + 1 < n <= |steps| < |run| && Running(steps, i, n - 1, slot)
    ensures Running(steps, i, n, slot) <==> !Ends(steps[n - 1], slot)
    ensures WrittenBy(run, steps, i, n, slot) <==> Writes(run[n - 1], steps[n - 1], slot)
  {
  }

  lemma EndedBefore(run: seq<State>, steps: seq<Step>, i: nat, n: nat, slot: nat)
    requires i + 1 < n <= |steps| < |run| && !Running(steps, i, n - 1, slot)
    ensures !Running(steps, i, n, slot)
    ensures WrittenBy(run, steps, i, n, slot) <==> WrittenBy(run, steps, i, n - 1, slot)
  {
  }

  /** Every number of a counter was taken by some step. */
  lemma {:induction false} TakenWhen(run: seq<State>, steps: seq<Step>, n: nat, conv: Id, number: int) returns (i: nat)
    requires IsTrace(run, steps) && n <= |steps| && conv in run[n].counter && 1 <= number <= run[n].counter[conv]
    ensures i < n && steps[i].TakeSequence? && steps[i].conv == conv
    ensures conv in run[i].counter && run[i].counter[conv] + 1 == number
  {
    assert n > 0;
    assert TraceAt(run, steps, n - 1);
    if conv in run[n - 1].counter && number <= run[n - 1].counter[conv] {
      i := TakenWhen(run, steps, n - 1, conv, number);
    } else {
      i := n - 1;
    }
  }

  /** Every attempt that took a number of the conversation has ended with a message. */
  ghost predicate AllWritten(run: seq<State>, steps: seq<Step>, n: nat, conv: Id)
    requires n <= |steps| < |run|
  {
    forall i: nat | i < n && steps[i].TakeSequence? && steps[i].conv == conv ::
        WrittenBy(run, steps, i, n, steps[i].slot)
  }

  lemma NumberUsedIff(run: seq<State>, steps: seq<Step>, i: nat, n: nat, slot: nat, conv: Id)
    requires IsTrace(run, steps) && i < n <= |steps| && steps[i] == TakeSequence(slot, conv) && conv in run[i].counter
    ensures Used(run[n].db.messages, Ticket(conv, run[i].counter[conv] + 1)) <==> WrittenBy(run, steps, i, n, slot)
    ensures Drawn(run[n].counter, Ticket(conv, run[i].counter[conv] + 1))
  {
    FateOfNumber(run, steps, i, n, slot, conv);
    TraceInv(run, steps, n);
    assert Running(steps, i, n, slot) ==> Held(run[n].inflight, Ticket(conv, run[i].counter[conv] + 1));
    assert Running(steps, i, n, slot) ==> !WrittenBy(run, steps, i, n, slot);
  }

  /** A conversation is gapless, each number up to its counter on a message, exactly when every step of the run that
      took a number of it was followed by an attempt that ended with a message. */
  lemma GaplessIff(run: seq<State>, steps: seq<Step>, n: nat, conv: Id)
    requires IsTrace(run, steps) && n <= |steps| && conv in run[n].counter
    ensures (forall number | 1 <= number <= run[n].counter[conv] :: Used(run[n].db.messages, Ticket(conv, number))) <==>
            AllWritten(run, steps, n, conv)
  {
    if AllWritten(run, steps, n, conv) {
      forall number | 1 <= number <= run[n].counter[conv] ensures Used(run[n].db.messages, Ticket(conv, number)) {
        var i := TakenWhen(run, steps, n, conv, number);
        NumberUsedIff(run, steps, i, n, steps[i].slot, conv);
      }
    }
    if forall number | 1 <= number <= run[n].counter[conv] :: Used(run[n].db.messages, Ticket(conv, number)) {
      forall i: nat | i < n && steps[i].TakeSequence? && steps[i].conv == conv
        ensures WrittenBy(run, steps, i, n, steps[i].slot)
      {
        assert TraceAt(run, steps, i);
        NumberUsedIff(run, steps, i, n, steps[i].slot, conv);
      }
    }
  }

  /** One number taken and lost, another one taken. */
  lemma LoseFirst() returns (run: seq<State>)
    ensures IsRun(run) && |run| == 5
    ensures run[4] == State(Db(map[], map[], []), map["c" := 2], map[0 := Ticket("c", 2)], {Ticket("c", 1)}, map[], {})
  {
    var s0 := State(Db(map[], map[], []), map[], map[], {}, map[], {});
    var s1 := Apply(s0, CreateCounter("c"));
    var s2 := Apply(s1, TakeSequence(0, "c"));
    var s3 := Apply(s2, LoseSequence(0));
    var s4 := Apply(s3, TakeSequence(0, "c"));
    run := [s0, s1, s2, s3, s4];
    assert Next(s0, s1) && Next(s1, s2) && Next(s2, s3) && Next(s3, s4);
    assert forall i: nat {:trigger StepAt(run, i)} | i + 1 < |run| :: StepAt(run, i);
  }

  /** Gaps do occur: a first attempt loses its number, and the conversation's only message has sequence 2. */
  lemma SequencesMayGap() returns (run: seq<State>)
    ensures IsRun(run)
    ensures var s := run[|run| - 1];
            Used(s.db.messages, Ticket("c", 2)) && !Used(s.db.messages, Ticket("c", 1)) &&
                Drawn(s.counter, Ticket("c", 1))
  {
    var front := LoseFirst();
    var cmd := SendCommand(Key("k", "u", "c"), "text", "", "");
    var env := Env(true, false, false, Some(["u"]), Some(2), None, "m", 0, 0, Applied);
    var last := Apply(front[4], Send(cmd, env, 0));
    assert last.db.messages == map["m" := Row(Written(cmd, env), false)];
    assert TicketOf(last.db.messages["m"].message) == Ticket("c", 2);
    run := front + [last];
    assert Next(front[4], last);
    forall i: nat | i + 1 < |run| ensures StepAt(run, i) {
      assert i < 4 ==> StepAt(front, i);
    }
  }

  /** One attempt keeps rows and messages in step, and answers with the committed message of its request. */
  lemma AttemptAnswers(db: Db, origin: map<Id, Key>, cmd: SendCommand, env: Env) returns (origin': map<Id, Key>)
    requires Keyed(db.idempotency, db.messages, origin) && Logged(db.messages, db.outbox)
    ensures var (db', r) := SendAttempt(db, cmd, env);
            && Keyed(db'.idempotency, db'.messages, origin') && Logged(db'.messages, db'.outbox)
            && |db'.outbox| <= |db.outbox| + 1 && (r.Retry? ==> db' == db)
            && (cmd.key in db.idempotency ==> db' == db)
            && (r.Done? ==> cmd.key in db'.idempotency && db'.idempotency[cmd.key] == Some(r.value))
  {
    origin' := origin;
    SendCases(db, origin, cmd, env);
    var db' := SendAttempt(db, cmd, env).0;
    if db' != db {
      InsertKeyed(db, origin, cmd.key, Written(cmd, env), env.eventAt, db');
      InsertLogged(db, cmd.key, Written(cmd, env), env.eventAt, db');
      origin' := origin[env.uuid := cmd.key];
    }
  }

  /** A call alone at the tables is a run of attempts: it keeps rows and messages in step whatever happens, and
      when it succeeds its answer is the committed message of its request. */
  lemma {:induction false} SendLoopAnswers(db: Db, origin: map<Id, Key>, cmd: SendCommand, env: nat -> Env, i: nat)
      returns (origin': map<Id, Key>)
    requires i <= MAX_TX_RETRIES && Keyed(db.idempotency, db.messages, origin) && Logged(db.messages, db.outbox)
    ensures var (db', r) := SendLoop(db, cmd, env, i);
            && Keyed(db'.idempotency, db'.messages, origin') && Logged(db'.messages, db'.outbox)
            && |db'.outbox| <= |db.outbox| + 1
            && (cmd.key in db.idempotency ==> db' == db)
            && (r.Some? ==> cmd.key in db'.idempotency && db'.idempotency[cmd.key] == r)
    decreases MAX_TX_RETRIES - i
  {
    if i == MAX_TX_RETRIES {
      origin' := origin;
    } else {
      origin' := AttemptAnswers(db, origin, cmd, env(i));
      var (db1, r1) := SendAttempt(db, cmd, env(i));
      if r1.Retry? {
        origin' := SendLoopAnswers(db1, origin', cmd, env, i + 1);
      }
    }
  }

  // ---------------------------------------------------------------- the service

  method IsParticipant(participants: seq<Id>, user: Id) returns (found: bool)
    ensures found <==> user in participants
  {
    found := false;
    var i := 0;
    while i < |participants| && !found
      invariant 0 <= i <= |participants|
      invariant found <==> user in participants[..i]
    {
      if participants[i] == user {
        found := true;
      }
      i := i + 1;
    }
    assert !found ==> participants[..i] == participants;
  }

  class Service {
    var idempotency: map<Key, Option<Message>>
    var messages: map<Id, Row>
    var outbox: seq<Envelope>

    ghost function Abs(): Db reads this {
      Db(idempotency, messages, outbox)
    }

    constructor ()
      ensures Abs() == Db(map[], map[], [])
    {
      idempotency, messages, outbox := map[], map[], [];
    }

    /** INSERT ... ON CONFLICT DO NOTHING. */
    method TryInsertIdempotency(key: Key) returns (owned: bool)
      modifies `idempotency
      ensures owned <==> key !in old(idempotency)
      ensures idempotency == if owned then old(idempotency)[key := None] else old(idempotency)
    {
      owned := key !in idempotency;
      if owned {
        idempotency := idempotency[key := None];
      }
    }

    method InsertMessage(m: Message) returns (ok: bool)
      modifies `messages
      ensures ok <==> !(m.id in old(messages) || SequenceTaken(old(messages), m.conv, m.sequence))
      ensures messages == if ok then old(messages)[m.id := Row(m, false)] else old(messages)
    {
      ok := !(m.id in messages || SequenceTaken(messages, m.conv, m.sequence));
      if ok {
        messages := messages[m.id := Row(m, false)];
      }
    }

    /** The transaction callback. Its writes stand only if the caller commits. */
    method SendTx(cmd: SendCommand, env: Env) returns (r: Result<Message>)
      modifies this
      ensures match SendBody(old(Abs()), cmd, env)
              case Ok((db, m)) => r == Ok(m) && Abs() == db
              case Err(e) => r == Err(e)
    {
      if env.fault {
        return Err(Fault);
      }
      var owned := TryInsertIdempotency(cmd.key);
      if !owned {
        var payload := idempotency[cmd.key];
        if payload.Some? {
          return Ok(payload.value);
        }
      }
      if env.participants.None? || env.sequence.None? {
        return Err(Rpc);
      }
      var member := IsParticipant(env.participants.value, cmd.key.user);
      if !member {
        return Err(NotParticipant);
      }
      r := NewMessage(env.uuid, cmd, env.sequence.value, env.now);
      if r.Err? {
        return;
      }
      var saved := InsertMessage(r.value);
      if !saved {
        return Err(Constraint);
      }
      outbox := outbox + [Envelope(MessageSent(r.value), env.eventAt)];
      idempotency := idempotency[cmd.key := Some(r.value)];
    }

    /** The call with its retry loop, when nobody else is at the tables. */
    method SendMessage(cmd: SendCommand, env: nat -> Env) returns (result: Option<Message>)
      modifies this
      ensures (Abs(), result) == SendLoop(old(Abs()), cmd, env, 0)
    {
      var i := 0;
      while i < MAX_TX_RETRIES
        invariant 0 <= i <= MAX_TX_RETRIES
        invariant SendLoop(old(Abs()), cmd, env, 0) == SendLoop(Abs(), cmd, env, i)
      {
        if !env(i).begins {
          return None;
        }
        var before := (idempotency, messages, outbox);
        var r := SendTx(cmd, env(i));
        if r.Err? {
          idempotency, messages, outbox := before.0, before.1, before.2;
          if !env(i).retryable {
            return None;
          }
        } else {
          match env(i).fate {
            case Applied =>
              return Some(r.value);
            case ReplyLost =>
              return None;
            case SerializationFailure =>
              idempotency, messages, outbox := before.0, before.1, before.2;
            case Rejected =>
              idempotency, messages, outbox := before.0, before.1, before.2;
              return None;
          }
        }
        i := i + 1;
      }
      result := None;
    }

    method DeleteTx(cmd: DeleteCommand, env: Env) returns (r: Result<bool>)
      modifies this
      ensures match DeleteBody(old(Abs()), cmd, env)
              case Ok(db) => r == Ok(true) && Abs() == db
              case Err(e) => r == Err(e) && Abs() == old(Abs())
    {
      if env.fault {
        return Err(Fault);
      }
      if cmd.messageId !in messages {
        return Err(NotFound);
      }
      var row := messages[cmd.messageId];
      if row.message.conv != cmd.conv {
        return Err(InvalidInput);
      }
      if row.message.sender != cmd.requester {
        if env.isAdmin.None? {
          return Err(Rpc);
        }
        if !env.isAdmin.value {
          return Err(NotParticipant);
        }
      }
      r := Ok(true);
      if row.deleted {
        return;
      }
      messages := messages[cmd.messageId := row.(deleted := true)];
      outbox := outbox + [Envelope(MessageDeleted(cmd.conv, cmd.messageId), env.eventAt)];
    }
  }
}
