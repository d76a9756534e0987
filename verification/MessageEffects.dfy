/** What each attempt of the message service does and answers, said over the tables, the command and what the outside
    contributed. */
module MessageEffects {
  import opened Events
  import opened MessageService

  // ---------------------------------------------------------------- sending

  /** The request has a committed answer. */
  predicate Known(db: Db, cmd: SendCommand) {
    cmd.key in db.idempotency && db.idempotency[cmd.key].Some?
  }

  predicate Told(env: Env) {
    env.participants.Some? && env.sequence.Some?
  }

  predicate Free(db: Db, conv: Id, id: Id, sequence: int) {
    && id !in db.messages
    && forall x | x in db.messages :: db.messages[x].message.conv != conv || db.messages[x].message.sequence != sequence
  }

  /** The message may be written: no statement fails, the request is new, the sender is among the participants that the
      attempt was told of, the number is positive, no id is empty, the content is within the limit, and id and number
      are free. */
  ghost predicate Writable(db: Db, cmd: SendCommand, env: Env) {
    && !env.fault && !Known(db, cmd) && Told(env)
    && cmd.key.user in env.participants.value
    && env.uuid != "" && cmd.key.conv != "" && cmd.key.user != ""
    && env.sequence.value > 0 && |cmd.content| <= 5000
    && Free(db, cmd.key.conv, env.uuid, env.sequence.value)
  }

  /** The message of the command, under the number and the id of the attempt. */
  ghost predicate IsMessageOf(m: Message, cmd: SendCommand, env: Env) {
    && m.id == env.uuid && m.conv == cmd.key.conv && m.sender == cmd.key.user && Some(m.sequence) == env.sequence
    && m.kind == cmd.kind && m.content == cmd.content && m.metadata == cmd.metadata && m.sentAt == env.now
  }

  /** One message row, one event and one idempotency row were written for it, and nothing else. */
  ghost predicate Wrote(db: Db, t: Db, cmd: SendCommand, env: Env, m: Message) {
    && IsMessageOf(m, cmd, env)
    && t.messages == db.messages[m.id := Row(m, false)]
    && t.idempotency == db.idempotency[cmd.key := Some(m)]
    && t.outbox == db.outbox + [Envelope(MessageSent(m), env.eventAt)]
  }

  predicate Committed(env: Env) {
    env.begins && (env.fate.Applied? || env.fate.ReplyLost?)
  }

  lemma FreeIs(db: Db, conv: Id, id: Id, sequence: int)
    ensures Free(db, conv, id, sequence) <==> !(id in db.messages || SequenceTaken(db.messages, conv, sequence))
  {
  }

  /** When an attempt to send changes the tables, and to what: exactly if the message may be written and the commit is
      applied, also when its reply is lost; then the one message is written, and otherwise nothing is. */
  lemma SendWritesIff(db: Db, cmd: SendCommand, env: Env)
    ensures var t := SendAttempt(db, cmd, env).0;
            && (t != db <==> Writable(db, cmd, env) && Committed(env))
            && (t != db ==> exists m: Message :: Wrote(db, t, cmd, env, m))
  {
    if env.sequence.Some? {
      FreeIs(db, cmd.key.conv, env.uuid, env.sequence.value);
      var m := Written(cmd, env);
      if Writable(db, cmd, env) && Committed(env) {
        assert Wrote(db, SendAttempt(db, cmd, env).0, cmd, env, m);
        assert env.uuid in SendAttempt(db, cmd, env).0.messages;
      }
    }
  }

  /** How an attempt to send ends: with an answer if a known or writable request's commit is applied and replied to;
      with another try if the error text, or the commit, reads as a serialization failure; and with an error otherwise.
      The answer is the known message, or the one just written. */
  lemma SendAnswersIff(db: Db, cmd: SendCommand, env: Env)
    ensures var (t, r) := SendAttempt(db, cmd, env);
            var sound := !env.fault && (Known(db, cmd) || Writable(db, cmd, env));
            && (r.Done? <==> env.begins && sound && env.fate.Applied?)
            && (r.Retry? <==> env.begins && if sound then env.fate.SerializationFailure? else env.retryable)
            && (r.Done? ==> if Known(db, cmd) then t == db && Some(r.value) == db.idempotency[cmd.key]
                            else Wrote(db, t, cmd, env, r.value))
  {
    if env.sequence.Some? {
      FreeIs(db, cmd.key.conv, env.uuid, env.sequence.value);
    }
  }

  /** Which error the body of a send ends with, and in which order the conditions are met. */
  lemma SendErrors(db: Db, cmd: SendCommand, env: Env)
    ensures var r := SendBody(db, cmd, env);
            var asked := !env.fault && !Known(db, cmd);
            var member := asked && Told(env) && cmd.key.user in env.participants.value;
            var named := member && env.uuid != "" && cmd.key.conv != "" && cmd.key.user != "";
            && (r == Err(Fault) <==> env.fault)
            && (r == Err(Rpc) <==> asked && !Told(env))
            && (r == Err(NotParticipant) <==> asked && Told(env) && cmd.key.user !in env.participants.value)
            && (r == Err(InvalidMessage) <==> member && (env.uuid == "" || cmd.key.conv == "" || cmd.key.user == ""))
            && (r == Err(InvalidSequence) <==> named && env.sequence.value <= 0)
            && (r == Err(TooLarge) <==> named && env.sequence.value > 0 && |cmd.content| > 5000)
            && (r == Err(Constraint) <==> named && env.sequence.value > 0 && |cmd.content| <= 5000
                                          && !Free(db, cmd.key.conv, env.uuid, env.sequence.value))
            && (r.Ok? <==> !env.fault && (Known(db, cmd) || Writable(db, cmd, env)))
  {
    if env.sequence.Some? {
      FreeIs(db, cmd.key.conv, env.uuid, env.sequence.value);
    }
  }

  /** Whatever step writes a message, its sender was among the participants that the attempt was told of. */
  lemma SendersAreParticipants(s: State, st: Step, id: Id)
    requires Enabled(s, st) && id !in s.db.messages && id in Apply(s, st).db.messages
    ensures st.Send? && id == st.env.uuid && Apply(s, st).db.messages[id].message.sender == st.cmd.key.user
    ensures st.env.participants.Some? && st.cmd.key.user in st.env.participants.value
  {
    match st
    case Send(cmd, env, _) =>
      SendWritesIff(s.db, cmd, env);
    case SendWithout(cmd, env) =>
      SendWritesIff(s.db, cmd, env);
    case Delete(cmd, env) => DeleteCases(s.db, cmd, env);
    case _ =>
  }

  /** A request counts as answered with a message exactly if some attempt at it has ended with that answer. */
  lemma RepliesIff(s: State, st: Step, key: Key, m: Message)
    requires Enabled(s, st)
    ensures (key, m) in Apply(s, st).replies <==>
              || (key, m) in s.replies
              || ((st.Send? || st.SendWithout?) && st.cmd.key == key && SendAttempt(s.db, st.cmd, st.env).1 == Done(m))
  {
  }

  // ---------------------------------------------------------------- the retry loop

  /** Attempt `k` is the first that does not end with another try. */
  ghost predicate DecidedAt(db: Db, cmd: SendCommand, env: nat -> Env, i: nat, k: nat) {
    && i <= k && !SendAttempt(db, cmd, env(k)).1.Retry?
    && forall j: nat | i <= j < k :: SendAttempt(db, cmd, env(j)).1.Retry?
  }

  /** The loop tries again exactly while attempts end with a retry, five times at most: the first attempt that does not
      decides about the tables and the answer, and without one the call fails and leaves the tables alone. */
  lemma {:induction false} SendLoopIs(db: Db, cmd: SendCommand, env: nat -> Env, i: nat)
    requires i <= 5
    ensures var (t, r) := SendLoop(db, cmd, env, i);
            && (forall k: nat | k < 5 && DecidedAt(db, cmd, env, i, k) ::
                  var (t', a) := SendAttempt(db, cmd, env(k));
                  t == t' && r == if a.Done? then Some(a.value) else None)
            && ((forall k: nat | i <= k < 5 :: SendAttempt(db, cmd, env(k)).1.Retry?) ==> t == db && r == None)
    decreases 5 - i
  {
    if i < 5 && SendAttempt(db, cmd, env(i)).1.Retry? {
      assert SendAttempt(db, cmd, env(i)).0 == db;
      SendLoopIs(db, cmd, env, i + 1);
      forall k: nat | k < 5 && DecidedAt(db, cmd, env, i, k) ensures DecidedAt(db, cmd, env, i + 1, k) {
        assert k != i;
      }
    } else if i < 5 {
      forall k: nat | DecidedAt(db, cmd, env, i, k) ensures k == i {
      }
    }
  }

  // ---------------------------------------------------------------- deleting

  /** The message is one of the conversation, and the requester its sender or, as the attempt was told, an admin. */
  predicate MayDelete(db: Db, cmd: DeleteCommand, env: Env) {
    && !env.fault && cmd.messageId in db.messages
    && db.messages[cmd.messageId].message.conv == cmd.conv
    && (db.messages[cmd.messageId].message.sender == cmd.requester || env.isAdmin == Some(true))
  }

  /** The message is marked, with one event if it was not before, and nothing else changed. */
  ghost predicate Deleted(db: Db, t: Db, cmd: DeleteCommand, env: Env)
    requires cmd.messageId in db.messages
  {
    && t.idempotency == db.idempotency && t.messages.Keys == db.messages.Keys
    && t.messages[cmd.messageId] == Row(db.messages[cmd.messageId].message, true)
    && (forall id | id in db.messages && id != cmd.messageId :: t.messages[id] == db.messages[id])
    && t.outbox == db.outbox + if db.messages[cmd.messageId].deleted then []
                               else [Envelope(MessageDeleted(cmd.conv, cmd.messageId), env.eventAt)]
  }

  /** What an attempt to delete does and answers: it answers exactly if the deletion is allowed and its commit applied
      and replied to; an applied commit marks the message, and in every other case nothing changes. */
  lemma DeletionIs(db: Db, cmd: DeleteCommand, env: Env)
    ensures var (t, r) := DeleteAttempt(db, cmd, env);
            && (r.Done? <==> env.begins && MayDelete(db, cmd, env) && env.fate.Applied?)
            && (r.Retry? <==> env.begins && if MayDelete(db, cmd, env) then env.fate.SerializationFailure?
                                            else env.retryable)
            && (if MayDelete(db, cmd, env) && Committed(env) then Deleted(db, t, cmd, env) else t == db)
  {
    if cmd.messageId in db.messages && db.messages[cmd.messageId].deleted {
      assert db.messages[cmd.messageId] == Row(db.messages[cmd.messageId].message, true);
      assert db.outbox + [] == db.outbox;
    }
  }

  /** Which error the body of a deletion ends with. */
  lemma DeletionErrors(db: Db, cmd: DeleteCommand, env: Env)
    ensures var r := DeleteBody(db, cmd, env);
            var found := !env.fault && cmd.messageId in db.messages;
            var stranger := found && db.messages[cmd.messageId].message.conv == cmd.conv
                            && db.messages[cmd.messageId].message.sender != cmd.requester;
            && (r == Err(Fault) <==> env.fault)
            && (r == Err(NotFound) <==> !env.fault && cmd.messageId !in db.messages)
            && (r == Err(InvalidInput) <==> found && db.messages[cmd.messageId].message.conv != cmd.conv)
            && (r == Err(Rpc) <==> stranger && env.isAdmin.None?)
            && (r == Err(NotParticipant) <==> stranger && env.isAdmin == Some(false))
            && (r.Ok? <==> MayDelete(db, cmd, env))
  {
  }
}
