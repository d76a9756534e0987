/** What each transaction of the conversation service does and answers, said over the tables alone. */
module ConversationEffects {
  import opened Events
  import opened LookupKey
  import opened Conversation

  /** The conversation is there, is a group, and the actor is an admin of it. */
  predicate MayChange(db: Db, conv: Id, actor: Id) {
    && conv in db.convs && conv in db.participants && db.convs[conv] == Group
    && actor in db.participants[conv] && db.participants[conv][actor].role == Admin
  }

  /** Only the participants of one conversation changed, and one event was appended. */
  ghost predicate ChangedOne(db: Db, t: Db, conv: Id, e: Envelope) {
    && t.convs == db.convs && t.lookup == db.lookup && t.sequences == db.sequences
    && t.participants.Keys == db.participants.Keys
    && (forall c | c in db.participants && c != conv :: t.participants[c] == db.participants[c])
    && |t.outbox| == |db.outbox| + 1 && t.outbox[..|db.outbox|] == db.outbox && t.outbox[|db.outbox|] == e
  }

  // ---------------------------------------------------------------- additions and removals

  /** What both answer first: the conversation is missing, is a direct one, or the actor is not an admin. */
  ghost predicate Refused(db: Db, conv: Id, actor: Id, answer: Option<Error>) {
    && (answer == Some(NotFound) <==> conv !in db.convs || conv !in db.participants)
    && (answer == Some(DirectModification) <==>
          conv in db.convs && conv in db.participants && db.convs[conv] == Direct)
    && (answer == Some(NotAdmin) <==>
          && conv in db.convs && conv in db.participants && db.convs[conv] == Group
          && (actor !in db.participants[conv] || db.participants[conv][actor].role == Member))
  }

  /** An addition: its answer in every case; and the target gets a row, and nobody else one, with an event, exactly if
      the actor may change the group and the target is not in it. */
  lemma AdditionIs(db: Db, conv: Id, actor: Id, target: Id, now: int)
    ensures var (t, answer) := Add(db, conv, actor, target, now);
            && Refused(db, conv, actor, answer)
            && (answer.None? <==> MayChange(db, conv, actor))
            && (if MayChange(db, conv, actor) && target !in db.participants[conv]
                then && ChangedOne(db, t, conv, Envelope(MembershipChanged(conv, target, true), now))
                     && t.participants[conv].Keys == db.participants[conv].Keys + {target}
                     && t.participants[conv][target] == Participant(Member, 0)
                     && forall u | u in db.participants[conv] :: t.participants[conv][u] == db.participants[conv][u]
                else t == db)
  {
  }

  /** The target is an admin and nobody else is. */
  ghost predicate LastAdminIs(ps: map<Id, Participant>, target: Id) {
    && target in ps && ps[target].role == Admin
    && forall u | u in ps && ps[u].role == Admin :: u == target
  }

  lemma FewAdmins(ps: map<Id, Participant>, target: Id)
    requires target in ps && ps[target].role == Admin
    ensures |Admins(ps)| <= 1 <==> LastAdminIs(ps, target)
  {
    var others := Admins(ps) - {target};
    assert target in Admins(ps) && Admins(ps) == others + {target};
    assert |Admins(ps)| == |others| + 1;
    if |Admins(ps)| <= 1 {
      assert others == {};
      forall u | u in ps && ps[u].role == Admin ensures u == target {
        assert u in Admins(ps) && u !in others;
      }
    } else {
      var u :| u in others;
      assert ps[u].role == Admin && u != target;
    }
  }

  /** A removal: its answer in every case; and the target's row alone goes, with an event, exactly if the actor may
      change the group and the target is in it and not its last admin. */
  lemma RemovalIs(db: Db, conv: Id, actor: Id, target: Id, now: int)
    ensures var (t, answer) := Remove(db, conv, actor, target, now);
            && Refused(db, conv, actor, answer)
            && (answer == Some(LastAdmin) <==>
                  MayChange(db, conv, actor) && LastAdminIs(db.participants[conv], target))
            && (answer.None? <==> MayChange(db, conv, actor) && !LastAdminIs(db.participants[conv], target))
            && (if answer.None? && target in db.participants[conv]
                then && ChangedOne(db, t, conv, Envelope(MembershipChanged(conv, target, false), now))
                     && t.participants[conv].Keys == db.participants[conv].Keys - {target}
                     && forall u | u in t.participants[conv] :: t.participants[conv][u] == db.participants[conv][u]
                else t == db)
  {
    if conv in db.participants && target in db.participants[conv] && db.participants[conv][target].role == Admin {
      FewAdmins(db.participants[conv], target);
    }
  }

  /** In every run a group's creator, and nobody else, can add and remove, and can remove everybody else. */
  lemma CreatorGoverns(steps: seq<Step>, conv: Id, actor: Id, target: Id, now: int)
    requires var s := Run(steps); conv in s.db.convs && s.db.convs[conv] == Group
    ensures var s := Run(steps);
            && conv in s.founders && s.founders[conv] != [] && conv in s.db.participants
            && (MayChange(s.db, conv, actor) <==> actor == s.founders[conv][0])
            && (LastAdminIs(s.db.participants[conv], target) <==> target == s.founders[conv][0])
  {
    var s := Run(steps);
    MembershipInvariant(steps, conv);
    var ps, creator := s.db.participants[conv], s.founders[conv][0];
    forall u | u in ps ensures ps[u].role == Admin <==> u == creator {
      assert u in Admins(ps) <==> u in {creator};
    }
  }

  // ---------------------------------------------------------------- receipts and numbers

  /** A receipt: the number that is recorded and announced is the one sent, but at most the counter less one; the row of
      the user, if there is one, keeps the larger position, no other row changes, and the event always comes. */
  lemma ReceiptIs(db: Db, conv: Id, user: Id, read: int, now: int)
    ensures var t := Receipt(db, conv, user, read, now);
            var most := if conv in db.sequences then db.sequences[conv] - 1 else 0;
            exists number: int ::
              && number <= read && number <= most && (number == read || number == most)
              && ChangedOne(db, t, conv, Envelope(ReadReceiptUpdated(conv, user, number), now))
              && (conv in db.participants ==>
                    && t.participants[conv].Keys == db.participants[conv].Keys
                    && forall u | u in db.participants[conv] ::
                         var (before, after) := (db.participants[conv][u], t.participants[conv][u]);
                         && after.role == before.role
                         && after.lastRead == if u == user && number > before.lastRead then number else before.lastRead)
  {
    var number := Clamp(db, conv, read);
    assert ChangedOne(db, Receipt(db, conv, user, read, now), conv,
                      Envelope(ReadReceiptUpdated(conv, user, number), now));
  }

  /** A number: the counter goes up by one and is the answer; without a counter there is none, and no counter
      appears. */
  lemma NumberIs(db: Db, conv: Id)
    ensures var (t, answer) := NextSequence(db, conv);
            && (answer.Some? <==> conv in db.sequences)
            && t.convs == db.convs && t.lookup == db.lookup && t.participants == db.participants
            && t.outbox == db.outbox
            && t.sequences.Keys == db.sequences.Keys
            && (forall c | c in db.sequences ::
                  t.sequences[c] == if c == conv then db.sequences[c] + 1 else db.sequences[c])
            && (answer.Some? ==> answer.value == t.sequences[conv])
  {
  }

  // ---------------------------------------------------------------- creation

  /** The command is well-formed: an id, and two participants of a direct conversation or at least one of a group. */
  predicate WellFormed(cmd: CreateCommand) {
    && cmd.id != ""
    && match cmd.kind { case Direct => |cmd.participants| == 2 case Group => |cmd.participants| >= 1 }
  }

  /** The conversation stored under the pair of a direct command, in either order. */
  function PairOf(db: Db, cmd: CreateCommand): Option<Id> {
    if cmd.kind.Direct? && |cmd.participants| == 2 && Key(cmd.participants[0], cmd.participants[1]) in db.lookup
    then Some(db.lookup[Key(cmd.participants[0], cmd.participants[1])]) else None
  }

  /** The tables with a new conversation: one admin of a group, the first participant, and none of a direct
      conversation, nobody has read anything, the counter is 0, the pair leads to it, and the event names the
      participants. */
  ghost predicate Adds(db: Db, t: Db, cmd: CreateCommand, now: int) {
    && t.convs == db.convs[cmd.id := cmd.kind] && t.sequences == db.sequences[cmd.id := 0]
    && t.outbox == db.outbox + [Envelope(ConversationCreated(cmd.id, cmd.participants), now)]
    && t.participants.Keys == db.participants.Keys + {cmd.id}
    && (forall c | c in db.participants && c != cmd.id :: t.participants[c] == db.participants[c])
    && t.participants[cmd.id].Keys == SetOf(cmd.participants)
    && (forall u | u in t.participants[cmd.id] ::
          && t.participants[cmd.id][u].lastRead == 0
          && (t.participants[cmd.id][u].role == Admin <==> cmd.kind.Group? && u == cmd.participants[0]))
    && t.lookup == if cmd.kind.Direct? && |cmd.participants| == 2
                   then db.lookup[Key(cmd.participants[0], cmd.participants[1]) := cmd.id] else db.lookup
  }

  /** A creation that nobody races: its answer in every case, and the tables after it. */
  lemma CreationIs(db: Db, cmd: CreateCommand, idFirst: bool, now: int)
    ensures var (t, answer) := Create(db, cmd, idFirst, now);
            var stored := cmd.id in db.convs || PairOf(db, cmd).Some?;
            && (answer == Err(InvalidInput) <==> !WellFormed(cmd))
            && (answer == Err(Constraint) <==> WellFormed(cmd) && !stored && !Distinct(cmd.participants))
            && (answer.Ok? <==> WellFormed(cmd) && (stored || Distinct(cmd.participants)))
            && (answer.Ok? && stored ==>
                  answer.value == if cmd.id in db.convs && (idFirst || PairOf(db, cmd).None?) then cmd.id
                                  else PairOf(db, cmd).value)
            && (answer.Ok? && !stored ==> answer.value == cmd.id)
            && (if answer.Ok? && !stored then Adds(db, t, cmd, now) else t == db)
  {
  }
}
