/** Conversations: creation with direct-chat deduplication, membership changes, read receipts and the
    sequence counter, each one a serial, all-or-nothing transaction that also appends to the event log. */
module Conversation {
  import opened Events
  import opened LookupKey

  datatype Kind = Direct | Group
  datatype Role = Member | Admin
  datatype Participant = Participant(role: Role, lastRead: int)

  datatype Db = Db(
    convs: map<Id, Kind>,
    lookup: map<string, Id>,                      // the unique lookup_key column
    participants: map<Id, map<Id, Participant>>,
    sequences: map<Id, int>,                      // next_sequence
    outbox: seq<Envelope>)

  datatype Error = NotFound | DirectModification | NotAdmin | LastAdmin | InvalidInput | Constraint

  datatype Result<+T> = Ok(value: T) | Err(error: Error)

  datatype CreateCommand = CreateCommand(id: Id, kind: Kind, participants: seq<Id>)

  const EMPTY := Db(map[], map[], map[], map[], [])

  // ---------------------------------------------------------------- transactions

  function LookupOf(cmd: CreateCommand): Option<string> {
    if cmd.kind.Direct? && |cmd.participants| == 2 then Some(Key(cmd.participants[0], cmd.participants[1])) else None
  }

  predicate Malformed(cmd: CreateCommand) {
    cmd.id == "" || (cmd.kind.Direct? && |cmd.participants| != 2) || (cmd.kind.Group? && |cmd.participants| == 0)
  }

  /** The conversation already stored under the id or the lookup key. When both exist and differ, the two
      parallel lookups race; `idFirst` says which one answers first. */
  function Existing(db: Db, cmd: CreateCommand, idFirst: bool): Option<Id> {
    var byKey := if LookupOf(cmd).Some? && LookupOf(cmd).value in db.lookup
                 then Some(db.lookup[LookupOf(cmd).value]) else None;
    if cmd.id in db.convs && (idFirst || byKey.None?) then Some(cmd.id) else byKey
  }

  predicate Distinct(s: seq<Id>) {
    forall i, j | 0 <= i < j < |s| :: s[i] != s[j]
  }

  /** The rows of the participants: in a group the first one is admin. */
  function Rows(kind: Kind, users: seq<Id>): map<Id, Participant> {
    map u | u in users :: Participant(if kind.Group? && users[0] == u then Admin else Member, 0)
  }

  function Created(db: Db, cmd: CreateCommand, now: int): Db {
    Db(db.convs[cmd.id := cmd.kind],
       if LookupOf(cmd).Some? then db.lookup[LookupOf(cmd).value := cmd.id] else db.lookup,
       db.participants[cmd.id := Rows(cmd.kind, cmd.participants)],
       db.sequences[cmd.id := 0],
       db.outbox + [Envelope(ConversationCreated(cmd.id, cmd.participants), now)])
  }

  /** Creation by a transaction that nobody else's comes between. A repeated user violates the participants' primary
      key, and the call ends with the error and without effect. */
  function Create(db: Db, cmd: CreateCommand, idFirst: bool, now: int): (Db, Result<Id>) {
    if Malformed(cmd) then (db, Err(InvalidInput))
    else if Existing(db, cmd, idFirst).Some? then (db, Ok(Existing(db, cmd, idFirst).value))
    else if !Distinct(cmd.participants) then (db, Err(Constraint))
    else (Created(db, cmd, now), Ok(cmd.id))
  }

  function Admins(ps: map<Id, Participant>): set<Id> {
    set u | u in ps && ps[u].role.Admin?
  }

  /** The checks that adding and removing share. */
  function Authorize(db: Db, conv: Id, actor: Id): Option<Error> {
    if conv !in db.convs || conv !in db.participants then Some(NotFound)
    else if !db.convs[conv].Group? then Some(DirectModification)
    else if actor !in db.participants[conv] || !db.participants[conv][actor].role.Admin? then Some(NotAdmin)
    else None
  }

  function Added(db: Db, conv: Id, target: Id, now: int): Db
    requires conv in db.participants
  {
    db.(participants := db.participants[conv := db.participants[conv][target := Participant(Member, 0)]],
        outbox := db.outbox + [Envelope(MembershipChanged(conv, target, true), now)])
  }

  function Removed(db: Db, conv: Id, target: Id, now: int): Db
    requires conv in db.participants
  {
    db.(participants := db.participants[conv := db.participants[conv] - {target}],
        outbox := db.outbox + [Envelope(MembershipChanged(conv, target, false), now)])
  }

  function Add(db: Db, conv: Id, actor: Id, target: Id, now: int): (Db, Option<Error>) {
    var error := Authorize(db, conv, actor);
    if error.Some? then (db, error)
    else if target in db.participants[conv] then (db, None)
    else (Added(db, conv, target, now), None)
  }

  function Remove(db: Db, conv: Id, actor: Id, target: Id, now: int): (Db, Option<Error>) {
    var error := Authorize(db, conv, actor);
    if error.Some? then (db, error)
    else
      var ps := db.participants[conv];
      if target !in ps then (db, None)
      else if ps[target].role.Admin? && |Admins(ps)| <= 1 then (db, Some(LastAdmin))
      else (Removed(db, conv, target, now), None)
  }

  /** The stored counter less one, although the counter holds the last number given out; 0 without a row. */
  function CurrentMax(db: Db, conv: Id): int {
    if conv in db.sequences then db.sequences[conv] - 1 else 0
  }

  function Max(a: int, b: int): int {
    if a >= b then a else b
  }

  function Clamp(db: Db, conv: Id, read: int): int {
    if read > CurrentMax(db, conv) then CurrentMax(db, conv) else read
  }

  /** SET last_read_sequence = GREATEST(last_read_sequence, read); a missing row is not an error. */
  function UpdateLastRead(ps: map<Id, map<Id, Participant>>, conv: Id, user: Id, read: int): map<Id, map<Id,
                          Participant>> {
    if conv in ps && user in ps[conv] then
      ps[conv := ps[conv][user := ps[conv][user].(lastRead := Max(ps[conv][user].lastRead, read))]]
    else ps
  }

  function Receipt(db: Db, conv: Id, user: Id, read: int, now: int): Db {
    var clamped := Clamp(db, conv, read);
    db.(participants := UpdateLastRead(db.participants, conv, user, clamped),
        outbox := db.outbox + [Envelope(ReadReceiptUpdated(conv, user, clamped), now)])
  }

  function NextSequence(db: Db, conv: Id): (Db, Option<int>) {
    if conv in db.sequences then
      (db.(sequences := db.sequences[conv := db.sequences[conv] + 1]), Some(db.sequences[conv] + 1))
    else (db, None)
  }

  /** Some insert of the creation violates a constraint: the conversation's or the counter's primary key, the unique
      lookup key, or the participants' primary key. */
  predicate Violates(db: Db, cmd: CreateCommand) {
    || cmd.id in db.convs || cmd.id in db.sequences
    || (LookupOf(cmd).Some? && LookupOf(cmd).value in db.lookup)
    || !Distinct(cmd.participants) || cmd.id in db.participants
  }

  // ---------------------------------------------------------------- the machine

  /** Aborted transactions and lost replies need no steps of their own: they change nothing, or what the step does. */
  datatype Step =
    | DoCreate(cmd: CreateCommand, idFirst: bool, now: int)
    | DoAdd(conv: Id, actor: Id, target: Id, now: int)
    | DoRemove(conv: Id, actor: Id, target: Id, now: int)
    | DoReceipt(conv: Id, user: Id, read: int, now: int)
    | DoNext(conv: Id)

  datatype State = State(db: Db, founders: map<Id, seq<Id>>)  // founders: the participants each conversation began with

  const INIT := State(EMPTY, map[])

  function Apply(s: State, st: Step): State {
    match st
    case DoCreate(cmd, idFirst, now) =>
      var db' := Create(s.db, cmd, idFirst, now).0;
      State(db', if cmd.id in db'.convs && cmd.id !in s.db.convs then s.founders[cmd.id := cmd.participants]
          else s.founders)
    case DoAdd(c, a, t, now) => s.(db := Add(s.db, c, a, t, now).0)
    case DoRemove(c, a, t, now) => s.(db := Remove(s.db, c, a, t, now).0)
    case DoReceipt(c, u, r, now) => s.(db := Receipt(s.db, c, u, r, now))
    case DoNext(c) => s.(db := NextSequence(s.db, c).0)
  }

  /** What a step does to the tables, whatever the conversations began with. */
  function Tables(db: Db, st: Step): Db {
    Apply(State(db, map[]), st).db
  }

  function TablesAfter(db: Db, steps: seq<Step>): Db {
    if steps == [] then db else Tables(TablesAfter(db, steps[..|steps| - 1]), steps[|steps| - 1])
  }

  /** Creation when others' transactions commit between the checks and the inserts. A violated constraint fails the
      transaction. The refetches after it either fail too or find the winner's row in the Redis cache, and then the
      commit of the failed transaction fails: either way the call ends with an error. */
  function CreateRacing(db: Db, cmd: CreateCommand, idFirst: bool, rivals: seq<Step>, now: int): (Db, Result<Id>) {
    if Malformed(cmd) then (db, Err(InvalidInput))
    else if Existing(db, cmd, idFirst).Some? then (db, Ok(Existing(db, cmd, idFirst).value))
    else
      var found := TablesAfter(db, rivals);
      if Violates(found, cmd) then (found, Err(Constraint)) else (Created(found, cmd, now), Ok(cmd.id))
  }

  function Run(steps: seq<Step>): State {
    if steps == [] then INIT else Apply(Run(steps[..|steps| - 1]), steps[|steps| - 1])
  }

  // ---------------------------------------------------------------- invariant

  /** One conversation's participants: the creator is the only admin of a group and remains in it, and a direct
      conversation keeps its two distinct founders, neither of them admin. */
  ghost predicate Governed(kind: Kind, founders: seq<Id>, ps: map<Id, Participant>) {
    match kind
    case Group => founders != [] && founders[0] in ps && Admins(ps) == {founders[0]}
    case Direct =>
      && |founders| == 2 && founders[0] != founders[1]
      && ps.Keys == {founders[0], founders[1]} && Admins(ps) == {}
  }

  ghost predicate Shaped(convs: map<Id, Kind>, participants: map<Id, map<Id, Participant>>, counters: set<Id>,
                         founders: map<Id, seq<Id>>)
  {
    && convs.Keys == participants.Keys == counters == founders.Keys
    && forall c | c in convs :: Governed(convs[c], founders[c], participants[c])
  }

  /** The lookup column holds the key of every direct conversation and nothing else. */
  ghost predicate Indexed(convs: map<Id, Kind>, lookup: map<string, Id>, founders: map<Id, seq<Id>>) {
    && (forall k | k in lookup ::
          && lookup[k] in convs && convs[lookup[k]].Direct?
          && lookup[k] in founders && |founders[lookup[k]]| == 2
          && k == Key(founders[lookup[k]][0], founders[lookup[k]][1]))
    && (forall c | c in convs && convs[c].Direct? ::
          && c in founders && |founders[c]| == 2
          && Key(founders[c][0], founders[c][1]) in lookup
          && lookup[Key(founders[c][0], founders[c][1])] == c)
  }

  ghost predicate Counted(participants: map<Id, map<Id, Participant>>, sequences: map<Id, int>) {
    forall c, u | c in participants && u in participants[c] && c in sequences ::
      0 <= sequences[c] && participants[c][u].lastRead <= Max(0, sequences[c] - 1)
  }

  /** Members of a conversation after one more event. */
  function Step1(members: set<Id>, b: Body, c: Id): set<Id> {
    match b
    case ConversationCreated(d, us) => if d == c then SetOf(us) else members
    case MembershipChanged(d, u, added) =>
      if d != c then members else if added then members + {u} else members - {u}
    case _ => members
  }

  /** The members of a conversation as the event log tells them. */
  function Replay(log: seq<Envelope>, c: Id): set<Id> {
    if log == [] then {} else Step1(Replay(log[..|log| - 1], c), log[|log| - 1].body, c)
  }

  predicate Structural(b: Body) {
    b.ConversationCreated? || b.MembershipChanged?
  }

  /** What the log may say: a conversation is created once, with its founders, before anything changes in it,
      and no change names its creator. */
  ghost predicate LogShape(log: seq<Envelope>, founders: map<Id, seq<Id>>) {
    && (forall i | 0 <= i < |log| && log[i].body.ConversationCreated? ::
          log[i].body.created in founders && founders[log[i].body.created] == log[i].body.participants)
    && (forall i | 0 <= i < |log| && log[i].body.MembershipChanged? ::
          && log[i].body.changedIn in founders && founders[log[i].body.changedIn] != []
          && log[i].body.user != founders[log[i].body.changedIn][0])
    && (forall i, j | 0 <= i < j < |log| && log[j].body.ConversationCreated? && Structural(log[i].body) ::
          ConversationOf(log[i].body) != log[j].body.created)
    && (forall c | c in founders :: exists i :: 0 <= i < |log| && log[i].body == ConversationCreated(c, founders[c]))
  }

  ghost predicate Replayed(log: seq<Envelope>, participants: map<Id, map<Id, Participant>>) {
    forall c: Id :: Replay(log, c) == if c in participants then participants[c].Keys else {}
  }

  ghost predicate TablesInv(s: State) {
    && Shaped(s.db.convs, s.db.participants, s.db.sequences.Keys, s.founders)
    && Indexed(s.db.convs, s.db.lookup, s.founders)
    && Counted(s.db.participants, s.db.sequences)
  }

  ghost predicate LogInv(s: State) {
    Replayed(s.db.outbox, s.db.participants) && LogShape(s.db.outbox, s.founders)
  }

  ghost predicate Inv(s: State) {
    TablesInv(s) && LogInv(s)
  }

  // ---------------------------------------------------------------- creation

  lemma RowsGoverned(kind: Kind, users: seq<Id>)
    requires Distinct(users) && (kind.Direct? ==> |users| == 2) && (kind.Group? ==> |users| > 0)
    ensures Governed(kind, users, Rows(kind, users)) && Rows(kind, users).Keys == SetOf(users)
  {
  }

  lemma CreateShaped(db: Db, founders: map<Id, seq<Id>>, cmd: CreateCommand, now: int, t: Db)
    requires Shaped(db.convs, db.participants, db.sequences.Keys, founders) && t == Created(db, cmd, now)
    requires !Malformed(cmd) && Distinct(cmd.participants) && cmd.id !in db.convs
    ensures Shaped(t.convs, t.participants, t.sequences.Keys, founders[cmd.id := cmd.participants])
  {
    RowsGoverned(cmd.kind, cmd.participants);
  }

  lemma CreateIndexed(db: Db, founders: map<Id, seq<Id>>, cmd: CreateCommand, now: int, t: Db)
    requires Indexed(db.convs, db.lookup, founders) && t == Created(db, cmd, now) && db.convs.Keys == founders.Keys
    requires !Malformed(cmd) && cmd.id !in db.convs
    requires LookupOf(cmd).Some? ==> LookupOf(cmd).value !in db.lookup
    ensures Indexed(t.convs, t.lookup, founders[cmd.id := cmd.participants])
  {
    var fs := founders[cmd.id := cmd.participants];
    forall c | c in t.convs && t.convs[c].Direct?
      ensures c in fs && |fs[c]| == 2 && Key(fs[c][0], fs[c][1]) in t.lookup && t.lookup[Key(fs[c][0], fs[c][1])] == c
    {
      if c != cmd.id {
        assert c in db.convs && db.convs[c].Direct?;
      }
    }
  }

  lemma CreateCounted(db: Db, cmd: CreateCommand, now: int, t: Db)
    requires Counted(db.participants, db.sequences) && t == Created(db, cmd, now)
    ensures Counted(t.participants, t.sequences)
  {
  }

  lemma AppendReplay(log: seq<Envelope>, e: Envelope, c: Id)
    ensures Replay(log + [e], c) == Step1(Replay(log, c), e.body, c)
  {
  }

  lemma CreateReplayed(db: Db, cmd: CreateCommand, now: int, t: Db)
    requires Replayed(db.outbox, db.participants) && t == Created(db, cmd, now) && Distinct(cmd.participants)
    ensures Replayed(t.outbox, t.participants)
  {
  }

  lemma CreateLogShape(log: seq<Envelope>, founders: map<Id, seq<Id>>, id: Id, users: seq<Id>, now: int)
    requires LogShape(log, founders) && id !in founders
    ensures LogShape(log + [Envelope(ConversationCreated(id, users), now)], founders[id := users])
  {
    var e := Envelope(ConversationCreated(id, users), now);
    var t, fs := log + [e], founders[id := users];
    forall c | c in fs ensures exists i :: 0 <= i < |t| && t[i].body == ConversationCreated(c, fs[c]) {
      if c == id {
        assert t[|log|].body == ConversationCreated(c, fs[c]);
      } else {
        var i :| 0 <= i < |log| && log[i].body == ConversationCreated(c, founders[c]);
        assert t[i].body == ConversationCreated(c, fs[c]);
      }
    }
    forall i, j | 0 <= i < j < |t| && t[j].body.ConversationCreated? && Structural(t[i].body)
      ensures ConversationOf(t[i].body) != t[j].body.created
    {
      assert t[i] == log[i];
    }
  }

  lemma CreateStep(s: State, cmd: CreateCommand, idFirst: bool, now: int, t: State)
    requires Inv(s) && t == Apply(s, DoCreate(cmd, idFirst, now))
    ensures Inv(t)
  {
    if t.db != s.db {
      CreateShaped(s.db, s.founders, cmd, now, t.db);
      CreateIndexed(s.db, s.founders, cmd, now, t.db);
      CreateCounted(s.db, cmd, now, t.db);
      CreateReplayed(s.db, cmd, now, t.db);
      CreateLogShape(s.db.outbox, s.founders, cmd.id, cmd.participants, now);
    }
  }

  // ---------------------------------------------------------------- membership changes

  /** A change that leaves the creator alone and adds no admin keeps a group governed. */
  lemma ChangeShaped(db: Db, founders: map<Id, seq<Id>>, conv: Id, ps: map<Id, Participant>, t: Db)
    requires Shaped(db.convs, db.participants, db.sequences.Keys, founders) && conv in db.convs && db.convs[conv].Group?
    requires t.convs == db.convs && t.sequences == db.sequences && t.participants == db.participants[conv := ps]
    requires Admins(ps) == Admins(db.participants[conv]) && founders[conv][0] in ps
    ensures Shaped(t.convs, t.participants, t.sequences.Keys, founders)
  {
  }

  lemma ChangeReplayed(db: Db, conv: Id, user: Id, added: bool, now: int, t: Db)
    requires Replayed(db.outbox, db.participants) && conv in db.participants
    requires t == if added then Added(db, conv, user, now) else Removed(db, conv, user, now)
    ensures Replayed(t.outbox, t.participants)
  {
    forall c: Id ensures Replay(t.outbox, c) == if c in t.participants then t.participants[c].Keys else {} {
      AppendReplay(db.outbox, Envelope(MembershipChanged(conv, user, added), now), c);
    }
  }

  lemma ChangeLogShape(log: seq<Envelope>, founders: map<Id, seq<Id>>, b: Body, now: int)
    requires LogShape(log, founders)
    requires b.ReadReceiptUpdated? || (b.MembershipChanged? && b.changedIn in founders && founders[b.changedIn] != []
                                       && b.user != founders[b.changedIn][0])
    ensures LogShape(log + [Envelope(b, now)], founders)
  {
    var t := log + [Envelope(b, now)];
    forall c | c in founders ensures exists i :: 0 <= i < |t| && t[i].body == ConversationCreated(c, founders[c]) {
      var i :| 0 <= i < |log| && log[i].body == ConversationCreated(c, founders[c]);
      assert t[i].body == ConversationCreated(c, founders[c]);
    }
  }

  lemma ChangeCounted(db: Db, conv: Id, ps: map<Id, Participant>, t: Db)
    requires Counted(db.participants, db.sequences) && conv in db.participants && t.sequences == db.sequences
    requires t.participants == db.participants[conv := ps]
    requires forall u | u in ps ::
               (u in db.participants[conv] && ps[u] == db.participants[conv][u]) || ps[u].lastRead == 0
    requires conv in db.sequences ==> db.sequences[conv] >= 0
    ensures Counted(t.participants, t.sequences)
  {
  }

  /** Who may change a group, and that its creator is its only admin. */
  lemma Authorized(s: State, conv: Id, actor: Id)
    requires Shaped(s.db.convs, s.db.participants, s.db.sequences.Keys, s.founders)
    requires Authorize(s.db, conv, actor).None?
    ensures conv in s.db.convs && s.db.convs[conv].Group? && s.founders[conv] != []
    ensures actor == s.founders[conv][0] && actor in s.db.participants[conv]
    ensures Admins(s.db.participants[conv]) == {actor}
  {
    assert Governed(s.db.convs[conv], s.founders[conv], s.db.participants[conv]);
    assert actor in Admins(s.db.participants[conv]);
  }

  /** One row of a group's participants, not the creator's, is added or removed, and the event appended. */
  ghost predicate Change(s: State, conv: Id, target: Id, added: bool, now: int, t: State) {
    && conv in s.db.convs && s.db.convs[conv].Group? && conv in s.db.participants
    && conv in s.founders && s.founders[conv] != [] && target != s.founders[conv][0]
    && s.founders[conv][0] in s.db.participants[conv]
    && t.founders == s.founders
    && t.db == (if added then Added(s.db, conv, target, now) else Removed(s.db, conv, target, now))
    && (if added then target !in s.db.participants[conv] else target !in Admins(s.db.participants[conv]))
  }

  lemma ChangeTables(s: State, conv: Id, target: Id, added: bool, now: int, t: State)
    requires TablesInv(s) && Change(s, conv, target, added, now, t)
    ensures TablesInv(t)
  {
    var ps := t.db.participants[conv];
    assert Admins(ps) == Admins(s.db.participants[conv]);
    ChangeShaped(s.db, s.founders, conv, ps, t.db);
    ChangeCounted(s.db, conv, ps, t.db);
  }

  lemma ChangeLog(s: State, conv: Id, target: Id, added: bool, now: int, t: State)
    requires LogInv(s) && Change(s, conv, target, added, now, t)
    ensures LogInv(t)
  {
    ChangeReplayed(s.db, conv, target, added, now, t.db);
    ChangeLogShape(s.db.outbox, s.founders, MembershipChanged(conv, target, added), now);
  }

  lemma AddStep(s: State, conv: Id, actor: Id, target: Id, now: int, t: State)
    requires Inv(s) && t == Apply(s, DoAdd(conv, actor, target, now))
    ensures Inv(t)
  {
    if t.db != s.db {
      Authorized(s, conv, actor);
      ChangeTables(s, conv, target, true, now, t);
      ChangeLog(s, conv, target, true, now, t);
    }
  }

  /** With one admin, the target of a successful removal is not the creator. */
  lemma RemoveIsChange(s: State, conv: Id, actor: Id, target: Id, now: int, t: State)
    requires Shaped(s.db.convs, s.db.participants, s.db.sequences.Keys, s.founders)
    requires t == Apply(s, DoRemove(conv, actor, target, now)) && t.db != s.db
    ensures Change(s, conv, target, false, now, t)
  {
    Authorized(s, conv, actor);
  }

  lemma RemoveStep(s: State, conv: Id, actor: Id, target: Id, now: int, t: State)
    requires Inv(s) && t == Apply(s, DoRemove(conv, actor, target, now))
    ensures Inv(t)
  {
    if t.db != s.db {
      RemoveIsChange(s, conv, actor, target, now, t);
      ChangeTables(s, conv, target, false, now, t);
      ChangeLog(s, conv, target, false, now, t);
    }
  }

  // ---------------------------------------------------------------- receipts and sequence numbers

  lemma UpdateLastReadKeeps(ps: map<Id, map<Id, Participant>>, conv: Id, user: Id, read: int, c: Id)
    requires c in ps
    ensures var qs := UpdateLastRead(ps, conv, user, read);
            && qs.Keys == ps.Keys && qs[c].Keys == ps[c].Keys && Admins(qs[c]) == Admins(ps[c])
            && (forall u | u in ps[c] ::
                  && qs[c][u].role == ps[c][u].role && ps[c][u].lastRead <= qs[c][u].lastRead
                  && (qs[c][u].lastRead == ps[c][u].lastRead || qs[c][u].lastRead <= read))
  {
  }

  lemma ReceiptShaped(db: Db, founders: map<Id, seq<Id>>, conv: Id, user: Id, read: int, now: int, t: Db)
    requires Shaped(db.convs, db.participants, db.sequences.Keys, founders) && t == Receipt(db, conv, user, read, now)
    ensures Shaped(t.convs, t.participants, t.sequences.Keys, founders)
  {
    forall c | c in t.convs ensures c in t.participants && Governed(t.convs[c], founders[c], t.participants[c]) {
      UpdateLastReadKeeps(db.participants, conv, user, Clamp(db, conv, read), c);
      assert Governed(db.convs[c], founders[c], db.participants[c]);
    }
  }

  lemma ReceiptCounted(db: Db, conv: Id, user: Id, read: int, now: int, t: Db)
    requires Counted(db.participants, db.sequences) && t == Receipt(db, conv, user, read, now)
    ensures Counted(t.participants, t.sequences)
  {
  }

  lemma ReceiptReplayed(db: Db, conv: Id, user: Id, read: int, now: int, t: Db)
    requires Replayed(db.outbox, db.participants) && t == Receipt(db, conv, user, read, now)
    ensures Replayed(t.outbox, t.participants)
  {
  }

  lemma ReceiptStep(s: State, conv: Id, user: Id, read: int, now: int, t: State)
    requires Inv(s) && t == Apply(s, DoReceipt(conv, user, read, now))
    ensures Inv(t)
  {
    ReceiptShaped(s.db, s.founders, conv, user, read, now, t.db);
    ReceiptCounted(s.db, conv, user, read, now, t.db);
    ReceiptReplayed(s.db, conv, user, read, now, t.db);
    ChangeLogShape(s.db.outbox, s.founders, ReadReceiptUpdated(conv, user, Clamp(s.db, conv, read)), now);
  }

  lemma NextCounted(db: Db, conv: Id, t: Db)
    requires Counted(db.participants, db.sequences) && t == NextSequence(db, conv).0
    ensures Counted(t.participants, t.sequences) && t.sequences.Keys == db.sequences.Keys
  {
  }

  lemma NextStep(s: State, conv: Id, t: State)
    requires Inv(s) && t == Apply(s, DoNext(conv))
    ensures Inv(t)
  {
    NextCounted(s.db, conv, t.db);
  }

  lemma InvStep(s: State, st: Step)
    requires Inv(s)
    ensures Inv(Apply(s, st))
  {
    match st {
      case DoCreate(cmd, idFirst, now) => CreateStep(s, cmd, idFirst, now, Apply(s, st));
      case DoAdd(c, a, t, now) => AddStep(s, c, a, t, now, Apply(s, st));
      case DoRemove(c, a, t, now) => RemoveStep(s, c, a, t, now, Apply(s, st));
      case DoReceipt(c, u, r, now) => ReceiptStep(s, c, u, r, now, Apply(s, st));
      case DoNext(c) => NextStep(s, c, Apply(s, st));
    }
  }

  lemma {:induction false} Invariant(steps: seq<Step>)
    ensures Inv(Run(steps))
    decreases |steps|
  {
    if steps != [] {
      Invariant(steps[..|steps| - 1]);
      InvStep(Run(steps[..|steps| - 1]), steps[|steps| - 1]);
    }
  }

  // ---------------------------------------------------------------- theorems

  /** In every run every group has exactly one admin, its creator, who is a participant, and every direct
      conversation has exactly its two distinct founders. */
  lemma {:induction false} MembershipInvariant(steps: seq<Step>, c: Id)
    requires c in Run(steps).db.convs
    ensures var s := Run(steps);
            && c in s.db.participants && c in s.founders
            && (s.db.convs[c].Group? ==>
                  && s.founders[c] != [] && s.founders[c][0] in s.db.participants[c]
                  && Admins(s.db.participants[c]) == {s.founders[c][0]})
            && (s.db.convs[c].Direct? ==>
                  && |s.founders[c]| == 2 && s.founders[c][0] != s.founders[c][1]
                  && s.db.participants[c].Keys == {s.founders[c][0], s.founders[c][1]})
  {
    Invariant(steps);
    assert Governed(Run(steps).db.convs[c], Run(steps).founders[c], Run(steps).db.participants[c]);
  }

  /** Creation touches no existing conversation. */
  lemma CreateFrame(db: Db, cmd: CreateCommand, idFirst: bool, now: int, c: Id, t: Db)
    requires c in db.convs && t == Create(db, cmd, idFirst, now).0
    ensures c in t.convs && t.convs[c] == db.convs[c]
    ensures c in db.participants ==> c in t.participants && t.participants[c] == db.participants[c]
    ensures c in db.sequences ==> c in t.sequences && t.sequences[c] == db.sequences[c]
  {
  }

  lemma StepKeepsConversations(s: State, st: Step, c: Id)
    requires c in s.db.convs && c in s.founders
    ensures var t := Apply(s, st);
            && c in t.db.convs && t.db.convs[c] == s.db.convs[c]
            && c in t.founders && t.founders[c] == s.founders[c]
  {
  }

  /** Conversations never vanish or change kind, and what a conversation began with is fixed: together with the
      invariant, a creator stays for ever and a direct pair never changes. */
  lemma {:induction false} ConversationsAreForEver(steps: seq<Step>, k: nat, c: Id)
    requires k <= |steps| && c in Run(steps[..k]).db.convs
    ensures var s, t := Run(steps[..k]), Run(steps);
            && c in t.db.convs && t.db.convs[c] == s.db.convs[c]
            && c in s.founders && c in t.founders && t.founders[c] == s.founders[c]
            && (s.db.convs[c].Direct? ==>
                  c in s.db.participants && c in t.db.participants
                  && t.db.participants[c].Keys == s.db.participants[c].Keys)
    decreases |steps|
  {
    MembershipInvariant(steps[..k], c);
    if k == |steps| {
      assert steps[..k] == steps;
    } else {
      var front := steps[..|steps| - 1];
      assert front[..k] == steps[..k];
      ConversationsAreForEver(front, k, c);
      StepKeepsConversations(Run(front), steps[|steps| - 1], c);
      MembershipInvariant(steps, c);
    }
  }

  /** The pair of a direct conversation, and the key that leads to it. */
  lemma DirectPair(steps: seq<Step>, c: Id) returns (x: Id, y: Id)
    requires c in Run(steps).db.convs && Run(steps).db.convs[c].Direct?
    ensures var s := Run(steps);
            && c in s.db.participants && x != y && s.db.participants[c].Keys == {x, y}
            && Key(x, y) in s.db.lookup && s.db.lookup[Key(x, y)] == c
            && c in s.founders && s.founders[c] == [x, y]
  {
    Invariant(steps);
    x, y := FoundingPair(Run(steps).db, Run(steps).founders, c);
  }

  lemma FoundingPair(db: Db, founders: map<Id, seq<Id>>, c: Id) returns (x: Id, y: Id)
    requires Shaped(db.convs, db.participants, db.sequences.Keys, founders) && Indexed(db.convs, db.lookup, founders)
    requires c in db.convs && db.convs[c].Direct?
    ensures c in db.participants && x != y && db.participants[c].Keys == {x, y}
    ensures Key(x, y) in db.lookup && db.lookup[Key(x, y)] == c && c in founders && founders[c] == [x, y]
  {
    assert Governed(db.convs[c], founders[c], db.participants[c]);
    x, y := founders[c][0], founders[c][1];
  }

  lemma SamePairSameKey(a: Id, b: Id, x: Id, y: Id)
    requires {a, b} == {x, y} && x != y
    ensures Key(a, b) == Key(x, y)
  {
    assert a in {x, y} && b in {x, y} && x in {a, b} && y in {a, b};
    KeySymmetric(x, y);
  }

  /** No run holds two direct conversations of one pair, whatever the user ids look like. */
  lemma DirectPairsAreUnique(steps: seq<Step>, c: Id, d: Id)
    requires var db := Run(steps).db;
             && c in db.convs && d in db.convs && db.convs[c].Direct? && db.convs[d].Direct?
             && c in db.participants && d in db.participants && db.participants[c].Keys == db.participants[d].Keys
    ensures c == d
  {
    var a, b := DirectPair(steps, c);
    var x, y := DirectPair(steps, d);
    SamePairSameKey(a, b, x, y);
  }

  /** Creating a direct conversation for a pair that has one, under a fresh id and in either order, changes
      nothing and returns the first one. */
  lemma CreateReturnsExisting(steps: seq<Step>, c: Id, a: Id, b: Id, id: Id, idFirst: bool, now: int)
    requires c in Run(steps).db.convs && Run(steps).db.convs[c].Direct?
    requires c in Run(steps).db.participants && Run(steps).db.participants[c].Keys == {a, b}
    requires id != "" && id !in Run(steps).db.convs
    ensures Create(Run(steps).db, CreateCommand(id, Direct, [a, b]), idFirst, now) == (Run(steps).db, Ok(c))
    ensures Create(Run(steps).db, CreateCommand(id, Direct, [b, a]), idFirst, now) == (Run(steps).db, Ok(c))
  {
    var x, y := DirectPair(steps, c);
    SamePairSameKey(a, b, x, y);
    SamePairSameKey(b, a, x, y);
  }

  lemma LookupLeadsToPair(steps: seq<Step>, k: string) returns (x: Id, y: Id)
    requires k in Run(steps).db.lookup
    ensures var s := Run(steps);
            && s.db.lookup[k] in s.db.participants && s.db.participants[s.db.lookup[k]].Keys == {x, y}
            && k == Key(x, y) && s.db.lookup[k] in s.founders && s.founders[s.db.lookup[k]] == [x, y]
  {
    Invariant(steps);
    x, y := DirectPair(steps, Run(steps).db.lookup[k]);
  }

  /** For user ids without a colon, a direct conversation returned for a pair is a conversation of that pair. */
  lemma CreateReturnsThePair(steps: seq<Step>, a: Id, b: Id, id: Id, idFirst: bool, now: int)
    requires id !in Run(steps).db.convs && ColonFree(a) && ColonFree(b)
    requires forall c | c in Run(steps).founders :: forall u | u in Run(steps).founders[c] :: ColonFree(u)
    ensures var (db', r) := Create(Run(steps).db, CreateCommand(id, Direct, [a, b]), idFirst, now);
            r.Ok? ==> r.value in db'.participants && db'.participants[r.value].Keys == {a, b}
  {
    var db := Run(steps).db;
    if Key(a, b) in db.lookup {
      var x, y := LookupLeadsToPair(steps, Key(a, b));
      var us := Run(steps).founders[db.lookup[Key(a, b)]];
      assert us[0] == x && us[1] == y && x in us && y in us;
      KeyIdentifiesPair(a, b, x, y);
    } else if Distinct([a, b]) {
      RowsGoverned(Direct, [a, b]);
      assert SetOf([a, b]) == {a, b};
    }
  }

  /** The event log replays to the participants table. */
  lemma {:induction false} LogReplaysToTable(steps: seq<Step>, c: Id)
    ensures var db := Run(steps).db;
            Replay(db.outbox, c) == if c in db.participants then db.participants[c].Keys else {}
  {
    Invariant(steps);
  }

  /** Stored read positions stay below the counter, the newest message's number: nobody is ever recorded as having read
      it, and before the second message nobody as having read anything. */
  lemma {:induction false} ReadPositionsBounded(steps: seq<Step>, s: State, c: Id, u: Id)
    requires s == Run(steps) && c in s.db.participants && u in s.db.participants[c]
    ensures c in s.db.sequences && s.db.sequences[c] >= 0
    ensures s.db.participants[c][u].lastRead <= Max(0, s.db.sequences[c] - 1)
  {
    Invariant(steps);
    PositionBound(s, c, u);
  }

  lemma PositionBound(s: State, c: Id, u: Id)
    requires TablesInv(s) && c in s.db.participants && u in s.db.participants[c]
    ensures c in s.db.sequences && s.db.sequences[c] >= 0
    ensures s.db.participants[c][u].lastRead <= Max(0, s.db.sequences[c] - 1)
  {
    assert c in s.db.convs;
  }

  /** No step lowers the read position of a participant it keeps, or a counter. */
  lemma ReadPositionsGrow(s: State, st: Step, c: Id, u: Id)
    requires c in s.db.convs && c in s.db.participants && u in s.db.participants[c] && c in s.db.sequences
    ensures var t := Apply(s, st);
            && c in t.db.participants && c in t.db.sequences && s.db.sequences[c] <= t.db.sequences[c]
            && (u in t.db.participants[c] ==> s.db.participants[c][u].lastRead <= t.db.participants[c][u].lastRead)
  {
    if st.DoCreate? {
      CreateFrame(s.db, st.cmd, st.idFirst, st.now, c, Apply(s, st).db);
    }
  }

  ghost predicate TakesPart(db: Db, c: Id, u: Id) {
    c in db.convs && c in db.participants && u in db.participants[c] && c in db.sequences
  }

  /** Over any part of a run in which the user stays a participant, the read position does not fall. */
  lemma {:induction false} ReadPositionsNeverFall(steps: seq<Step>, k: nat, c: Id, u: Id)
    requires k <= |steps| && forall m {:trigger steps[..m]} | k <= m <= |steps| :: TakesPart(Run(steps[..m]).db, c, u)
    ensures TakesPart(Run(steps[..k]).db, c, u) && TakesPart(Run(steps).db, c, u)
    ensures Run(steps[..k]).db.participants[c][u].lastRead <= Run(steps).db.participants[c][u].lastRead
    ensures Run(steps[..k]).db.sequences[c] <= Run(steps).db.sequences[c]
    decreases |steps|
  {
    assert steps[..|steps|] == steps;
    if k < |steps| {
      var front := steps[..|steps| - 1];
      assert front[..k] == steps[..k];
      forall m {:trigger front[..m]} | k <= m <= |front| ensures TakesPart(Run(front[..m]).db, c, u) {
        assert front[..m] == steps[..m];
      }
      ReadPositionsNeverFall(front, k, c, u);
      ReadPositionsGrow(Run(front), steps[|steps| - 1], c, u);
    }
  }

  /** The clamp is one low: a receipt for a number that was given out is stored exactly when it lies below the
      newest one, or the position had passed it before. */
  lemma ReceiptStoredIff(db: Db, c: Id, u: Id, read: int, now: int)
    requires c in db.participants && u in db.participants[c] && c in db.sequences
    requires 1 <= read <= db.sequences[c]
    ensures var t := Receipt(db, c, u, read, now);
            && c in t.participants && u in t.participants[c]
            && (t.participants[c][u].lastRead >= read <==>
                read < db.sequences[c] || db.participants[c][u].lastRead >= read)
  {
  }

  /** A participant who has read the only message is recorded as having read none, and the event says -1 or less
      than it should. */
  lemma NewestReceiptIsLost() returns (steps: seq<Step>)
    ensures var db := Run(steps).db;
            && "c" in db.sequences && db.sequences["c"] == 1
            && "c" in db.participants && "u" in db.participants["c"]
            && Receipt(db, "c", "u", 1, 0).participants["c"]["u"].lastRead == 0
  {
    var create := DoCreate(CreateCommand("c", Group, ["u"]), true, 0);
    steps := [create, DoNext("c")];
    assert steps[..1] == [create] && [create][..0] == [];
    assert Distinct(["u"]);
    var s1 := Apply(INIT, create);
    assert Run([create]) == s1;
    assert "u" in ["u"];
    assert s1.db.participants["c"]["u"] == Participant(Admin, 0);
    assert Run(steps) == Apply(s1, DoNext("c"));
  }

  // ---------------------------------------------------------------- the service

  class Service {
    var convs: map<Id, Kind>
    var lookup: map<string, Id>
    var participants: map<Id, map<Id, Participant>>
    var sequences: map<Id, int>
    var outbox: seq<Envelope>

    ghost function Abs(): Db reads this {
      Db(convs, lookup, participants, sequences, outbox)
    }

    constructor ()
      ensures Abs() == EMPTY
    {
      convs, lookup, participants, sequences, outbox := map[], map[], map[], map[], [];
    }

    /** Inserts the participants one by one; a repeated user stops it. */
    method InsertParticipants(kind: Kind, users: seq<Id>) returns (ok: bool, rows: map<Id, Participant>)
      ensures ok <==> Distinct(users)
      ensures ok ==> rows == Rows(kind, users)
    {
      rows := map[];
      var i := 0;
      while i < |users|
        invariant 0 <= i <= |users|
        invariant Distinct(users[..i]) && rows.Keys == SetOf(users[..i])
        invariant forall u | u in rows ::
                    rows[u] == Participant(if kind.Group? && users[0] == u then Admin else Member, 0)
      {
        assert users[..i + 1] == users[..i] + [users[i]];
        if users[i] in rows {
          var k :| 0 <= k < i && users[..i][k] == users[i];
          return false, rows;
        }
        rows := rows[users[i] := Participant(if kind.Group? && i == 0 then Admin else Member, 0)];
        i := i + 1;
      }
      assert users[..i] == users;
      ok := true;
    }

    /** The inserts of one creation; the first one that violates a constraint stops it, and nothing is kept. */
    method DoCreateConversation(cmd: CreateCommand, now: int) returns (ok: bool)
      requires !Malformed(cmd)
      modifies this
      ensures ok <==> !Violates(old(Abs()), cmd)
      ensures Abs() == if ok then Created(old(Abs()), cmd, now) else old(Abs())
    {
      var key := LookupOf(cmd);
      if cmd.id in convs || (key.Some? && key.value in lookup) || cmd.id in sequences {
        return false;
      }
      var rows;
      ok, rows := InsertParticipants(cmd.kind, cmd.participants);
      if !ok || cmd.id in participants {
        return false;
      }
      convs := convs[cmd.id := cmd.kind];
      if key.Some? {
        lookup := lookup[key.value := cmd.id];
      }
      sequences := sequences[cmd.id := 0];
      participants := participants[cmd.id := rows];
      outbox := outbox + [Envelope(ConversationCreated(cmd.id, cmd.participants), now)];
    }

    /** The others' transactions commit. */
    method Others(rivals: seq<Step>)
      modifies this
      ensures Abs() == TablesAfter(old(Abs()), rivals)
    {
      var db := TablesAfter(Db(convs, lookup, participants, sequences, outbox), rivals);
      convs, lookup, participants, sequences, outbox := db.convs, db.lookup, db.participants, db.sequences, db.outbox;
    }

    /** One attempt, with whatever others commit between its checks and its inserts. `cached` says whether the Redis
        cache has the conversation of the id when it is refetched: then the row is found, and the call ends with an
        error still. */
    method CreateConversation(cmd: CreateCommand, idFirst: bool, rivals: seq<Step>, cached: bool, now: int)
      returns (r: Result<Id>, refetched: Option<Id>)
      modifies this
      ensures (Abs(), r) == CreateRacing(old(Abs()), cmd, idFirst, rivals, now)
      ensures refetched.Some? ==> r == Err(Constraint) && refetched == Some(cmd.id) && cmd.id in convs
      ensures r == Err(Constraint) && cached && cmd.id in convs ==> refetched.Some?
    {
      refetched := None;
      if Malformed(cmd) {
        return Err(InvalidInput), None;
      }
      var key := LookupOf(cmd);
      if cmd.id in convs && (idFirst || key.None? || key.value !in lookup) {
        return Ok(cmd.id), None;
      }
      if key.Some? && key.value in lookup {
        return Ok(lookup[key.value]), None;
      }
      Others(rivals);
      var done := DoCreateConversation(cmd, now);
      if done {
        return Ok(cmd.id), None;
      }
      // Statements of the failed transaction fail; the cache needs none, but then the commit fails.
      if cached && cmd.id in convs {
        refetched := Some(cmd.id);
      }
      r := Err(Constraint);
    }

    method AddParticipant(conv: Id, actor: Id, target: Id, now: int) returns (error: Option<Error>)
      modifies `participants, `outbox
      ensures (Abs(), error) == Add(old(Abs()), conv, actor, target, now)
    {
      if conv !in convs || conv !in participants {
        return Some(NotFound);
      }
      if !convs[conv].Group? {
        return Some(DirectModification);
      }
      if actor !in participants[conv] || !participants[conv][actor].role.Admin? {
        return Some(NotAdmin);
      }
      error := None;
      if target in participants[conv] {
        return;
      }
      participants := participants[conv := participants[conv][target := Participant(Member, 0)]];
      outbox := outbox + [Envelope(MembershipChanged(conv, target, true), now)];
    }

    /** Counts the admins by walking over the participants in any order. */
    method CountAdmins(ps: map<Id, Participant>) returns (count: nat)
      ensures count == |Admins(ps)|
    {
      count := 0;
      var left := ps.Keys;
      ghost var seen: set<Id> := {};
      while left != {}
        invariant left <= ps.Keys
        invariant seen == (set u | u in ps && u !in left && ps[u].role.Admin?) && count == |seen|
        decreases |left|
      {
        var u :| u in left;
        if ps[u].role.Admin? {
          count, seen := count + 1, seen + {u};
        }
        left := left - {u};
      }
      assert seen == Admins(ps);
    }

    method RemoveParticipant(conv: Id, actor: Id, target: Id, now: int) returns (error: Option<Error>)
      modifies `participants, `outbox
      ensures (Abs(), error) == Remove(old(Abs()), conv, actor, target, now)
    {
      if conv !in convs || conv !in participants {
        return Some(NotFound);
      }
      if !convs[conv].Group? {
        return Some(DirectModification);
      }
      if actor !in participants[conv] || !participants[conv][actor].role.Admin? {
        return Some(NotAdmin);
      }
      error := None;
      if target !in participants[conv] {
        return;
      }
      if participants[conv][target].role.Admin? {
        var adminCount := CountAdmins(participants[conv]);
        if adminCount <= 1 {
          return Some(LastAdmin);
        }
      }
      participants := participants[conv := participants[conv] - {target}];
      outbox := outbox + [Envelope(MembershipChanged(conv, target, false), now)];
    }

    method UpdateReadReceipt(conv: Id, user: Id, readSequence: int, now: int)
      modifies `participants, `outbox
      ensures Abs() == Receipt(old(Abs()), conv, user, readSequence, now)
    {
      var maxSeq := if conv in sequences then sequences[conv] - 1 else 0;
      var read := readSequence;
      if read > maxSeq {
        read := maxSeq;
      }
      if conv in participants && user in participants[conv] {
        var row := participants[conv][user];
        participants := participants[conv := participants[conv][user := row.(lastRead := Max(row.lastRead, read))]];
      }
      outbox := outbox + [Envelope(ReadReceiptUpdated(conv, user, read), now)];
    }

    method TakeNextSequence(conv: Id) returns (next: Option<int>)
      modifies `sequences
      ensures (Abs(), next) == NextSequence(old(Abs()), conv)
      ensures next.Some? ==> conv in sequences && next.value == sequences[conv] == old(sequences)[conv] + 1
    {
      if conv !in sequences {
        return None;
      }
      sequences := sequences[conv := sequences[conv] + 1];
      next := Some(sequences[conv]);
    }
  }
}
