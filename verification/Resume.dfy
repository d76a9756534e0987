/** A reconnecting client: registration, paged history and the hand-over to live events, interleaved
    with commits, with the handling of committed messages in any order and any number of times, with
    changes of the participants table, with failing calls, and with every step of the session itself.
    Whether a handling reaches the session is up to the dispatcher: it depends on the members it finds
    in its cache and on presence, not on the participants table. */
module Resume {
  import opened Events
  import opened History
  import P = SessionProtocol

  /** Where the paging loop stands: between conversations, about to ask for a page, or sending one. */
  datatype Cursor =
    | Idle
    | Ask(conv: Id, position: int)
    | Emit(conv: Id, position: int, rest: seq<Message>, full: bool)

  datatype Stage = Connecting | InRegistry | InPresence | Syncing(todo: map<Id, int>, cursor: Cursor)

  /** What happened so far, as far as the theorems speak of it. */
  datatype Past = Past(
    ever: set<Id>,          // conversations the user was ever a participant of
    synced: set<Id>,        // conversations that the resume set out to sync
    listed: set<Message>,   // their messages that were stored at that time
    refused: set<Id>,       // conversations in which a page request was not served
    paged: set<Message>,    // messages that a page request returned
    handled: set<Message>,  // messages that were handled
    routed: set<Message>,   // of these, those that some handling brought to the session
    missed: set<Message>)   // those that some handling after the listing did not bring

  datatype State = State(
    last: map<Id, int>,    // the client's last sequences
    store: set<Message>,   // committed messages
    table: set<Id>,        // the conversations that the participants table has the user in
    stage: Stage,
    session: P.State,
    past: Past)            // history variables

  datatype Step =
    | Commit(m: Message)
    | TableChanges(table: set<Id>)
    | Dispatch(m: Message, at: int, reached: bool)
    | DispatchOther(e: Envelope)
    | AddToRegistry
    | RegisterPresence
    | ListConversations(ok: bool)
    | StartConversation(conv: Id)
    | FetchPage(served: bool)
    | EmitOne
    | EndPage
    | Flush(order: seq<Envelope>)
    | InSession(st: P.Step)

  /** History events carry the time the message was sent, live ones the time of their event. */
  function HistoryEvent(m: Message): Envelope {
    Envelope(MessageSent(m), m.sentAt)
  }

  ghost predicate Initial(s: State) {
    && s.store == {} && s.stage == Connecting && s.session == P.INIT
    && s.past == Past(s.table, {}, {}, {}, {}, {}, {}, {})
  }

  ghost predicate Enabled(s: State, st: Step) {
    match st
    case Commit(m) => m.sequence > 0 && UniqueSequences(s.store + {m})
    case TableChanges(_) => true
    case Dispatch(m, _, reached) => m in s.store && (reached ==> !s.stage.Connecting? && m.conv in s.past.ever)
    case DispatchOther(e) => !s.stage.Connecting? && !e.body.MessageSent?
    case AddToRegistry => s.stage.Connecting?
    case RegisterPresence => s.stage.InRegistry?
    case ListConversations(_) => s.stage.InPresence?
    case StartConversation(c) => s.stage.Syncing? && s.stage.cursor.Idle? && c in s.stage.todo
    case FetchPage(served) =>
      && s.stage.Syncing? && s.stage.cursor.Ask? && UniqueSequences(s.store)
      && (served ==> s.stage.cursor.conv in s.past.ever)
    case EmitOne =>
      && s.stage.Syncing? && s.stage.cursor.Emit? && s.stage.cursor.rest != []
      && P.Enabled(s.session, P.HistoryLoad(HistoryEvent(s.stage.cursor.rest[0])))
    case EndPage =>
      && s.stage.Syncing? && s.stage.cursor.Emit? && s.stage.cursor.rest == [] && s.session.reader.None?
    case Flush(order) =>
      && s.stage.Syncing? && s.stage.cursor.Idle? && s.stage.todo == map[]
      && P.Enabled(s.session, P.BeginFlush(order))
    case InSession(st) =>
      !st.Arrive? && !st.HistoryLoad? && !st.BeginFlush? && P.Enabled(s.session, st)
  }

  /** What a handling adds to the past. */
  function Handling(past: Past, m: Message, reached: bool, listing: bool): Past {
    past.(handled := past.handled + {m},
          routed := if reached then past.routed + {m} else past.routed,
          missed := if !reached && listing then past.missed + {m} else past.missed)
  }

  /** The listing: the conversations to sync are the client's and, if the call succeeds, those of the table. */
  function Listed(s: State, ok: bool): State {
    var todo := ToSync(s.last, if ok then s.table else {});
    s.(stage := Syncing(todo, Idle),
       past := s.past.(synced := todo.Keys, listed := set m | m in s.store && m.conv in todo))
  }

  /** A page request. It is not served if a call fails, or if the participants that the message service is told of, some
      committed version of them, do not have the user; that or an empty page ends the conversation. */
  function Fetched(s: State, served: bool): State
    requires s.stage.Syncing? && s.stage.cursor.Ask? && UniqueSequences(s.store)
  {
    var Ask(c, position) := s.stage.cursor;
    if !served then
      s.(stage := s.stage.(cursor := Idle), past := s.past.(refused := s.past.refused + {c}))
    else
      var page := FetchMessages(s.store, c, position, ClampPageSize(PAGE_SIZE));
      if page == [] then s.(stage := s.stage.(cursor := Idle))
      else
        s.(stage := s.stage.(cursor := Emit(c, position, page, |page| == PAGE_SIZE)),
           past := s.past.(paged := s.past.paged + SetOf(page)))
  }

  function Apply(s: State, st: Step): State
    requires Enabled(s, st)
  {
    match st
    case Commit(m) => s.(store := s.store + {m})
    case TableChanges(table) => s.(table := table, past := s.past.(ever := s.past.ever + table))
    case Dispatch(m, at, reached) =>
      s.(past := Handling(s.past, m, reached, s.stage.Syncing?),
         session := if reached then P.Apply(s.session, P.Arrive(Envelope(MessageSent(m), at))) else s.session)
    case DispatchOther(e) => s.(session := P.Apply(s.session, P.Arrive(e)))
    case AddToRegistry => s.(stage := InRegistry)
    case RegisterPresence => s.(stage := InPresence)
    case ListConversations(ok) => Listed(s, ok)
    case StartConversation(c) =>
      s.(stage := Syncing(s.stage.todo - {c}, Ask(c, s.stage.todo[c])))
    case FetchPage(served) => Fetched(s, served)
    case EmitOne =>
      var Emit(c, position, rest, full) := s.stage.cursor;
      var position' := if rest[0].sequence > position then rest[0].sequence else position;
      s.(stage := s.stage.(cursor := Emit(c, position', rest[1..], full)),
         session := P.Apply(s.session, P.HistoryLoad(HistoryEvent(rest[0]))))
    case EndPage =>
      var Emit(c, position, _, full) := s.stage.cursor;
      s.(stage := s.stage.(cursor := if full then Ask(c, position) else Idle))
    case Flush(order) => s.(session := P.Apply(s.session, P.BeginFlush(order)))
    case InSession(st) => s.(session := P.Apply(s.session, st))
  }

  ghost predicate Next(s: State, t: State) {
    exists st: Step :: Enabled(s, st) && t == Apply(s, st)
  }

  ghost predicate StepAt(run: seq<State>, i: nat)
    requires i + 1 < |run|
  {
    Next(run[i], run[i + 1])
  }

  ghost predicate IsRun(run: seq<State>) {
    && |run| > 0 && Initial(run[0])
    && forall i: nat {:trigger StepAt(run, i)} | i + 1 < |run| :: StepAt(run, i)
  }

  // ---------------------------------------------------------------- invariant: the paging loop

  /** The paging loop still has the message ahead. */
  predicate Ahead(todo: map<Id, int>, cursor: Cursor, m: Message) {
    || m.conv in todo
    || (cursor.Ask? && cursor.conv == m.conv && m.sequence > cursor.position)
    || (cursor.Emit? && cursor.conv == m.conv && cursor.full && m.sequence > cursor.position
        && forall x | x in cursor.rest :: m.sequence > x.sequence)
  }

  /** A listed message above the client's position was paged, or is ahead, unless its conversation was refused. */
  ghost predicate Covered(last: map<Id, int>, store: set<Message>, stage: Stage, past: Past) {
    && past.listed <= store
    && (stage.Syncing? ==>
          && (forall c | c in stage.todo :: stage.todo[c] == LastOf(last, c))
          && forall m | m in past.listed && m.sequence > LastOf(last, m.conv) && m.conv !in past.refused ::
               m in past.paged || Ahead(stage.todo, stage.cursor, m))
  }

  /** A page request sees every message above the position, or fills up below it. */
  lemma FetchCovers(store: set<Message>, conv: Id, after: int, m: Message)
    requires UniqueSequences(store) && m in Matching(store, conv, after)
    ensures var page := FetchMessages(store, conv, after, PAGE_SIZE);
            m in page || (|page| == PAGE_SIZE && forall x | x in page :: m.sequence > x.sequence)
  {
    AboveSound(store, conv, after);
    AboveComplete(store, conv, after, m);
    var all := Above(store, conv, after);
    var i :| 0 <= i < |all| && all[i] == m;
  }

  lemma FetchCovered(s: State, served: bool, t: State)
    requires Covered(s.last, s.store, s.stage, s.past) && Enabled(s, FetchPage(served)) && t == Fetched(s, served)
    ensures Covered(t.last, t.store, t.stage, t.past)
  {
    var Ask(c, position) := s.stage.cursor;
    forall m | m in s.past.listed && m.conv == c && m.sequence > position
      ensures var page := FetchMessages(s.store, c, position, PAGE_SIZE);
              m in page || (|page| == PAGE_SIZE && forall x | x in page :: m.sequence > x.sequence)
    {
      FetchCovers(s.store, c, position, m);
    }
  }

  lemma LoopCovered(s: State, st: Step, t: State)
    requires st.StartConversation? || st.EmitOne? || st.EndPage? || st.ListConversations?
    requires Covered(s.last, s.store, s.stage, s.past) && Enabled(s, st) && t == Apply(s, st)
    ensures Covered(t.last, t.store, t.stage, t.past)
  {
    if st.EmitOne? {
      var rest := s.stage.cursor.rest;
      assert rest == [rest[0]] + rest[1..];
    }
  }

  // ---------------------------------------------------------------- invariant: the session

  /** What reached the session is what was paged and routed; what is paged was offered or is being sent. */
  ghost predicate Given(paged: set<Message>, routed: set<Message>, cursor: Cursor, p: P.State) {
    && (forall e | e in p.arrived && e.body.MessageSent? :: e.body.message in routed)
    && (forall e | e in p.offered :: e.body.MessageSent? && e.body.message in paged)
    && (cursor.Emit? ==> forall m | m in cursor.rest :: m in paged)
    && (forall m | m in routed :: Arrived(p, m))
    && (forall m | m in paged :: HistoryEvent(m) in p.offered || (cursor.Emit? && m in cursor.rest))
  }

  ghost predicate Arrived(p: P.State, m: Message) {
    exists at: int :: Envelope(MessageSent(m), at) in p.arrived
  }

  function CursorOf(stage: Stage): Cursor {
    if stage.Syncing? then stage.cursor else Idle
  }

  lemma ArriveGiven(paged: set<Message>, routed: set<Message>, cursor: Cursor, p: P.State, e: Envelope, q: P.State)
    requires Given(paged, routed, cursor, p) && q == P.Apply(p, P.Arrive(e))
    ensures Given(paged, if e.body.MessageSent? then routed + {e.body.message} else routed, cursor, q)
  {
    forall m | m in routed ensures Arrived(q, m) {
      var at: int :| Envelope(MessageSent(m), at) in p.arrived;
      assert Envelope(MessageSent(m), at) in q.arrived;
    }
    if e.body.MessageSent? {
      assert e == Envelope(MessageSent(e.body.message), e.occurredAt) && e in q.arrived;
    }
  }

  lemma EmitGiven(paged: set<Message>, routed: set<Message>, conv: Id, before: int, after: int, rest: seq<Message>,
                  full: bool, p: P.State, q: P.State)
    requires rest != [] && Given(paged, routed, Emit(conv, before, rest, full), p)
    requires q.arrived == p.arrived && q.offered == p.offered + [HistoryEvent(rest[0])]
    ensures Given(paged, routed, Emit(conv, after, rest[1..], full), q)
  {
    assert rest == [rest[0]] + rest[1..] && rest[0] in rest;
    forall m | m in routed ensures Arrived(q, m) {
      var at: int :| Envelope(MessageSent(m), at) in p.arrived;
      assert Envelope(MessageSent(m), at) in q.arrived;
    }
  }

  lemma SameGiven(paged: set<Message>, routed: set<Message>, cursor: Cursor, p: P.State, q: P.State)
    requires Given(paged, routed, cursor, p) && q.arrived == p.arrived && q.offered == p.offered
    ensures Given(paged, routed, cursor, q)
  {
    forall m | m in routed ensures Arrived(q, m) {
      var at: int :| Envelope(MessageSent(m), at) in p.arrived;
      assert Envelope(MessageSent(m), at) in q.arrived;
    }
  }

  lemma FetchGiven(s: State, served: bool, t: State)
    requires Enabled(s, FetchPage(served)) && t == Fetched(s, served)
    requires Given(s.past.paged, s.past.routed, CursorOf(s.stage), s.session)
    ensures Given(t.past.paged, t.past.routed, CursorOf(t.stage), t.session)
  {
  }

  lemma SessionFrame(p: P.State, st: P.Step)
    requires P.Enabled(p, st) && !st.Arrive? && !st.HistoryLoad? && !st.BeginFlush?
    ensures P.Apply(p, st).arrived == p.arrived && P.Apply(p, st).offered == p.offered
    ensures p.phase.Resuming? ==> P.Apply(p, st).phase.Resuming?
  {
  }

  lemma GivenStep(s: State, st: Step, t: State)
    requires Enabled(s, st) && t == Apply(s, st)
    requires Given(s.past.paged, s.past.routed, CursorOf(s.stage), s.session)
    ensures Given(t.past.paged, t.past.routed, CursorOf(t.stage), t.session)
  {
    match st {
      case Dispatch(m, at, reached) =>
        if reached {
          ArriveGiven(s.past.paged, s.past.routed, CursorOf(s.stage), s.session, Envelope(MessageSent(m), at),
              t.session);
        }
      case DispatchOther(e) =>
        ArriveGiven(s.past.paged, s.past.routed, CursorOf(s.stage), s.session, e, t.session);
      case FetchPage(served) => FetchGiven(s, served, t);
      case EmitOne =>
        var Emit(c, position, rest, full) := s.stage.cursor;
        EmitGiven(s.past.paged, s.past.routed, c, position, t.stage.cursor.position, rest, full, s.session, t.session);
      case InSession(inner) =>
        SessionFrame(s.session, inner);
        SameGiven(s.past.paged, s.past.routed, CursorOf(s.stage), s.session, t.session);
      case _ =>
        SameGiven(s.past.paged, s.past.routed, CursorOf(s.stage), s.session, t.session);
    }
  }

  // ---------------------------------------------------------------- invariant: what is known

  /** Whatever was paged or routed is committed and of a conversation the user was in; and what was handled was
      routed, or missed after the listing, or was there to be listed. */
  ghost predicate Sound(store: set<Message>, table: set<Id>, stage: Stage, past: Past) {
    && UniqueSequences(store) && table <= past.ever
    && (forall m | m in past.paged || m in past.routed :: m in store && m.conv in past.ever)
    && past.handled <= store
    && (stage.Syncing? ==>
          forall m | m in past.handled && m.conv in past.synced ::
              m in past.routed || m in past.missed || m in past.listed)
  }

  /** The hand-over begins when there is nothing left to sync. */
  predicate Phased(stage: Stage, p: P.State) {
    p.phase.Resuming? || (stage.Syncing? && stage.todo == map[] && stage.cursor.Idle?)
  }

  lemma FetchSound(s: State, served: bool, t: State)
    requires Sound(s.store, s.table, s.stage, s.past) && Enabled(s, FetchPage(served)) && t == Fetched(s, served)
    ensures Sound(t.store, t.table, t.stage, t.past)
  {
    var Ask(c, position) := s.stage.cursor;
    AboveSound(s.store, c, position);
    var page := FetchMessages(s.store, c, position, ClampPageSize(PAGE_SIZE));
    forall m | m in page ensures m in s.store && m.conv == c {
      var i :| 0 <= i < |page| && page[i] == m;
      assert Above(s.store, c, position)[i] == m;
    }
  }

  lemma SoundStep(s: State, st: Step, t: State)
    requires Sound(s.store, s.table, s.stage, s.past) && Enabled(s, st) && t == Apply(s, st)
    ensures Sound(t.store, t.table, t.stage, t.past)
  {
    if st.FetchPage? {
      FetchSound(s, st.served, t);
    }
  }

  lemma CoveredStep(s: State, st: Step, t: State)
    requires Covered(s.last, s.store, s.stage, s.past) && Enabled(s, st) && t == Apply(s, st)
    ensures Covered(t.last, t.store, t.stage, t.past)
  {
    if st.FetchPage? {
      FetchCovered(s, st.served, t);
    } else if st.StartConversation? || st.EmitOne? || st.EndPage? || st.ListConversations? {
      LoopCovered(s, st, t);
    }
  }

  lemma PhasedStep(s: State, st: Step, t: State)
    requires Phased(s.stage, s.session) && Enabled(s, st) && t == Apply(s, st)
    ensures Phased(t.stage, t.session)
  {
    if st.InSession? {
      SessionFrame(s.session, st.st);
    }
  }

  /** Whatever happens around it, the session takes one of its own steps or none. */
  lemma SessionStep(s: State, st: Step)
    requires Enabled(s, st)
    ensures Apply(s, st).session == s.session || P.Next(s.session, Apply(s, st).session)
  {
    match st {
      case Dispatch(m, at, _) => assert P.Enabled(s.session, P.Arrive(Envelope(MessageSent(m), at)));
      case DispatchOther(e) => assert P.Enabled(s.session, P.Arrive(e));
      case _ =>
    }
  }

  lemma SessionInv(s: State, st: Step)
    requires P.Inv(s.session) && Enabled(s, st)
    ensures P.Inv(Apply(s, st).session)
  {
    SessionStep(s, st);
    var p := Apply(s, st).session;
    if p != s.session {
      var inner :| P.Enabled(s.session, inner) && p == P.Apply(s.session, inner);
      P.InvStep(s.session, inner);
    }
  }

  // ---------------------------------------------------------------- invariant: history begins at the position

  /** History ascends in each conversation, so no event of it comes twice. */
  ghost predicate Ascends(offered: seq<Envelope>) {
    forall i, j | 0 <= i < j < |offered| && offered[i].body.MessageSent? && offered[j].body.MessageSent? ::
      offered[i].body.message.conv == offered[j].body.message.conv ==>
        offered[i].body.message.sequence < offered[j].body.message.sequence
  }

  /** What was offered of a conversation lies at or below a position. */
  ghost predicate UpTo(offered: seq<Envelope>, conv: Id, position: int) {
    forall k | 0 <= k < |offered| && offered[k].body.MessageSent? && offered[k].body.message.conv == conv ::
      offered[k].body.message.sequence <= position
  }

  ghost predicate NoneOf(offered: seq<Envelope>, conv: Id) {
    forall k | 0 <= k < |offered| && offered[k].body.MessageSent? :: offered[k].body.message.conv != conv
  }

  /** The rest of a page ascends above the position. */
  predicate Remaining(rest: seq<Message>, conv: Id, position: int) {
    && StrictlyAscending(rest)
    && forall k | 0 <= k < |rest| :: rest[k].conv == conv && rest[k].sequence > position
  }

  /** Between what was offered of the cursor's conversation and what is still to come lies the position, which is never
      below the one the client named. */
  ghost predicate Placed(last: map<Id, int>, stage: Stage, synced: set<Id>, offered: seq<Envelope>) {
    && (stage.Syncing? ==>
          && stage.todo.Keys <= synced
          && (forall c | c in stage.todo :: stage.todo[c] == LastOf(last, c) && NoneOf(offered, c))
          && (!stage.cursor.Idle? ==>
                && stage.cursor.conv in synced && stage.cursor.conv !in stage.todo
                && stage.cursor.position >= LastOf(last, stage.cursor.conv)
                && UpTo(offered, stage.cursor.conv, stage.cursor.position))
          && (stage.cursor.Emit? ==> Remaining(stage.cursor.rest, stage.cursor.conv, stage.cursor.position)))
    && (!stage.Syncing? ==> offered == [])
  }

  /** Every paged message lies above the position the client named, in a conversation to sync. */
  ghost predicate AbovePosition(last: map<Id, int>, stage: Stage, past: Past) {
    && (!stage.Syncing? ==> past.paged == {})
    && forall m | m in past.paged :: m.conv in past.synced && m.sequence > LastOf(last, m.conv)
  }

  ghost predicate Ranged(last: map<Id, int>, stage: Stage, past: Past, offered: seq<Envelope>) {
    Ascends(offered) && Placed(last, stage, past.synced, offered) && AbovePosition(last, stage, past)
  }

  lemma FetchedPage(store: set<Message>, conv: Id, after: int)
    requires UniqueSequences(store)
    ensures var page := FetchMessages(store, conv, after, PAGE_SIZE);
            Remaining(page, conv, after) && forall m | m in page :: m.conv == conv && m.sequence > after
  {
    AboveSound(store, conv, after);
    var page, all := FetchMessages(store, conv, after, PAGE_SIZE), Above(store, conv, after);
    forall k | 0 <= k < |page| ensures page[k].conv == conv && page[k].sequence > after {
      assert page[k] == all[k] && all[k] in Matching(store, conv, after);
    }
  }

  lemma FetchRanged(s: State, served: bool, t: State)
    requires Enabled(s, FetchPage(served)) && t == Fetched(s, served)
    requires Ranged(s.last, s.stage, s.past, s.session.offered)
    ensures Ranged(t.last, t.stage, t.past, t.session.offered)
  {
    FetchedPage(s.store, s.stage.cursor.conv, s.stage.cursor.position);
  }

  lemma EmitRanged(offered: seq<Envelope>, conv: Id, position: int, rest: seq<Message>)
    requires rest != [] && Ascends(offered) && UpTo(offered, conv, position) && Remaining(rest, conv, position)
    ensures var after := offered + [HistoryEvent(rest[0])];
            && Ascends(after) && UpTo(after, conv, rest[0].sequence) && Remaining(rest[1..], conv, rest[0].sequence)
            && forall c: Id | c != conv && NoneOf(offered, c) :: NoneOf(after, c)
  {
  }

  lemma EmitStep(s: State, t: State)
    requires Enabled(s, EmitOne) && t == Apply(s, EmitOne)
    requires Ranged(s.last, s.stage, s.past, s.session.offered)
    ensures Ranged(t.last, t.stage, t.past, t.session.offered)
  {
    var Emit(c, position, rest, _) := s.stage.cursor;
    EmitRanged(s.session.offered, c, position, rest);
    assert t.session.offered == s.session.offered + [HistoryEvent(rest[0])];
  }

  lemma StartStep(s: State, c: Id, t: State)
    requires Enabled(s, StartConversation(c)) && t == Apply(s, StartConversation(c))
    requires Ranged(s.last, s.stage, s.past, s.session.offered)
    ensures Ranged(t.last, t.stage, t.past, t.session.offered)
  {
  }

  lemma RangedStep(s: State, st: Step, t: State)
    requires Enabled(s, st) && t == Apply(s, st) && Ranged(s.last, s.stage, s.past, s.session.offered)
    ensures Ranged(t.last, t.stage, t.past, t.session.offered)
  {
    if st.FetchPage? {
      FetchRanged(s, st.served, t);
    } else if st.EmitOne? {
      EmitStep(s, t);
    } else if st.StartConversation? {
      StartStep(s, st.conv, t);
    } else if st.InSession? {
      SessionFrame(s.session, st.st);
    }
  }

  ghost predicate Inv(s: State) {
    && Sound(s.store, s.table, s.stage, s.past) && Covered(s.last, s.store, s.stage, s.past)
    && Given(s.past.paged, s.past.routed, CursorOf(s.stage), s.session) && Phased(s.stage, s.session)
    && Ranged(s.last, s.stage, s.past, s.session.offered) && P.Inv(s.session)
  }

  lemma InvStep(s: State, st: Step, t: State)
    requires Inv(s) && Enabled(s, st) && t == Apply(s, st)
    ensures Inv(t)
  {
    SoundStep(s, st, t);
    CoveredStep(s, st, t);
    GivenStep(s, st, t);
    PhasedStep(s, st, t);
    RangedStep(s, st, t);
    SessionInv(s, st);
  }

  lemma InitialInv(s: State)
    requires Initial(s)
    ensures Inv(s)
  {
  }

  lemma NextInv(s: State, t: State)
    requires Inv(s) && Next(s, t)
    ensures Inv(t)
  {
    var st :| Enabled(s, st) && t == Apply(s, st);
    InvStep(s, st, t);
  }

  lemma {:induction false} Invariant(run: seq<State>, i: nat)
    requires IsRun(run) && i < |run|
    ensures Inv(run[i])
  {
    if i == 0 {
      InitialInv(run[0]);
    } else {
      Invariant(run, i - 1);
      assert StepAt(run, i - 1);
      NextInv(run[i - 1], run[i]);
    }
  }

  // ---------------------------------------------------------------- theorems

  /** The hand-over is complete, the session open, and no call on it in progress. */
  ghost predicate Settled(p: P.State) {
    p.phase.Live? && !p.core.closed && P.Quiet(p)
  }

  ghost predicate Accepted(p: P.State, m: Message) {
    exists e :: e in P.Accepted(p) && e.body == MessageSent(m)
  }

  /** Once the hand-over is complete, a message was offered or brought exactly if it was paged or routed. */
  lemma GivenIff(s: State, m: Message)
    requires Inv(s) && s.session.phase.Live?
    ensures (exists e: Envelope :: e.body == MessageSent(m) && (e in s.session.offered || e in s.session.arrived)) <==>
            m in s.past.paged || m in s.past.routed
  {
    if m in s.past.routed {
      var at: int :| Envelope(MessageSent(m), at) in s.session.arrived;
      assert Envelope(MessageSent(m), at).body == MessageSent(m);
    } else if m in s.past.paged {
      assert HistoryEvent(m).body == MessageSent(m);
    }
  }

  lemma SettledAccepts(p: P.State, m: Message)
    requires P.Inv(p) && Settled(p)
    ensures Accepted(p, m) <==> exists e: Envelope :: e.body == MessageSent(m) && (e in p.offered || e in p.arrived)
  {
    P.QuietIsLossless(p);
    forall e: Envelope ensures e in P.Accepted(p) <==> e in p.offered || e in p.arrived {
      assert e in P.Accepted(p) <==> e in multiset(P.Accepted(p));
      assert e in p.offered <==> e in multiset(p.offered);
    }
  }

  /** What dispatchers have brought stays brought. */
  lemma ArrivedGrows(s: State, st: Step)
    requires Enabled(s, st)
    ensures s.session.arrived <= Apply(s, st).session.arrived
  {
    if st.InSession? {
      SessionFrame(s.session, st.st);
    }
  }

  /** Whatever event a dispatcher brought, an open session at rest has accepted it. */
  lemma ArrivedIsAccepted(s: State, e: Envelope)
    requires Inv(s) && Settled(s.session) && e in s.session.arrived
    ensures e in P.Accepted(s.session)
  {
    P.QuietIsLossless(s.session);
    assert e in multiset(P.Accepted(s.session));
  }

  lemma StateAcceptsIff(s: State, m: Message)
    requires Inv(s) && Settled(s.session)
    ensures Accepted(s.session, m) <==> m in s.past.paged || m in s.past.routed
  {
    GivenIff(s, m);
    SettledAccepts(s.session, m);
  }

  /** Exactly what the client gets: in an open session at rest the queue has accepted a message if and only if a page
      request returned it or a handling brought it. */
  lemma AcceptedIff(run: seq<State>, i: nat, m: Message)
    requires IsRun(run) && i < |run| && Settled(run[i].session)
    ensures Accepted(run[i].session, m) <==> m in run[i].past.paged || m in run[i].past.routed
  {
    Invariant(run, i);
    StateAcceptsIff(run[i], m);
  }

  lemma StateLosesNothing(s: State, m: Message)
    requires Inv(s) && s.session.phase.Live? && m.sequence > LastOf(s.last, m.conv)
    ensures m in s.past.listed && m.conv !in s.past.refused ==> m in s.past.paged
    ensures m in s.past.handled && m !in s.past.missed && m.conv in s.past.synced && m.conv !in s.past.refused ==>
              m in s.past.paged || m in s.past.routed
  {
  }

  /** Resume loses nothing. Once the hand-over is complete, every message above the position the client named was
      offered as history or brought by a handling, if its conversation was listed or named and every page request in it
      was served, and if the message was stored before the listing, also long before the user joined; or if it was
      handled and no handling after the listing passed the session by. */
  lemma ResumeLosesNothing(run: seq<State>, i: nat, m: Message)
    requires IsRun(run) && i < |run| && run[i].session.phase.Live?
    requires m.sequence > LastOf(run[i].last, m.conv)
    requires m.conv in run[i].past.synced && m.conv !in run[i].past.refused
    requires m in run[i].past.listed || (m in run[i].past.handled && m !in run[i].past.missed)
    ensures exists e: Envelope ::
              e.body == MessageSent(m) && (e in run[i].session.offered || e in run[i].session.arrived)
  {
    Invariant(run, i);
    StateLosesNothing(run[i], m);
    GivenIff(run[i], m);
  }

  /** The same up to the queue: in an open session at rest the message was accepted. */
  lemma ResumeDelivers(run: seq<State>, i: nat, m: Message)
    requires IsRun(run) && i < |run| && Settled(run[i].session)
    requires m.sequence > LastOf(run[i].last, m.conv)
    requires m.conv in run[i].past.synced && m.conv !in run[i].past.refused
    requires m in run[i].past.listed || (m in run[i].past.handled && m !in run[i].past.missed)
    ensures Accepted(run[i].session, m)
  {
    Invariant(run, i);
    StateLosesNothing(run[i], m);
    StateAcceptsIff(run[i], m);
  }

  /** What counts as handled, as brought to the session, and as missed after the listing. */
  lemma HandlingIs(s: State, st: Step, m: Message)
    requires Enabled(s, st)
    ensures var (before, after) := (s.past, Apply(s, st).past);
            var now := st.Dispatch? && st.m == m;
            && (m in after.handled <==> m in before.handled || now)
            && (m in after.routed <==> m in before.routed || (now && st.reached))
            && (m in after.missed <==> m in before.missed || (now && !st.reached && s.stage.Syncing?))
  {
  }

  /** The position that the client named for a conversation, and 0 for one that it did not name. */
  function Named(last: map<Id, int>, conv: Id): int {
    if conv in last then last[conv] else 0
  }

  /** What a page request does: served, it returns the stored messages of the conversation above the cursor's position
      before which there are fewer than 100; otherwise it returns nothing, and the conversation counts as refused. */
  lemma PageRequestIs(s: State, served: bool, t: State, m: Message)
    requires Enabled(s, FetchPage(served)) && t == Apply(s, FetchPage(served))
    ensures var Ask(c, position) := s.stage.cursor;
            && t.past.refused == s.past.refused + (if served then {} else {c})
            && (m in t.past.paged <==>
                (|| m in s.past.paged
                 || (&& served && m in s.store && m.conv == c && m.sequence > position
                     && |Lower(s.store, c, position, m)| < 100)))
  {
    PageHolds(s.store, s.stage.cursor.conv, s.stage.cursor.position, 100, m);
  }

  lemma StatePagesAbove(s: State, m: Message)
    requires Inv(s) && m in s.past.paged
    ensures m.conv in s.past.synced && m.sequence > Named(s.last, m.conv)
  {
  }

  /** A resume respects the client's position: in every run each message that a page request returned lies above the
      position the client named, in a conversation that was to be synced. */
  lemma PagedIsAbovePosition(run: seq<State>, i: nat, m: Message)
    requires IsRun(run) && i < |run| && m in run[i].past.paged
    ensures m.conv in run[i].past.synced && m.sequence > Named(run[i].last, m.conv)
  {
    Invariant(run, i);
    StatePagesAbove(run[i], m);
  }

  /** And history never repeats itself: it ascends strictly in each conversation, so each message is offered once at
      most. */
  lemma HistoryAscends(run: seq<State>, i: nat, m: Message)
    requires IsRun(run) && i < |run|
    ensures Ascends(run[i].session.offered)
    ensures multiset(run[i].session.offered)[HistoryEvent(m)] <= 1
  {
    Invariant(run, i);
    AscendingOnce(run[i].session.offered, HistoryEvent(m));
  }

  lemma {:induction false} AscendingOnce(offered: seq<Envelope>, e: Envelope)
    requires Ascends(offered) && e.body.MessageSent?
    ensures multiset(offered)[e] <= 1
  {
    if offered != [] {
      var front, x := offered[..|offered| - 1], offered[|offered| - 1];
      assert offered == front + [x];
      AscendingOnce(front, e);
      if x == e {
        assert e !in front;
      }
    }
  }

  function Of(paged: set<Message>, conv: Id): set<Message> {
    set m | m in paged && m.conv == conv
  }

  /** While the loop is about to ask for a page, the conversation's pages before were all full; and what was paged of it
      is at or below the position, or still to be sent. */
  ghost predicate FullSoFar(stage: Stage, paged: set<Message>) {
    && (!stage.Syncing? ==> paged == {})
    && (stage.Syncing? ==> forall m | m in paged :: m.conv !in stage.todo)
    && (stage.Syncing? && stage.cursor.Ask? ==>
          && |Of(paged, stage.cursor.conv)| % 100 == 0
          && forall m | m in paged && m.conv == stage.cursor.conv :: m.sequence <= stage.cursor.position)
    && (stage.Syncing? && stage.cursor.Emit? ==>
          && (stage.cursor.full <==> |Of(paged, stage.cursor.conv)| % 100 == 0)
          && forall m | m in paged && m.conv == stage.cursor.conv ::
               m.sequence <= stage.cursor.position || m in stage.cursor.rest)
  }

  lemma PageCounts(paged: set<Message>, conv: Id, position: int, page: seq<Message>)
    requires Remaining(page, conv, position)
    requires forall m | m in paged && m.conv == conv :: m.sequence <= position
    ensures |Of(paged + SetOf(page), conv)| == |Of(paged, conv)| + |page|
  {
    DistinctCount(page);
    assert Of(paged + SetOf(page), conv) == Of(paged, conv) + SetOf(page);
    assert Of(paged, conv) !! SetOf(page);
  }

  lemma FetchKeepsFull(s: State, served: bool, t: State)
    requires Enabled(s, FetchPage(served)) && t == Fetched(s, served) && s.stage.cursor.conv !in s.stage.todo
    requires FullSoFar(s.stage, s.past.paged)
    ensures FullSoFar(t.stage, t.past.paged)
  {
    var Ask(c, position) := s.stage.cursor;
    FetchedPage(s.store, c, position);
    PageCounts(s.past.paged, c, position, FetchMessages(s.store, c, position, PAGE_SIZE));
  }

  lemma StartKeepsFull(s: State, c: Id, t: State)
    requires Enabled(s, StartConversation(c)) && t == Apply(s, StartConversation(c))
    requires FullSoFar(s.stage, s.past.paged)
    ensures FullSoFar(t.stage, t.past.paged)
  {
    assert Of(s.past.paged, c) == {};
  }

  lemma FullStep(s: State, st: Step, t: State)
    requires Inv(s) && Enabled(s, st) && t == Apply(s, st) && FullSoFar(s.stage, s.past.paged)
    ensures FullSoFar(t.stage, t.past.paged)
  {
    if st.FetchPage? {
      FetchKeepsFull(s, st.served, t);
    } else if st.StartConversation? {
      StartKeepsFull(s, st.conv, t);
    }
  }

  /** A page that is not full is the last one of its conversation: in every run, when a page is about to be asked for,
      the pages before have together returned a multiple of 100 messages of the conversation. */
  lemma {:induction false} ShortPageIsLast(run: seq<State>, i: nat)
    requires IsRun(run) && i < |run|
    ensures FullSoFar(run[i].stage, run[i].past.paged)
    ensures run[i].stage.Syncing? && run[i].stage.cursor.Ask? ==>
              |set m | m in run[i].past.paged && m.conv == run[i].stage.cursor.conv| % 100 == 0
  {
    if i > 0 {
      ShortPageIsLast(run, i - 1);
      Invariant(run, i - 1);
      assert StepAt(run, i - 1);
      var st :| Enabled(run[i - 1], st) && run[i] == Apply(run[i - 1], st);
      FullStep(run[i - 1], st, run[i]);
    }
    assert run[i].stage.Syncing? && run[i].stage.cursor.Ask? ==>
        Of(run[i].past.paged, run[i].stage.cursor.conv)
        == set m | m in run[i].past.paged && m.conv == run[i].stage.cursor.conv;
  }

  lemma AcceptedIsKnown(s: State, e: Envelope)
    requires Inv(s) && e in P.Accepted(s.session) && e.body.MessageSent?
    ensures e.body.message in s.store && e.body.message.conv in s.past.ever
  {
    P.AcceptedWasGiven(s.session, e);
  }

  /** At every moment of every run, each message that the queue accepted is committed and belongs to a conversation
      that the user is or once was a participant of. */
  lemma ResumeInventsNothing(run: seq<State>, i: nat, e: Envelope)
    requires IsRun(run) && i < |run| && e in P.Accepted(run[i].session) && e.body.MessageSent?
    ensures e.body.message in run[i].store && e.body.message.conv in run[i].past.ever
  {
    Invariant(run, i);
    AcceptedIsKnown(run[i], e);
  }
}
