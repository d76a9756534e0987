/** Two runs in which a participant misses a message. In the first the instance's entry of the conversation lags behind
    the participants table, because additions and messages are published on two topics. In the second the entry has
    had the user, but a handling that missed before replaces it when its lookup comes back. */
module LaggingEntry {
  import opened Events
  import opened Paths
  import C = Conversation
  import D = Delivery
  import F = MessageFeed
  import M = MessageService
  import MP = MembershipPipeline
  import N = Dispatching
  import O = Outbox
  import P = SessionProtocol
  import R = Resume
  import S = Session
  import V = Convergence
  import W = MessagePipeline

  // ---------------------------------------------------------------- the client goes live

  const RELAY := O.State(O.AllOrNothing, 0, map[], map[], None, map[], [])
  const PARTIAL := O.PartialCommit(3)
  const ROSTER := MP.State(C.INIT, RELAY.(relay := PARTIAL))
  const FEED := F.State(M.State(M.Db(map[], map[], []), map[], map[], {}, map[], {}), RELAY)
  const NOTHING := R.Past({}, {}, {}, {}, {}, {}, {}, {})
  const LIVE := Client(R.Syncing(map[], R.Idle), P.INIT.(core := S.FRESH.(ready := true), phase := P.Live))

  /** The client in a stage of its resume, with nothing to sync. */
  function Client(stage: R.Stage, session: P.State): R.State {
    R.State(map[], {}, {}, stage, session, NOTHING)
  }

  function Alone(registered: bool, client: R.State): W.State {
    W.State("x", ROSTER, FEED, N.EMPTY, true, registered, client, {})
  }

  lemma Connected()
    ensures Path(Alone(true, Client(R.Syncing(map[], R.Idle), P.INIT)), Plain)
  {
    Start(Alone(false, Client(R.Connecting, P.INIT)));
    ClientMoves(Alone(false, Client(R.Connecting, P.INIT)), R.AddToRegistry, Client(R.InRegistry, P.INIT), Plain);
    ClientMoves(Alone(true, Client(R.InRegistry, P.INIT)), R.RegisterPresence, Client(R.InPresence, P.INIT), Plain);
    ClientMoves(Alone(true, Client(R.InPresence, P.INIT)), R.ListConversations(true),
                Client(R.Syncing(map[], R.Idle), P.INIT), Plain);
  }

  lemma GoesLive()
    ensures Path(Alone(true, LIVE), Plain)
  {
    Connected();
    var flushing := P.Apply(P.INIT, P.BeginFlush([]));
    ClientMoves(Alone(true, Client(R.Syncing(map[], R.Idle), P.INIT)), R.Flush([]),
                Client(R.Syncing(map[], R.Idle), flushing), Plain);
    ClientMoves(Alone(true, Client(R.Syncing(map[], R.Idle), flushing)), R.InSession(P.EndFlush), LIVE, Plain);
  }

  // ---------------------------------------------------------------- the conversation service

  const CREATED := Envelope(ConversationCreated("c", ["a"]), 0)
  const RECEIPT := Envelope(ReadReceiptUpdated("c", "a", -1), 0)
  const ADDED := Envelope(MembershipChanged("c", "x", true), 0)
  const FOUNDER := map["a" := C.Participant(C.Admin, 0)]
  const BOTH := FOUNDER["x" := C.Participant(C.Member, 0)]

  /** The service's tables with the participants and the log so far. */
  function Tables(ps: map<Id, C.Participant>, log: seq<Envelope>): C.State {
    C.State(C.Db(map["c" := C.Group], map[], map["c" := ps], map["c" := 0], log), map["c" := ["a"]])
  }

  function Fresh(e: Envelope): O.Row {
    O.Row(e, 0, false)
  }

  const CREATE := MP.Serve(C.DoCreate(C.CreateCommand("c", C.Group, ["a"]), true, 0), 0)
  const READ := MP.Serve(C.DoReceipt("c", "a", 0, 0), 1)
  const ADD := MP.Serve(C.DoAdd("c", "a", "x", 0), 2)

  const TWO := O.State(PARTIAL, 2, map[0 := Fresh(CREATED), 1 := Fresh(RECEIPT)], map[], None,
                       map[0 := CREATED, 1 := RECEIPT], [])
  const TWO_OUT := TWO.(tx := Some(O.Tx([0, 1], 2, false)), history := [O.Published(0), O.Published(1)])
  const THREE := O.State(PARTIAL, 3, TWO_OUT.outbox[2 := Fresh(ADDED)], map[], TWO_OUT.tx, TWO_OUT.log[2 := ADDED],
                         TWO_OUT.history)
  const THREE_DONE := THREE.(tx := None, outbox := map[0 := O.Row(CREATED, 0, true), 1 := O.Row(RECEIPT, 0, true),
                                                      2 := Fresh(ADDED)])
  const THREE_OUT := THREE_DONE.(tx := Some(O.Tx([2], 1, false)),
                                 history := [O.Published(0), O.Published(1), O.Published(2)])

  lemma Founds()
    ensures MP.Enabled(ROSTER, CREATE)
    ensures MP.Apply(ROSTER, CREATE) == MP.State(Tables(FOUNDER, [CREATED]), Holding(PARTIAL, CREATED, None, false, []))
  {
    var cmd := C.CreateCommand("c", C.Group, ["a"]);
    assert C.Rows(C.Group, ["a"]) == FOUNDER;
    assert C.Create(C.EMPTY, cmd, true, 0).0 == Tables(FOUNDER, [CREATED]).db;
  }

  lemma Reads()
    ensures var s := MP.State(Tables(FOUNDER, [CREATED]), Holding(PARTIAL, CREATED, None, false, []));
            MP.Enabled(s, READ) && MP.Apply(s, READ) == MP.State(Tables(FOUNDER, [CREATED, RECEIPT]), TWO)
  {
    var db := Tables(FOUNDER, [CREATED]).db;
    assert C.Clamp(db, "c", 0) == -1;
    assert C.Max(0, -1) == 0 && db.participants["c"]["a" := C.Participant(C.Admin, 0)] == FOUNDER;
    assert C.UpdateLastRead(db.participants, "c", "a", -1) == db.participants;
    assert [CREATED] + [RECEIPT] == [CREATED, RECEIPT];
    assert C.Receipt(db, "c", "a", 0, 0) == Tables(FOUNDER, [CREATED, RECEIPT]).db;
  }

  lemma Adds()
    ensures var s := MP.State(Tables(FOUNDER, [CREATED, RECEIPT]), TWO_OUT);
            MP.Enabled(s, ADD) && MP.Apply(s, ADD) == MP.State(Tables(BOTH, [CREATED, RECEIPT, ADDED]), THREE)
  {
    var db := Tables(FOUNDER, [CREATED, RECEIPT]).db;
    assert [CREATED, RECEIPT] + [ADDED] == [CREATED, RECEIPT, ADDED];
    assert C.Added(db, "c", "x", 0) == Tables(BOTH, [CREATED, RECEIPT, ADDED]).db;
  }

  lemma NotYetIn(log: seq<Envelope>)
    ensures W.TableOf(Tables(FOUNDER, log).db, "x") == {} && W.TableOf(Tables(BOTH, log).db, "x") == {"c"}
  {
    assert "x" in BOTH && "c" in Tables(BOTH, log).db.participants;
    assert "c" in W.TableOf(Tables(BOTH, log).db, "x");
  }

  const TWO_OPEN := TWO.(tx := Some(O.Tx([0, 1], 0, false)))
  const ONE_OUT := TWO.(tx := Some(O.Tx([0, 1], 1, false)), history := [O.Published(0)])

  /** The relay publishes the creation and a receipt. */
  lemma PublishesTwo()
    ensures O.Enabled(TWO, O.Begin(2)) && O.Apply(TWO, O.Begin(2)) == TWO_OPEN
    ensures O.Enabled(TWO_OPEN, O.PublishOk) && O.Apply(TWO_OPEN, O.PublishOk) == ONE_OUT
    ensures O.Enabled(ONE_OUT, O.PublishOk) && O.Apply(ONE_OUT, O.PublishOk) == TWO_OUT
  {
    assert O.PendingIds(TWO.outbox, 1, 2) == [1] + O.PendingIds(TWO.outbox, 2, 2);
    assert O.PendingIds(TWO.outbox, 0, 2) == [0] + O.PendingIds(TWO.outbox, 1, 2);
    assert O.Batch(TWO.outbox, 2, 2) == [0, 1];
    assert [O.Published(0)] + [O.Published(1)] == [O.Published(0), O.Published(1)];
  }

  const THREE_OPEN := THREE_DONE.(tx := Some(O.Tx([2], 0, false)))

  lemma CommitsTwo()
    ensures O.Enabled(THREE, O.Commit) && O.Apply(THREE, O.Commit) == THREE_DONE
  {
    assert [0, 1][..2] == [0, 1];
    assert 0 in [0, 1] && 1 in [0, 1] && 2 !in [0, 1];
    assert O.MarkProcessed(THREE.outbox, [0, 1]) == THREE_DONE.outbox;
  }

  lemma ThirdIsNext()
    ensures O.Batch(THREE_DONE.outbox, 3, 1) == [2]
  {
    assert O.PendingIds(THREE_DONE.outbox, 2, 3) == [2] + O.PendingIds(THREE_DONE.outbox, 3, 3);
    assert O.PendingIds(THREE_DONE.outbox, 1, 3) == O.PendingIds(THREE_DONE.outbox, 2, 3);
    assert O.PendingIds(THREE_DONE.outbox, 0, 3) == O.PendingIds(THREE_DONE.outbox, 1, 3);
  }

  /** It commits that batch, and publishes the addition. */
  lemma PublishesThird()
    ensures O.Enabled(THREE_DONE, O.Begin(1)) && O.Apply(THREE_DONE, O.Begin(1)) == THREE_OPEN
    ensures O.Enabled(THREE_OPEN, O.PublishOk) && O.Apply(THREE_OPEN, O.PublishOk) == THREE_OUT
  {
    ThirdIsNext();
    assert [O.Published(0), O.Published(1)] + [O.Published(2)] == [O.Published(0), O.Published(1), O.Published(2)];
  }

  lemma Records()
    ensures O.Stream([O.Published(0)]) == [0]
    ensures O.Stream([O.Published(0), O.Published(1)]) == [0, 1]
    ensures O.Stream([O.Published(0), O.Published(1), O.Published(2)]) == [0, 1, 2]
  {
    var h := [O.Published(0), O.Published(1), O.Published(2)];
    assert h[..2] == [O.Published(0), O.Published(1)] && h[..2][..1] == [O.Published(0)] && [O.Published(0)][..0] == [];
    assert [O.Published(0), O.Published(1)][..1] == [O.Published(0)];
  }

  /** The live client and the service, with the creation and the receipt published. */
  function Founded(cache: N.State): W.State {
    Alone(true, LIVE).(roster := MP.State(Tables(FOUNDER, [CREATED, RECEIPT]), TWO_OUT), cache := cache)
  }

  lemma ServiceFounds()
    ensures Path(Alone(true, LIVE).(roster := MP.State(Tables(FOUNDER, [CREATED, RECEIPT]), TWO)), Plain)
  {
    var s := Alone(true, LIVE);
    GoesLive();
    Founds();
    NotYetIn([CREATED]);
    RosterMoves(s, CREATE, MP.State(Tables(FOUNDER, [CREATED]), Holding(PARTIAL, CREATED, None, false, [])));
    s := s.(roster := MP.State(Tables(FOUNDER, [CREATED]), Holding(PARTIAL, CREATED, None, false, [])));
    Reads();
    NotYetIn([CREATED, RECEIPT]);
    RosterMoves(s, READ, MP.State(Tables(FOUNDER, [CREATED, RECEIPT]), TWO));
  }

  lemma ServicePublishes()
    ensures Path(Founded(N.EMPTY), Plain)
  {
    var s := Alone(true, LIVE);
    var tables := Tables(FOUNDER, [CREATED, RECEIPT]);
    ServiceFounds();
    PublishesTwo();
    NotYetIn([CREATED, RECEIPT]);
    RosterMoves(s.(roster := MP.State(tables, TWO)), MP.Relay(O.Begin(2)), MP.State(tables, TWO_OPEN));
    RosterMoves(s.(roster := MP.State(tables, TWO_OPEN)), MP.Relay(O.PublishOk), MP.State(tables, ONE_OUT));
    RosterMoves(s.(roster := MP.State(tables, ONE_OUT)), MP.Relay(O.PublishOk), MP.State(tables, TWO_OUT));
  }

  /** The user has joined; the addition may be published or not. */
  function InTable(relay: O.State, cache: N.State): W.State {
    Alone(true, Seeing(LIVE, {"c"})).(roster := MP.State(Tables(BOTH, [CREATED, RECEIPT, ADDED]), relay),
        cache := cache)
  }

  lemma Joins(cache: N.State)
    requires Path(Founded(cache), Plain)
    ensures Path(InTable(THREE, cache), Plain)
  {
    Adds();
    NotYetIn([CREATED, RECEIPT, ADDED]);
    RosterMoves(Founded(cache), ADD, MP.State(Tables(BOTH, [CREATED, RECEIPT, ADDED]), THREE));
  }

  lemma AdditionPublished(cache: N.State)
    requires Path(InTable(THREE, cache), Plain)
    ensures Path(InTable(THREE_OUT, cache), Plain)
  {
    var tables := Tables(BOTH, [CREATED, RECEIPT, ADDED]);
    CommitsTwo();
    PublishesThird();
    NotYetIn([CREATED, RECEIPT, ADDED]);
    RosterMoves(InTable(THREE, cache), MP.Relay(O.Commit), MP.State(tables, THREE_DONE));
    RosterMoves(InTable(THREE_DONE, cache), MP.Relay(O.Begin(1)), MP.State(tables, THREE_OPEN));
    RosterMoves(InTable(THREE_OPEN, cache), MP.Relay(O.PublishOk), MP.State(tables, THREE_OUT));
  }

  // ---------------------------------------------------------------- a message is stored and published

  const MESSAGE := Message("m", "c", "a", 1, "text", "", "", 0)
  const SENT := Envelope(MessageSent(MESSAGE), 0)
  const KEY := M.Key("k", "a", "c")
  const STORED := M.State(M.Db(map[KEY := Some(MESSAGE)], map["m" := M.Row(MESSAGE, false)], [SENT]),
                          map["c" := 1], map[], {}, map["m" := KEY], {(KEY, MESSAGE)})

  /** A relay's table with one event in it: inserted, in a batch, published, and processed. */
  function Holding(relay: O.Relay, e: Envelope, tx: Option<O.Tx>, processed: bool, history: seq<O.Entry>): O.State {
    O.State(relay, 1, map[0 := O.Row(e, 0, processed)], map[], tx, map[0 := e], history)
  }

  lemma FirstBatch(relay: O.Relay, e: Envelope)
    ensures O.Batch(Holding(relay, e, None, false, []).outbox, 1, 1) == [0]
  {
    var outbox := Holding(relay, e, None, false, []).outbox;
    assert O.PendingIds(outbox, 0, 1) == [0] + O.PendingIds(outbox, 1, 1);
  }

  lemma Takes() returns (counted: M.State, held: M.State)
    ensures M.Enabled(FEED.service, M.CreateCounter("c")) && counted == M.Apply(FEED.service, M.CreateCounter("c"))
    ensures M.Enabled(counted, M.TakeSequence(0, "c")) && held == M.Apply(counted, M.TakeSequence(0, "c"))
    ensures held == M.State(M.Db(map[], map[], []), map["c" := 1], map[0 := M.Ticket("c", 1)], {}, map[], {})
    ensures counted.db == M.Db(map[], map[], [])
  {
    counted := M.Apply(FEED.service, M.CreateCounter("c"));
    held := M.Apply(counted, M.TakeSequence(0, "c"));
  }

  const COMMAND := M.SendCommand(KEY, "text", "", "")
  const ENV := M.Env(true, false, false, Some(["a"]), Some(1), None, "m", 0, 0, M.Applied)

  lemma Inserts(held: M.State)
    requires held == M.State(M.Db(map[], map[], []), map["c" := 1], map[0 := M.Ticket("c", 1)], {}, map[], {})
    ensures M.Enabled(held, M.Send(COMMAND, ENV, 0)) && M.Apply(held, M.Send(COMMAND, ENV, 0)) == STORED
  {
    assert COMMAND.key.user in ENV.participants.value;
    assert M.NewMessage("m", COMMAND, 1, 0) == M.Ok(MESSAGE);
    assert M.Insert(held.db, KEY, MESSAGE, 0) == STORED.db;
    assert M.SendBody(held.db, COMMAND, ENV) == M.Ok((STORED.db, MESSAGE));
    assert "m" in STORED.db.messages.Keys;
    assert held.inflight - {0} == map[];
  }

  lemma OneStored()
    ensures F.StoreOf(STORED.db.messages) == {MESSAGE}
  {
    assert "m" in STORED.db.messages && STORED.db.messages["m"].message in F.StoreOf(STORED.db.messages);
  }

  /** A relay with one event: a batch opens, the event is published, and the batch commits. */
  lemma OneEvent(relay: O.Relay, e: Envelope)
    ensures var pending := Holding(relay, e, None, false, []);
            var open := Holding(relay, e, Some(O.Tx([0], 0, false)), false, []);
            var published := Holding(relay, e, Some(O.Tx([0], 1, false)), false, [O.Published(0)]);
            && O.Enabled(pending, O.Begin(1)) && O.Apply(pending, O.Begin(1)) == open
            && O.Enabled(open, O.PublishOk) && O.Apply(open, O.PublishOk) == published
            && O.Enabled(published, O.Commit)
            && O.Apply(published, O.Commit) == Holding(relay, e, None, true, [O.Published(0)])
  {
    FirstBatch(relay, e);
    var published := Holding(relay, e, Some(O.Tx([0], 1, false)), false, [O.Published(0)]);
    assert O.MarkProcessed(published.outbox, [0][..1]) == Holding(relay, e, None, true, []).outbox;
  }

  /** Nothing is stored yet, and the instance knows only the founder of the conversation. */
  predicate Ready(s: W.State) {
    && s.user == "x" && s.feed == FEED && s.cache == N.State(map["c" := {"a"}], map[])
    && s.present && s.registered && s.client.store == {} && s.handled == {}
  }

  lemma Counts(s: W.State, mark: Mark) returns (held: M.State)
    requires Path(s, mark) && Ready(s)
    ensures held == M.State(M.Db(map[], map[], []), map["c" := 1], map[0 := M.Ticket("c", 1)], {}, map[], {})
    ensures Path(s.(feed := F.State(held, RELAY)), mark)
  {
    var counted;
    counted, held := Takes();
    FeedMoves(s, F.Serve(M.CreateCounter("c"), 0), F.State(counted, RELAY), mark);
    FeedMoves(s.(feed := F.State(counted, RELAY)), F.Serve(M.TakeSequence(0, "c"), 0), F.State(held, RELAY), mark);
  }

  function Storing(s: W.State, relay: O.State): W.State {
    s.(feed := F.State(STORED, relay), client := s.client.(store := {MESSAGE}))
  }

  lemma Sends(s: W.State, mark: Mark)
    requires Path(s, mark) && Ready(s)
    ensures Path(Storing(s, Holding(O.AllOrNothing, SENT, None, false, [])), mark)
  {
    var held := Counts(s, mark);
    Inserts(held);
    OneStored();
    FeedMoves(s.(feed := F.State(held, RELAY)), F.Serve(M.Send(COMMAND, ENV, 0), 0),
              F.State(STORED, Holding(O.AllOrNothing, SENT, None, false, [])), mark);
  }

  const SENT_OUT := Holding(O.AllOrNothing, SENT, None, true, [O.Published(0)])

  lemma Relays(s: W.State, mark: Mark)
    requires Path(s, mark) && Ready(s)
    ensures Path(Storing(s, SENT_OUT), mark)
  {
    Sends(s, mark);
    OneEvent(O.AllOrNothing, SENT);
    OneStored();
    var pending := Holding(O.AllOrNothing, SENT, None, false, []);
    var open := Holding(O.AllOrNothing, SENT, Some(O.Tx([0], 0, false)), false, []);
    var published := Holding(O.AllOrNothing, SENT, Some(O.Tx([0], 1, false)), false, [O.Published(0)]);
    RelayMoves(Storing(s, pending), O.Begin(1), open, mark);
    RelayMoves(Storing(s, open), O.PublishOk, published, mark);
    RelayMoves(Storing(s, published), O.Commit, SENT_OUT, mark);
  }

  // ---------------------------------------------------------------- and passes the participant by

  /** The message is handled: a hit without the user. */
  lemma PassesBy(s: W.State, mark: Mark) returns (t: W.State)
    requires Path(s, mark) && Ready(s)
    ensures Path(t, mark) && t.feed == F.State(STORED, SENT_OUT) && t.cache == s.cache && t.handled == {0}
    ensures t.user == s.user && t.roster == s.roster && t.present && t.registered
    ensures t.client.session == s.client.session && t.client.last == s.client.last
  {
    var r := Storing(s, SENT_OUT);
    Relays(s, mark);
    MessageIsFirst(r);
    SameEntry(s.cache);
    Handles(r, 0, N.Messages, 0, SENT, {"a"}, mark);
    t := r.(client := W.Handled(r.client, SENT, false), handled := {0});
  }

  lemma MessageIsFirst(s: W.State)
    requires s.feed.relay == SENT_OUT
    ensures W.Record(s, N.Messages, 0) == Some(SENT)
  {
    Records();
  }

  lemma SameEntry(cache: N.State)
    requires cache == N.State(map["c" := {"a"}], map[])
    ensures N.Entry(cache, "c") == {"a"} && cache.(entries := cache.entries["c" := {"a"}]) == cache
  {
  }

  /** Everything is at rest, the user is a participant and has a live session, and its queue has not got the message. */
  ghost predicate Missed(s: W.State) {
    && D.AtRest(s) && "c" in W.TableOf(s.roster.service.db, s.user) && s.client.last == map[]
    && "m" in s.feed.service.db.messages && s.feed.service.db.messages["m"].message.conv == "c"
    && !R.Accepted(s.client.session, s.feed.service.db.messages["m"].message)
  }

  lemma NothingAccepted(s: W.State)
    requires s.feed == F.State(STORED, SENT_OUT) && 0 in s.handled && s.cache.handlings == map[]
    requires R.Settled(s.client.session) && !R.Accepted(s.client.session, MESSAGE)
    requires "c" in W.TableOf(s.roster.service.db, s.user) && s.client.last == map[]
    ensures Missed(s)
  {
    Records();
  }

  // ---------------------------------------------------------------- the first run

  lemma LearnsFounder()
    ensures Path(Founded(N.State(map["c" := {"a"}], map[])), Plain)
  {
    ServicePublishes();
    Records();
    var s := Founded(N.EMPTY);
    assert W.Record(s, N.Conversations, 0) == Some(CREATED);
    assert SetOf(["a"]) == {"a"};
    Handles(s, 0, N.Conversations, 0, CREATED, {"a"}, Plain);
    assert s.cache.entries["c" := {"a"}] == map["c" := {"a"}];
  }

  /** The run: the session is live, then the user joins, then a message is stored, published and handled, everything
      goes well, and the session has not got the message, because the addition is not handled yet. */
  lemma ParticipantMissesMessage() returns (s: W.State)
    ensures Path(s, Joined) && Missed(s)
  {
    LearnsFounder();
    var cache := N.State(map["c" := {"a"}], map[]);
    Joins(cache);
    NotYetIn([CREATED, RECEIPT, ADDED]);
    MarkNow(InTable(THREE, cache), Joined);
    s := PassesBy(InTable(THREE, cache), Joined);
    NothingAccepted(s);
  }

  // ---------------------------------------------------------------- the second run

  const WAITING := N.Handling(N.Conversations, 1, RECEIPT, N.Missed)

  /** The receipt is handled first: it misses, and its lookup is sent when the founder is alone. */
  lemma Misses()
    ensures Path(Founded(N.State(map["c" := {}], map[0 := WAITING])), Plain)
  {
    ServicePublishes();
    Records();
    var s := Founded(N.EMPTY);
    assert W.Record(s, N.Conversations, 1) == Some(RECEIPT);
    Begins(s, 0, N.Conversations, 1, RECEIPT, Plain);
    var t := Founded(N.State(map["c" := {}], map[]));
    var h := WAITING.(phase := N.Resolving);
    assert s.cache.entries["c" := {}] == map["c" := {}];
    Resolves(t, 0, h, Plain);
    assert t.cache.handlings[0 := WAITING] == map[0 := WAITING];
  }

  function WithEntry(members: set<Id>, client: R.State): W.State {
    InTable(THREE_OUT, N.State(map["c" := members], map[0 := WAITING])).(client := client)
  }

  const OFFERED := Seeing(LIVE, {"c"}).(session := P.Apply(LIVE.session, P.Arrive(ADDED)))

  lemma JoinsMeanwhile()
    ensures Path(WithEntry({}, Seeing(LIVE, {"c"})), Plain)
  {
    Misses();
    Joins(N.State(map["c" := {}], map[0 := WAITING]));
    AdditionPublished(N.State(map["c" := {}], map[0 := WAITING]));
  }

  lemma AdditionIsThird(s: W.State)
    requires s.roster.relay == THREE_OUT
    ensures W.Record(s, N.Conversations, 2) == Some(ADDED)
  {
    Records();
  }

  /** The user joins, and the addition is handled: the entry has the user, and the session is offered the event. */
  lemma Enters()
    ensures Path(WithEntry({"x"}, OFFERED), Plain)
  {
    JoinsMeanwhile();
    var s := WithEntry({}, Seeing(LIVE, {"c"}));
    AdditionIsThird(s);
    Handles(s, 1, N.Conversations, 2, ADDED, {"x"}, Plain);
    assert s.cache.entries["c" := {"x"}] == map["c" := {"x"}];
  }

  const BUFFERED := P.Apply(OFFERED.session, P.BufferCall(ADDED))
  const LOADED := P.Apply(BUFFERED, P.LoadClosed(ADDED))
  const TAKEN := P.Apply(LOADED, P.Select(ADDED))

  lemma SessionTakes()
    ensures P.Enabled(OFFERED.session, P.BufferCall(ADDED)) && P.Enabled(BUFFERED, P.LoadClosed(ADDED))
    ensures P.Enabled(LOADED, P.Select(ADDED)) && R.Settled(TAKEN) && P.Accepted(TAKEN) == [ADDED]
  {
    assert multiset{ADDED} - multiset{ADDED} == multiset{};
  }

  /** The session takes the event up. */
  lemma TakesUp()
    ensures Path(WithEntry({"x"}, OFFERED.(session := TAKEN)), Plain)
  {
    Enters();
    SessionTakes();
    ClientMoves(WithEntry({"x"}, OFFERED), R.InSession(P.BufferCall(ADDED)), OFFERED.(session := BUFFERED), Plain);
    ClientMoves(WithEntry({"x"}, OFFERED.(session := BUFFERED)), R.InSession(P.LoadClosed(ADDED)),
                OFFERED.(session := LOADED), Plain);
    ClientMoves(WithEntry({"x"}, OFFERED.(session := LOADED)), R.InSession(P.Select(ADDED)),
                OFFERED.(session := TAKEN), Plain);
  }

  lemma FounderAlone()
    ensures V.Members(THREE_OUT.log, 2, "c") == {"a"}
  {
    assert V.Members(THREE_OUT.log, 1, "c") == C.Step1(V.Members(THREE_OUT.log, 0, "c"), CREATED.body, "c");
    assert SetOf(["a"]) == {"a"};
    assert V.Members(THREE_OUT.log, 2, "c") == C.Step1(V.Members(THREE_OUT.log, 1, "c"), RECEIPT.body, "c");
  }

  const EVICTED := InTable(THREE_OUT, N.State(map["c" := {"a"}], map[])).(client := OFFERED.(session := TAKEN))

  lemma EntersMarked()
    ensures Path(WithEntry({"x"}, OFFERED.(session := TAKEN)), Entered)
  {
    TakesUp();
    SessionTakes();
    NotYetIn([CREATED, RECEIPT, ADDED]);
    MarkNow(WithEntry({"x"}, OFFERED.(session := TAKEN)), Entered);
  }

  lemma CanLoad(s: W.State)
    requires s.user == "x" && s.roster.relay == THREE_OUT && s.cache == N.State(map["c" := {"x"}], map[0 := WAITING])
    requires s.present && s.registered
    ensures W.Acts(s, 0, W.Load(Some(2))) && Calm(s, W.Handle(0, W.Load(Some(2))))
    ensures W.Inner(s, 0, W.Load(Some(2))) == N.Load(0, Some({"a"}))
  {
    FounderAlone();
  }

  lemma LoadReplaces(s: N.State)
    requires s == N.State(map["c" := {"x"}], map[0 := WAITING])
    ensures N.Apply(s, N.Load(0, Some({"a"}))) == At(EVICTED, 0, WAITING, N.Routing({"a"})).cache
  {
  }

  /** The waiting lookup comes back and replaces the entry. */
  lemma LoadsLate()
    ensures Path(At(EVICTED, 0, WAITING, N.Routing({"a"})), Entered)
  {
    EntersMarked();
    var s := WithEntry({"x"}, OFFERED.(session := TAKEN));
    CanLoad(s);
    LoadReplaces(s.cache);
    CacheMoves(s, 0, W.Load(Some(2)), At(EVICTED, 0, WAITING, N.Routing({"a"})).cache, Entered);
  }

  lemma Evicts()
    ensures Path(EVICTED, Entered)
  {
    LoadsLate();
    Routes(EVICTED, 0, WAITING, {"a"}, Entered);
    assert W.Handled(EVICTED.client, RECEIPT, false) == EVICTED.client;
  }

  lemma OnlyTheAddition()
    ensures R.Settled(EVICTED.client.session) && !R.Accepted(EVICTED.client.session, MESSAGE)
    ensures EVICTED.client.last == map[]
  {
    SessionTakes();
    forall e | e in P.Accepted(TAKEN) ensures e.body != MessageSent(MESSAGE) {
      assert e == ADDED;
    }
  }

  /** The run: the user has joined and is in the entry, the session is live, and from then on everything goes well and
      nothing that is handled takes the user out; but a handling that had missed before still waits, and its lookup
      evicts the user. A message that is stored, published and handled after that does not reach the session. */
  lemma LateLoadLosesMessage() returns (s: W.State)
    ensures Path(s, Entered) && Missed(s)
  {
    Evicts();
    s := PassesBy(EVICTED, Entered);
    OnlyTheAddition();
    NotYetIn([CREATED, RECEIPT, ADDED]);
    NothingAccepted(s);
  }
}
