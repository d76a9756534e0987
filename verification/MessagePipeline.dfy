/** From a sent message to a client's queue. The message service commits and its relay publishes; the conversation
    service changes memberships and its relay publishes on a topic of its own; an instance handles the records of both
    topics in any order, any number of times and many at once, routing each to the members that its cache entry of the
    conversation holds, which may lag behind the participants table; and a session of one user resumes, goes live and
    leaves, all interleaved. Lookups of members answer with any committed version or fail, and lookups of devices may
    fail. */
module MessagePipeline {
  import opened Events
  import opened EventLog
  import C = Conversation
  import F = MessageFeed
  import MP = MembershipPipeline
  import N = Dispatching
  import O = Outbox
  import R = Resume
  import V = Convergence

  datatype State = State(
    user: Id,
    roster: MP.State,     // the conversation service and its relay
    feed: F.State,        // the message service and its relay
    cache: N.State,       // the instance's membership cache and its handlings
    present: bool,        // presence lists the user's device at the instance
    registered: bool,     // the registry of the instance has the session
    client: R.State,
    handled: set<nat>)    // the places of the message stream whose handling is over

  /** What a handling does next. */
  datatype Act =
    | Begin(topic: N.Topic, place: nat)
    | Resolve
    | Load(version: Option<nat>)   // the version of the members that the lookup answers with; None if it fails
    | Devices(answered: bool)      // answered: the lookup of devices succeeds
    | Offer
    | Finish

  datatype Step =
    | Roster(mst: MP.Step)
    | Feed(fst: F.Step)
    | Presence(listed: bool)
    | Leave                        // the session is removed from the registry
    | Handle(slot: nat, act: Act)
    | Fetch(version: Option<nat>)  // a page request of the resume, with the participants the message service is told of
    | Client(cst: R.Step)

  /** The conversations that the participants table has the user in. */
  function TableOf(db: C.Db, user: Id): set<Id> {
    set c | c in db.participants && user in db.participants[c]
  }

  function RelayOf(s: State, topic: N.Topic): O.State {
    match topic
    case Messages => s.feed.relay
    case Conversations => s.roster.relay
  }

  /** The event at a place of a stream. */
  function RecordAt(r: O.State, place: nat): Option<Envelope> {
    if place < |O.Stream(r.history)| && O.Stream(r.history)[place] in r.log then Some(r.log[O.Stream(r.history)[place]])
    else None
  }

  function Record(s: State, topic: N.Topic, place: nat): Option<Envelope> {
    RecordAt(RelayOf(s, topic), place)
  }

  /** A step that the client's side takes on its own: not a commit, a table change, a dispatch or a page request. */
  predicate Own(st: R.Step) {
    !st.Commit? && !st.TableChanges? && !st.Dispatch? && !st.DispatchOther? && !st.FetchPage?
  }

  /** The message service serves a page request: it is told of the participants, and they have the user. */
  predicate Serves(s: State, version: Option<nat>)
    requires s.client.stage.Syncing? && s.client.stage.cursor.Ask?
  {
    var told := V.Table(s.roster.relay.log, version, s.client.stage.cursor.conv);
    told.Some? && s.user in told.value
  }

  /** The step of the cache that an act is: a lookup of members answers from the conversation service, and one of
      devices with what presence lists. */
  function Inner(s: State, slot: nat, act: Act): N.Step
    requires act.Begin? ==> Record(s, act.topic, act.place).Some?
    requires act.Load? ==> slot in s.cache.handlings
  {
    match act
    case Begin(topic, place) => N.Begin(slot, topic, place, Record(s, topic, place).value)
    case Resolve => N.Resolve(slot)
    case Load(version) => N.Load(slot, V.Table(s.roster.relay.log, version, N.ConvOf(s.cache.handlings[slot])))
    case Devices(answered) => N.Devices(slot, answered && s.present)
    case Offer => N.Offer(slot)
    case Finish => N.Finish(slot)
  }

  predicate Acts(s: State, slot: nat, act: Act) {
    && (act.Begin? ==> Record(s, act.topic, act.place).Some?)
    && (act.Load? ==> slot in s.cache.handlings && (act.version.Some? ==> act.version.value <= s.roster.relay.next))
    && N.Enabled(s.cache, Inner(s, slot, act))
  }

  ghost predicate Enabled(s: State, st: Step) {
    match st
    case Roster(mst) => MP.Enabled(s.roster, mst)
    case Feed(fst) => F.Enabled(s.feed, fst)
    case Presence(_) => true
    case Leave => s.registered
    case Handle(slot, act) => Acts(s, slot, act)
    case Fetch(version) =>
      && s.client.stage.Syncing? && s.client.stage.cursor.Ask? && (version.Some? ==>
          version.value <= s.roster.relay.next)
      && R.Enabled(s.client, R.FetchPage(Serves(s, version)))
    case Client(cst) => Own(cst) && R.Enabled(s.client, cst)
  }

  /** The offer reaches the user's session: the members have the user, the lookup listed the device, and the registry
      has the session. */
  predicate Reaches(s: State, slot: nat) {
    && slot in s.cache.handlings && s.cache.handlings[slot].phase.Offering?
    && s.user in s.cache.handlings[slot].phase.members && s.cache.handlings[slot].phase.listed && s.registered
  }

  /** What an offer, or the end of a handling that makes none, does to the client. */
  function Handled(client: R.State, e: Envelope, reached: bool): R.State {
    match e.body
    case MessageSent(m) =>
      if m in client.store && (reached ==> !client.stage.Connecting? && m.conv in client.past.ever)
      then R.Apply(client, R.Dispatch(m, e.occurredAt, reached)) else client
    case _ =>
      if reached && !client.stage.Connecting? then R.Apply(client, R.DispatchOther(e)) else client
  }

  /** The act makes an offer, or ends the handling because its lookup failed. */
  predicate Offers(act: Act) {
    act.Offer? || (act.Load? && act.version.None?)
  }

  /** The act ends the handling. */
  predicate Ends(act: Act) {
    act.Finish? || (act.Load? && act.version.None?)
  }

  function Over(s: State, slot: nat, act: Act): set<nat>
    requires Ends(act) ==> slot in s.cache.handlings
  {
    if Ends(act) && s.cache.handlings[slot].topic.Messages? then s.handled + {s.cache.handlings[slot].place}
        else s.handled
  }

  function Apply(s: State, st: Step): State
    requires Enabled(s, st)
  {
    match st
    case Roster(mst) =>
      var t := MP.Apply(s.roster, mst);
      s.(roster := t, client := R.Apply(s.client, R.TableChanges(TableOf(t.service.db, s.user))))
    case Feed(fst) =>
      var t := F.Apply(s.feed, fst);
      s.(feed := t, client := s.client.(store := F.StoreOf(t.service.db.messages)))
    case Presence(listed) => s.(present := listed)
    case Leave => s.(registered := false)
    case Handle(slot, act) =>
      s.(cache := N.Apply(s.cache, Inner(s, slot, act)),
         client := if Offers(act) then Handled(s.client, s.cache.handlings[slot].e, Reaches(s, slot)) else s.client,
         handled := Over(s, slot, act))
    case Fetch(version) => s.(client := R.Apply(s.client, R.FetchPage(Serves(s, version))))
    case Client(cst) => s.(client := R.Apply(s.client, cst), registered := s.registered || cst.AddToRegistry?)
  }

  ghost predicate Initial(s: State) {
    && MP.Initial(s.roster) && F.Initial(s.feed) && s.cache == N.EMPTY && !s.registered
    && R.Initial(s.client) && s.client.table == {} && s.handled == {}
  }

  ghost predicate Moves(s: State, st: Step, t: State) {
    Enabled(s, st) && t == Apply(s, st)
  }

  ghost predicate StepAt(run: seq<State>, steps: seq<Step>, i: nat)
    requires i < |steps| && i + 1 < |run|
  {
    Moves(run[i], steps[i], run[i + 1])
  }

  ghost predicate IsRun(run: seq<State>, steps: seq<Step>) {
    && |run| == |steps| + 1 && Initial(run[0])
    && forall i: nat {:trigger StepAt(run, steps, i)} | i < |steps| :: StepAt(run, steps, i)
  }

  // ---------------------------------------------------------------- what the user ever was a member of

  /** Every version of the log that has the user in a conversation is remembered. */
  ghost predicate Remembered(log: map<nat, Envelope>, next: nat, user: Id, ever: set<Id>) {
    forall c: Id, v: nat | v <= next && user in V.Members(log, v, c) :: c in ever
  }

  lemma {:induction false} MembersOfPrefix(log: map<nat, Envelope>, next: nat, id: nat, e: Envelope, v: nat, c: Id)
    requires (forall i | i in log :: i < next) && next <= id && v <= id
    ensures V.Members(log[id := e], v, c) == V.Members(log, if v <= next then v else next, c)
  {
    if v > 0 {
      MembersOfPrefix(log, next, id, e, v - 1, c);
    }
  }

  lemma TableIsMembers(s: MP.State, c: Id)
    requires MP.Inv(s)
    ensures V.Members(s.relay.log, s.relay.next, c) ==
            if c in s.service.db.participants then s.service.db.participants[c].Keys else {}
  {
    MP.MembersAreReplay(s.relay.log, s.relay.next, c);
  }

  /** The relay's table is as it was, or has one more event with a new highest id. */
  ghost predicate LogGrows(r: O.State, t: O.State, id: nat, e: Envelope) {
    || (t.log == r.log && t.next == r.next)
    || (r.next <= id && t.log == r.log[id := e] && t.next == id + 1)
  }

  lemma FollowGrows(r: O.State, id: nat, before: seq<Envelope>, after: seq<Envelope>) returns (e: Envelope)
    requires r.next <= id
    ensures LogGrows(r, Follow(r, id, before, after), id, e)
  {
    e := if |after| > |before| then after[|after| - 1] else Envelope(MessageDeleted("", ""), 0);
  }

  lemma RosterLog(s: MP.State, st: MP.Step, t: MP.State) returns (id: nat, e: Envelope)
    requires MP.Enabled(s, st) && t == MP.Apply(s, st)
    ensures LogGrows(s.relay, t.relay, id, e)
  {
    if st.Relay? {
      RelayKeepsLog(s.relay, st.rst);
      id, e := 0, Envelope(MessageDeleted("", ""), 0);
    } else {
      id := st.id;
      e := FollowGrows(s.relay, id, s.service.db.outbox, t.service.db.outbox);
    }
  }

  lemma RosterRemembers(s: MP.State, st: MP.Step, t: MP.State, user: Id, ever: set<Id>)
    requires O.Safe(s.relay) && MP.Enabled(s, st) && t == MP.Apply(s, st) && MP.Inv(t)
    requires Remembered(s.relay.log, s.relay.next, user, ever)
    ensures Remembered(t.relay.log, t.relay.next, user, ever + TableOf(t.service.db, user))
  {
    var id, e := RosterLog(s, st, t);
    forall c: Id, v: nat | v <= t.relay.next && user in V.Members(t.relay.log, v, c)
      ensures c in ever + TableOf(t.service.db, user)
    {
      if v == t.relay.next {
        TableIsMembers(t, c);
      } else if t.relay.log != s.relay.log || t.relay.next != s.relay.next {
        MembersOfPrefix(s.relay.log, s.relay.next, id, e, v, c);
      }
    }
  }

  // ---------------------------------------------------------------- records of handlings

  /** A handling keeps the record it began with. */
  ghost predicate Tied(handlings: map<nat, N.Handling>, feed: O.State, roster: O.State) {
    forall slot | slot in handlings ::
      RecordAt(if handlings[slot].topic.Messages? then feed
          else roster, handlings[slot].place) == Some(handlings[slot].e)
  }

  lemma RecordStays(r: O.State, t: O.State, place: nat)
    requires Continues(r, t) && RecordAt(r, place).Some?
    ensures RecordAt(t, place) == RecordAt(r, place)
  {
  }

  lemma TiedStays(handlings: map<nat, N.Handling>, feed: O.State, roster: O.State, feed': O.State, roster': O.State)
    requires Tied(handlings, feed, roster) && Continues(feed, feed') && Continues(roster, roster')
    ensures Tied(handlings, feed', roster')
  {
    forall slot | slot in handlings
      ensures RecordAt(if handlings[slot].topic.Messages? then feed' else roster', handlings[slot].place)
           == Some(handlings[slot].e)
    {
      if handlings[slot].topic.Messages? {
        RecordStays(feed, feed', handlings[slot].place);
      } else {
        RecordStays(roster, roster', handlings[slot].place);
      }
    }
  }

  lemma TiedAct(s: State, slot: nat, act: Act, t: N.State)
    requires Tied(s.cache.handlings, s.feed.relay, s.roster.relay)
    requires Acts(s, slot, act) && t == N.Apply(s.cache, Inner(s, slot, act))
    ensures Tied(t.handlings, s.feed.relay, s.roster.relay)
  {
  }

  // ---------------------------------------------------------------- whom entries and handlings know

  function MembersOf(phase: N.Phase): set<Id> {
    match phase
    case Routing(members) => members
    case Offering(members, _) => members
    case _ => {}
  }

  /** The user is in entries, and in the members of handlings, only of conversations that the user was ever in. */
  ghost predicate CacheKnown(cache: N.State, user: Id, ever: set<Id>) {
    && (forall c | c in cache.entries && user in cache.entries[c] :: c in ever)
    && (forall slot | slot in cache.handlings && user in MembersOf(cache.handlings[slot].phase) ::
          N.ConvOf(cache.handlings[slot]) in ever)
  }

  /** Whoever an event adds or founds with is a member right after it. */
  lemma EventMakesMember(log: map<nat, Envelope>, id: nat, u: Id)
    requires id in log
    ensures var b := log[id].body;
            C.Structural(b) && u in V.PreRoute({}, b) ==> u in V.Members(log, id + 1, ConversationOf(b))
  {
  }

  /** Beginning and loading bring the user only where the user was a member in some version. */
  lemma CacheStep(cache: N.State, st: N.Step, t: N.State, user: Id, ever: set<Id>)
    requires CacheKnown(cache, user, ever) && N.Enabled(cache, st) && t == N.Apply(cache, st)
    requires st.Begin? && C.Structural(st.e.body) && user in V.PreRoute({}, st.e.body) ==>
        ConversationOf(st.e.body) in ever
    requires st.Load? && st.answer.Some? && user in st.answer.value ==> N.ConvOf(cache.handlings[st.slot]) in ever
    ensures CacheKnown(t, user, ever)
  {
  }

  lemma ActKnown(s: State, slot: nat, act: Act, t: N.State)
    requires MP.Inv(s.roster) && F.Stocked(s.feed.relay.log, O.Stream(s.feed.relay.history), s.client.store)
    requires Remembered(s.roster.relay.log, s.roster.relay.next, s.user, s.client.past.ever)
    requires CacheKnown(s.cache, s.user, s.client.past.ever)
    requires Acts(s, slot, act) && t == N.Apply(s.cache, Inner(s, slot, act))
    ensures CacheKnown(t, s.user, s.client.past.ever)
  {
    if act.Begin? && act.topic.Conversations? {
      EventMakesMember(s.roster.relay.log, O.Stream(s.roster.relay.history)[act.place], s.user);
    }
    CacheStep(s.cache, Inner(s, slot, act), t, s.user, s.client.past.ever);
  }

  // ---------------------------------------------------------------- invariant

  ghost predicate Coupled(s: State) {
    && s.client.store == F.StoreOf(s.feed.service.db.messages)
    && s.client.table == TableOf(s.roster.service.db, s.user)
    && Remembered(s.roster.relay.log, s.roster.relay.next, s.user, s.client.past.ever)
    && CacheKnown(s.cache, s.user, s.client.past.ever)
    && Tied(s.cache.handlings, s.feed.relay, s.roster.relay)
    && (s.registered ==> !s.client.stage.Connecting?)
  }

  ghost predicate Inv(s: State) {
    MP.Inv(s.roster) && F.Inv(s.feed) && R.Inv(s.client) && Coupled(s)
  }

  lemma SameContinues(r: O.State)
    ensures Continues(r, r)
  {
  }

  lemma RosterStep(s: State, mst: MP.Step, t: State)
    requires Inv(s) && Enabled(s, Roster(mst)) && t == Apply(s, Roster(mst))
    ensures Inv(t)
  {
    MP.InvStep(s.roster, mst, t.roster);
    R.InvStep(s.client, R.TableChanges(TableOf(t.roster.service.db, s.user)), t.client);
    RosterRemembers(s.roster, mst, t.roster, s.user, s.client.past.ever);
    MP.StepContinues(s.roster, mst, t.roster);
    SameContinues(s.feed.relay);
    TiedStays(s.cache.handlings, s.feed.relay, s.roster.relay, t.feed.relay, t.roster.relay);
  }

  /** The client sees a step of the message service as a commit or as nothing. */
  lemma FeedIsCommit(s: F.State, fst: F.Step, t: F.State, client: R.State)
    requires F.Inv(s) && F.Enabled(s, fst) && t == F.Apply(s, fst) && F.Inv(t)
    requires R.Inv(client) && client.store == F.StoreOf(s.service.db.messages)
    ensures R.Inv(client.(store := F.StoreOf(t.service.db.messages)))
  {
    var store := F.StoreOf(t.service.db.messages);
    if store == client.store {
      assert client.(store := store) == client;
    } else {
      F.ServiceGrows(s.service, fst.st);
      F.SequencesAreUnique(t.service);
      var m: Message :| m.sequence > 0 && store == client.store + {m};
      R.InvStep(client, R.Commit(m), client.(store := store));
    }
  }

  lemma FeedStep(s: State, fst: F.Step, t: State)
    requires Inv(s) && Enabled(s, Feed(fst)) && t == Apply(s, Feed(fst))
    ensures Inv(t)
  {
    F.InvStep(s.feed, fst, t.feed);
    FeedIsCommit(s.feed, fst, t.feed, s.client);
    F.StepContinues(s.feed, fst, t.feed);
    SameContinues(s.roster.relay);
    TiedStays(s.cache.handlings, s.feed.relay, s.roster.relay, t.feed.relay, t.roster.relay);
  }

  lemma HandledInv(client: R.State, e: Envelope, reached: bool, t: R.State)
    requires R.Inv(client) && t == Handled(client, e, reached)
    ensures R.Inv(t)
  {
    match e.body
    case MessageSent(m) =>
      if m in client.store && (reached ==> !client.stage.Connecting? && m.conv in client.past.ever) {
        R.InvStep(client, R.Dispatch(m, e.occurredAt, reached), t);
      }
    case _ =>
      if reached && !client.stage.Connecting? {
        R.InvStep(client, R.DispatchOther(e), t);
      }
  }

  lemma HandledFrame(client: R.State, e: Envelope, reached: bool)
    ensures var t := Handled(client, e, reached);
            && t.store == client.store && t.table == client.table && t.last == client.last && t.stage == client.stage
            && t.past == client.past.(handled := t.past.handled, routed := t.past.routed, missed := t.past.missed)
  {
  }

  lemma FeedIsStocked(s: State)
    requires F.Inv(s.feed) && s.client.store == F.StoreOf(s.feed.service.db.messages)
    ensures F.Stocked(s.feed.relay.log, O.Stream(s.feed.relay.history), s.client.store)
  {
    F.StreamIsStocked(s.feed);
  }

  lemma HandleStep(s: State, slot: nat, act: Act, t: State)
    requires Inv(s) && Enabled(s, Handle(slot, act)) && t == Apply(s, Handle(slot, act))
    ensures Inv(t)
  {
    FeedIsStocked(s);
    ActKnown(s, slot, act, t.cache);
    TiedAct(s, slot, act, t.cache);
    if Offers(act) {
      var e := s.cache.handlings[slot].e;
      HandledInv(s.client, e, Reaches(s, slot), t.client);
      HandledFrame(s.client, e, Reaches(s, slot));
    }
  }

  lemma OwnFrame(c: R.State, st: R.Step)
    requires R.Enabled(c, st) && Own(st)
    ensures var t := R.Apply(c, st);
            && t.store == c.store && t.table == c.table && t.last == c.last
            && t.past.ever == c.past.ever && t.past.routed == c.past.routed
            && (t.stage.Connecting? <==> c.stage.Connecting? && !st.AddToRegistry?)
  {
  }

  lemma FetchFrame(c: R.State, served: bool)
    requires R.Enabled(c, R.FetchPage(served))
    ensures var t := R.Apply(c, R.FetchPage(served));
            && t.store == c.store && t.table == c.table && t.last == c.last && t.past.ever == c.past.ever
            && !t.stage.Connecting?
  {
  }

  lemma ClientStep(s: State, st: Step, t: State)
    requires Inv(s) && (st.Client? || st.Fetch?) && Enabled(s, st) && t == Apply(s, st)
    ensures Inv(t)
  {
    if st.Client? {
      R.InvStep(s.client, st.cst, t.client);
      OwnFrame(s.client, st.cst);
    } else {
      R.InvStep(s.client, R.FetchPage(Serves(s, st.version)), t.client);
      FetchFrame(s.client, Serves(s, st.version));
    }
  }

  lemma InvStep(s: State, st: Step, t: State)
    requires Inv(s) && Moves(s, st, t)
    ensures Inv(t)
  {
    match st
    case Roster(mst) => RosterStep(s, mst, t);
    case Feed(fst) => FeedStep(s, fst, t);
    case Presence(_) =>
    case Leave =>
    case Handle(slot, act) => HandleStep(s, slot, act, t);
    case Fetch(_) => ClientStep(s, st, t);
    case Client(_) => ClientStep(s, st, t);
  }

  lemma {:induction false} NobodyAtFirst(n: nat, c: Id)
    ensures V.Members(map[], n, c) == {}
  {
    if n > 0 {
      NobodyAtFirst(n - 1, c);
    }
  }

  lemma InitialInv(s: State)
    requires Initial(s)
    ensures Inv(s)
  {
    MP.InitialInv(s.roster);
    F.InitialInv(s.feed);
    R.InitialInv(s.client);
    forall c: Id, v: nat | v <= s.roster.relay.next ensures s.user !in V.Members(s.roster.relay.log, v, c) {
      NobodyAtFirst(v, c);
    }
  }

  lemma InvAdvances(run: seq<State>, steps: seq<Step>, i: nat)
    requires IsRun(run, steps) && 0 < i < |run| && Inv(run[i - 1])
    ensures Inv(run[i])
  {
    assert StepAt(run, steps, i - 1);
    InvStep(run[i - 1], steps[i - 1], run[i]);
  }

  lemma {:induction false} Invariant(run: seq<State>, steps: seq<Step>, i: nat)
    requires IsRun(run, steps) && i < |run|
    ensures Inv(run[i])
  {
    if i > 0 {
      Invariant(run, steps, i - 1);
      InvAdvances(run, steps, i);
    } else {
      InitialInv(run[0]);
    }
  }
}
