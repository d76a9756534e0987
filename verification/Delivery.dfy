/** Exactly what a client gets: what the page requests of its resume return, and what handlings bring; and that its
    history is complete. */
module Delivery {
  import opened Events
  import opened EventLog
  import opened MessagePipeline
  import F = MessageFeed
  import H = History
  import MP = MembershipPipeline
  import N = Dispatching
  import O = Outbox
  import P = SessionProtocol
  import R = Resume
  import V = Convergence

  // ---------------------------------------------------------------- what a step adds to the past

  /** A page request returns the message: it is served, and the message is on the page. */
  ghost predicate PagesAt(s: State, st: Step, m: Message) {
    && st.Fetch? && Enabled(s, st) && Serves(s, st.version)
    && var Ask(c, position) := s.client.stage.cursor;
       m in H.FetchMessages(s.client.store, c, position, H.PAGE_SIZE)
  }

  /** A handling of the message's record is about to offer it, and the offer reaches the session: the members that the
      handling resolved have the user, its lookup of devices listed the device, and the registry has the session. */
  ghost predicate RoutesAt(s: State, st: Step, m: Message) {
    && st.Handle? && st.act.Offer? && Enabled(s, st) && Reaches(s, st.slot)
    && s.cache.handlings[st.slot].e.body == MessageSent(m)
  }

  /** A page request of the conversation fails, or the participants it is checked against do not have the user. */
  ghost predicate RefusedAt(s: State, st: Step, c: Id) {
    st.Fetch? && Enabled(s, st) && s.client.stage.cursor.conv == c && !Serves(s, st.version)
  }

  lemma ConversationsSendNothing(s: MP.State, id: nat)
    requires MP.Inv(s) && id in s.relay.log
    ensures !s.relay.log[id].body.MessageSent?
  {
    RankExact(s.relay.log, id, s.relay.next);
  }

  /** A message that is handled is stored, and the session is reached only if the user was ever in its conversation. */
  lemma RecordFacts(s: State, slot: nat)
    requires Inv(s) && slot in s.cache.handlings
    ensures var h := s.cache.handlings[slot];
            && (h.e.body.MessageSent? ==> h.topic.Messages? && h.e.body.message in s.client.store)
            && (Reaches(s, slot) ==> N.ConvOf(h) in s.client.past.ever && !s.client.stage.Connecting?)
  {
    FeedIsStocked(s);
    var h := s.cache.handlings[slot];
    if h.topic.Conversations? {
      ConversationsSendNothing(s.roster, O.Stream(s.roster.relay.history)[h.place]);
    }
  }

  lemma HandledRoutes(client: R.State, e: Envelope, reached: bool, m: Message)
    requires e.body.MessageSent? ==> e.body.message in client.store
    requires reached ==> ConversationOf(e.body) in client.past.ever && !client.stage.Connecting?
    ensures m in Handled(client, e, reached).past.routed <==>
        m in client.past.routed || (reached && e.body == MessageSent(m))
  {
  }

  lemma ActHandles(s: State, st: Step, t: State)
    requires st.Handle? && Moves(s, st, t)
    ensures Offers(st.act) ==>
              && st.slot in s.cache.handlings && (st.act.Load? ==> !Reaches(s, st.slot))
              && t.client == Handled(s.client, s.cache.handlings[st.slot].e, Reaches(s, st.slot))
    ensures !Offers(st.act) ==> t.client == s.client && !st.act.Offer?
  {
  }

  lemma RoutedByHandling(s: State, st: Step, t: State, m: Message)
    requires Inv(s) && st.Handle? && Moves(s, st, t)
    ensures m in t.client.past.routed <==> m in s.client.past.routed || RoutesAt(s, st, m)
  {
    ActHandles(s, st, t);
    if Offers(st.act) {
      RecordFacts(s, st.slot);
      HandledRoutes(s.client, s.cache.handlings[st.slot].e, Reaches(s, st.slot), m);
    }
  }

  lemma FrameOfPast(s: State, st: Step, t: State)
    requires Moves(s, st, t) && !st.Client? && !st.Fetch?
    ensures t.user == s.user && t.client.last == s.client.last && t.client.stage == s.client.stage
    ensures t.client.past.paged == s.client.past.paged && t.client.past.refused == s.client.past.refused
    ensures t.client.past.listed == s.client.past.listed && t.client.past.synced == s.client.past.synced
    ensures !st.Handle? ==> t.client.past.routed == s.client.past.routed
  {
    if st.Handle? && Offers(st.act) {
      ActHandles(s, st, t);
      HandledFrame(s.client, s.cache.handlings[st.slot].e, Reaches(s, st.slot));
    }
  }

  lemma ClientPast(s: State, st: Step, t: State, m: Message, c: Id)
    requires (st.Client? || st.Fetch?) && Moves(s, st, t)
    ensures t.user == s.user && t.client.last == s.client.last
    ensures m in t.client.past.paged <==> m in s.client.past.paged || PagesAt(s, st, m)
    ensures c in t.client.past.refused <==> c in s.client.past.refused || RefusedAt(s, st, c)
    ensures s.client.stage.Syncing? ==>
              && t.client.stage.Syncing?
              && t.client.past.listed == s.client.past.listed && t.client.past.synced == s.client.past.synced
  {
  }

  lemma ClientRoutesNothing(s: State, st: Step, t: State)
    requires (st.Client? || st.Fetch?) && Moves(s, st, t)
    ensures t.client.past.routed == s.client.past.routed
  {
    if st.Client? {
      OwnFrame(s.client, st.cst);
    }
  }

  /** What one step of a run adds to the client's past. */
  ghost predicate PastGrows(s: State, st: Step, t: State, m: Message, c: Id) {
    && t.user == s.user && t.client.last == s.client.last
    && (m in t.client.past.paged <==> m in s.client.past.paged || PagesAt(s, st, m))
    && (m in t.client.past.routed <==> m in s.client.past.routed || RoutesAt(s, st, m))
    && (c in t.client.past.refused <==> c in s.client.past.refused || RefusedAt(s, st, c))
    && (s.client.stage.Syncing? ==>
          && t.client.stage.Syncing?
          && t.client.past.listed == s.client.past.listed && t.client.past.synced == s.client.past.synced)
  }

  lemma StepGrows(s: State, st: Step, t: State, m: Message, c: Id)
    requires Inv(s) && Moves(s, st, t)
    ensures PastGrows(s, st, t, m, c)
  {
    if st.Client? || st.Fetch? {
      ClientPast(s, st, t, m, c);
      ClientRoutesNothing(s, st, t);
    } else {
      FrameOfPast(s, st, t);
      if st.Handle? {
        RoutedByHandling(s, st, t, m);
      }
    }
  }

  lemma RunGrows(run: seq<State>, steps: seq<Step>, j: nat, m: Message, c: Id)
    requires IsRun(run, steps) && j < |steps|
    ensures PastGrows(run[j], steps[j], run[j + 1], m, c)
  {
    Invariant(run, steps, j);
    assert StepAt(run, steps, j);
    StepGrows(run[j], steps[j], run[j + 1], m, c);
  }

  ghost predicate WasPaged(run: seq<State>, steps: seq<Step>, i: nat, m: Message)
    requires i <= |steps| < |run|
  {
    exists j: nat :: j < i && PagesAt(run[j], steps[j], m)
  }

  ghost predicate WasRouted(run: seq<State>, steps: seq<Step>, i: nat, m: Message)
    requires i <= |steps| < |run|
  {
    exists j: nat :: j < i && RoutesAt(run[j], steps[j], m)
  }

  /** The history variables say what happened in the run. */
  lemma {:induction false} PastIsExact(run: seq<State>, steps: seq<Step>, i: nat, m: Message)
    requires IsRun(run, steps) && i < |run|
    ensures m in run[i].client.past.paged <==> WasPaged(run, steps, i, m)
    ensures m in run[i].client.past.routed <==> WasRouted(run, steps, i, m)
  {
    if i > 0 {
      PastIsExact(run, steps, i - 1, m);
      RunGrows(run, steps, i - 1, m, "");
    }
  }

  /** Everything published was handled, no handling is under way, and the client's session has settled. */
  ghost predicate AtRest(s: State) {
    && O.Drained(s.feed.relay)
    && (forall p: nat | p < |O.Stream(s.feed.relay.history)| :: p in s.handled)
    && s.cache.handlings == map[] && R.Settled(s.client.session)
  }

  // ---------------------------------------------------------------- theorems: exactly what is delivered

  lemma ClientAccepts(run: seq<State>, steps: seq<Step>, i: nat, m: Message)
    requires IsRun(run, steps) && i < |run| && R.Settled(run[i].client.session)
    ensures R.Accepted(run[i].client.session, m) <==> m in run[i].client.past.paged || m in run[i].client.past.routed
  {
    Invariant(run, steps, i);
    R.StateAcceptsIff(run[i].client, m);
  }

  /** Exactly when a message is delivered, in every run: an open session at rest has accepted it if and only if a page
      request of the resume returned it, or some handling of its record, with any others in between its steps, offered
      it when the members it had resolved had the user, its lookup had listed the device, and the registry had the
      session. */
  lemma DeliveredIff(run: seq<State>, steps: seq<Step>, i: nat, m: Message)
    requires IsRun(run, steps) && i < |run| && R.Settled(run[i].client.session)
    ensures R.Accepted(run[i].client.session, m) <==> WasPaged(run, steps, i, m) || WasRouted(run, steps, i, m)
  {
    ClientAccepts(run, steps, i, m);
    PastIsExact(run, steps, i, m);
  }

  // ---------------------------------------------------------------- theorems: events of every kind

  lemma HandledBrings(client: R.State, e: Envelope)
    requires e.body.MessageSent? ==> e.body.message in client.store
    requires ConversationOf(e.body) in client.past.ever && !client.stage.Connecting?
    ensures e in Handled(client, e, true).session.arrived
  {
  }

  lemma OfferBrings(s: State, st: Step, t: State)
    requires Inv(s) && st.Handle? && st.act.Offer? && Moves(s, st, t) && Reaches(s, st.slot)
    ensures s.cache.handlings[st.slot].e in t.client.session.arrived
  {
    ActHandles(s, st, t);
    RecordFacts(s, st.slot);
    HandledBrings(s.client, s.cache.handlings[st.slot].e);
  }

  lemma HandledKeeps(client: R.State, e: Envelope, reached: bool)
    ensures client.session.arrived <= Handled(client, e, reached).session.arrived
  {
  }

  lemma ArrivedStays(s: State, st: Step, t: State)
    requires Moves(s, st, t)
    ensures s.client.session.arrived <= t.client.session.arrived
  {
    if st.Handle? {
      ActHandles(s, st, t);
      if Offers(st.act) {
        HandledKeeps(s.client, s.cache.handlings[st.slot].e, Reaches(s, st.slot));
      }
    } else if st.Client? {
      R.ArrivedGrows(s.client, st.cst);
    } else if st.Fetch? {
      R.ArrivedGrows(s.client, R.FetchPage(Serves(s, st.version)));
    }
  }

  lemma {:induction false} ArrivedInRun(run: seq<State>, steps: seq<Step>, j: nat, i: nat)
    requires IsRun(run, steps) && j <= i < |run|
    ensures run[j].client.session.arrived <= run[i].client.session.arrived
    decreases i - j
  {
    if j < i {
      ArrivedInRun(run, steps, j, i - 1);
      assert StepAt(run, steps, i - 1);
      ArrivedStays(run[i - 1], steps[i - 1], run[i]);
    }
  }

  lemma OfferNext(run: seq<State>, steps: seq<Step>, o: nat, s: State, e: Envelope)
    requires IsRun(run, steps) && o < |steps| && s == run[o]
    requires steps[o].Handle? && steps[o].act.Offer? && Reaches(s, steps[o].slot)
    requires e == s.cache.handlings[steps[o].slot].e
    ensures e in run[o + 1].client.session.arrived
  {
    Invariant(run, steps, o);
    assert StepAt(run, steps, o);
    OfferBrings(s, steps[o], run[o + 1]);
  }

  lemma OfferInRun(run: seq<State>, steps: seq<Step>, o: nat, i: nat, e: Envelope)
    requires IsRun(run, steps) && o < i < |run|
    requires steps[o].Handle? && steps[o].act.Offer? && Reaches(run[o], steps[o].slot)
    requires e == run[o].cache.handlings[steps[o].slot].e
    ensures e in run[i].client.session.arrived
  {
    OfferNext(run, steps, o, run[o], e);
    ArrivedInRun(run, steps, o + 1, i);
  }

  /** Every event that an offer brings, a message or a deletion, a receipt or a change of membership, with the time it
      occurred, is in the queue of an open session at rest. */
  lemma OfferedEventIsAccepted(run: seq<State>, steps: seq<Step>, o: nat, i: nat, e: Envelope)
    requires IsRun(run, steps) && o < i < |run| && R.Settled(run[i].client.session)
    requires steps[o].Handle? && steps[o].act.Offer? && Reaches(run[o], steps[o].slot)
    requires e == run[o].cache.handlings[steps[o].slot].e
    ensures e in P.Accepted(run[i].client.session)
  {
    OfferInRun(run, steps, o, i, e);
    Invariant(run, steps, i);
    R.ArrivedIsAccepted(run[i].client, e);
  }

  // ---------------------------------------------------------------- theorems: what the steps of the outside mean

  /** The session was put into the registry, and not taken out since. */
  ghost predicate InRegistry(steps: seq<Step>, i: nat)
    requires i <= |steps|
  {
    exists a :: 0 <= a < i && steps[a] == Client(R.AddToRegistry) && forall j | a < j < i :: !steps[j].Leave?
  }

  lemma RegistryStep(s: State, st: Step, t: State)
    requires Moves(s, st, t)
    ensures t.registered <==> !st.Leave? && (s.registered || st == Client(R.AddToRegistry))
    ensures t.present == if st.Presence? then st.listed else s.present
  {
  }

  lemma InRegistryNext(steps: seq<Step>, i: nat)
    requires i < |steps|
    ensures InRegistry(steps, i + 1) <==>
              !steps[i].Leave? && (InRegistry(steps, i) || steps[i] == Client(R.AddToRegistry))
  {
    if InRegistry(steps, i) && !steps[i].Leave? {
      var a :| 0 <= a < i && steps[a] == Client(R.AddToRegistry) && forall j | a < j < i :: !steps[j].Leave?;
      assert forall j | a < j < i + 1 :: !steps[j].Leave?;
    }
  }

  /** The registry has the session exactly from its registration until it leaves: then, and only then, an offer to the
      user's device can reach it. */
  lemma {:induction false} RegisteredIff(run: seq<State>, steps: seq<Step>, i: nat)
    requires IsRun(run, steps) && i < |run|
    ensures run[i].registered <==> InRegistry(steps, i)
  {
    if i > 0 {
      RegisteredIff(run, steps, i - 1);
      assert StepAt(run, steps, i - 1);
      RegistryStep(run[i - 1], steps[i - 1], run[i]);
      InRegistryNext(steps, i - 1);
    }
  }

  /** Presence lists the device exactly if the last change of it says so. */
  lemma {:induction false} PresentIs(run: seq<State>, steps: seq<Step>, j: nat, i: nat)
    requires IsRun(run, steps) && j < i < |run| && steps[j].Presence?
    requires forall k | j < k < i :: !steps[k].Presence?
    ensures run[i].present == steps[j].listed
    decreases i
  {
    if j + 1 < i {
      PresentIs(run, steps, j, i - 1);
    }
    assert StepAt(run, steps, i - 1);
    RegistryStep(run[i - 1], steps[i - 1], run[i]);
  }

  /** A resume respects the client's position, end to end: what its page requests returned lies above it. */
  lemma PagedIsAbovePosition(run: seq<State>, steps: seq<Step>, i: nat, m: Message)
    requires IsRun(run, steps) && i < |run| && WasPaged(run, steps, i, m)
    ensures m.sequence > R.Named(run[i].client.last, m.conv)
  {
    PastIsExact(run, steps, i, m);
    Invariant(run, steps, i);
    R.StatePagesAbove(run[i].client, m);
  }

  /** When a page request is served: exactly if the lookup of participants answers and the version it answers with has
      the user. What it then returns is `Resume.PageRequestIs`. */
  lemma ServedIff(s: State, version: Option<nat>, t: State)
    requires Moves(s, Fetch(version), t)
    ensures var c := s.client.stage.cursor.conv;
            var served := version.Some? && s.user in V.Members(s.roster.relay.log, version.value, c);
            && R.Enabled(s.client, R.FetchPage(served)) && t.client == R.Apply(s.client, R.FetchPage(served))
  {
  }

  // ---------------------------------------------------------------- where members and devices come from

  /** The step resolves the members of a handling: it reads a non-empty entry, or loads some committed version. */
  ghost predicate Resolves(s: State, st: Step, slot: nat, h: N.Handling, members: set<Id>) {
    && st.Handle? && st.slot == slot && slot in s.cache.handlings && Enabled(s, st)
    && s.cache.handlings[slot] == h.(phase := s.cache.handlings[slot].phase)
    && (if st.act.Resolve? then members == N.Entry(s.cache, N.ConvOf(h)) && members != {}
        else st.act.Load? && V.Table(s.roster.relay.log, st.act.version, N.ConvOf(h)) == Some(members))
  }

  /** The step looks up the devices of a handling. */
  ghost predicate Asks(s: State, st: Step, slot: nat, h: N.Handling, members: set<Id>) {
    && st.Handle? && st.slot == slot && st.act.Devices? && slot in s.cache.handlings && Enabled(s, st)
    && s.cache.handlings[slot] == h.(phase := N.Routing(members))
  }

  /** What a step leaves alone of the other handlings. */
  lemma SlotMoves(s: State, st: Step, t: State, slot: nat)
    requires Moves(s, st, t) && slot in t.cache.handlings && !(st.Handle? && st.slot == slot)
    ensures slot in s.cache.handlings && s.cache.handlings[slot] == t.cache.handlings[slot]
  {
  }

  lemma ActMoves(s: State, st: Step, t: State, slot: nat)
    requires Moves(s, st, t) && slot in t.cache.handlings && st.Handle? && st.slot == slot
    ensures var h := t.cache.handlings[slot];
            && (h.phase.Routing? ==> Resolves(s, st, slot, h, h.phase.members))
            && (h.phase.Offering? ==>
                  && Asks(s, st, slot, h, h.phase.members)
                  && h.phase.listed == (st.act.answered && s.present))
            && (h.phase.Routed? ==> slot in s.cache.handlings && s.cache.handlings[slot].phase.Offering?
                                    && h == s.cache.handlings[slot].(phase := N.Routed))
  {
  }

  /** Members that a handling goes by were resolved by it at an earlier step. */
  lemma {:induction false} RoutingFrom(run: seq<State>, steps: seq<Step>, j: nat, slot: nat) returns (r: nat)
    requires IsRun(run, steps) && j < |run| && slot in run[j].cache.handlings
    requires run[j].cache.handlings[slot].phase.Routing?
    ensures var h := run[j].cache.handlings[slot]; r < j && Resolves(run[r], steps[r], slot, h, h.phase.members)
  {
    assert StepAt(run, steps, j - 1);
    if steps[j - 1].Handle? && steps[j - 1].slot == slot {
      ActMoves(run[j - 1], steps[j - 1], run[j], slot);
      r := j - 1;
    } else {
      SlotMoves(run[j - 1], steps[j - 1], run[j], slot);
      r := RoutingFrom(run, steps, j - 1, slot);
    }
  }

  /** A device that a handling goes by was listed when it asked. */
  lemma {:induction false} OfferingFrom(run: seq<State>, steps: seq<Step>, j: nat, slot: nat) returns (d: nat)
    requires IsRun(run, steps) && j < |run| && slot in run[j].cache.handlings
    requires run[j].cache.handlings[slot].phase.Offering?
    ensures var h := run[j].cache.handlings[slot];
            && d < j && Asks(run[d], steps[d], slot, h, h.phase.members)
            && h.phase.listed == (steps[d].act.answered && run[d].present)
  {
    assert StepAt(run, steps, j - 1);
    if steps[j - 1].Handle? && steps[j - 1].slot == slot {
      ActMoves(run[j - 1], steps[j - 1], run[j], slot);
      d := j - 1;
    } else {
      SlotMoves(run[j - 1], steps[j - 1], run[j], slot);
      d := OfferingFrom(run, steps, j - 1, slot);
    }
  }

  /** Why a handling reached the session: it had resolved members with the user, from the entry as it was then or from
      a lookup, and after that it had asked for devices, with success, while presence listed the user's. */
  lemma RoutedBecause(run: seq<State>, steps: seq<Step>, o: nat, m: Message) returns (r: nat, d: nat, members: set<Id>)
    requires IsRun(run, steps) && o < |steps| && RoutesAt(run[o], steps[o], m)
    ensures var slot, h := steps[o].slot, run[o].cache.handlings[steps[o].slot];
            && r < d < o && Resolves(run[r], steps[r], slot, h, members) && run[o].user in members
            && Asks(run[d], steps[d], slot, h, members) && steps[d].act.answered && run[d].present
  {
    var slot := steps[o].slot;
    members := run[o].cache.handlings[slot].phase.members;
    d := OfferingFrom(run, steps, o, slot);
    r := RoutingFrom(run, steps, d, slot);
  }

  // ---------------------------------------------------------------- theorems: history

  lemma {:induction false} PastStays(run: seq<State>, steps: seq<Step>, k: nat, i: nat, c: Id)
    requires IsRun(run, steps) && k <= i < |run| && run[k].client.stage.Syncing?
    ensures var s, t := run[k].client, run[i].client;
            && t.stage.Syncing? && t.last == s.last && t.past.listed == s.past.listed && t.past.synced == s.past.synced
            && (c in t.past.refused ==> c in s.past.refused || exists j: nat ::
                k <= j < i && RefusedAt(run[j], steps[j], c))
    decreases i - k
  {
    if k < i {
      PastStays(run, steps, k, i - 1, c);
      RunGrows(run, steps, i - 1, Message("", "", "", 0, "", "", "", 0), c);
    }
  }

  lemma StagesCoupled(run: seq<State>, steps: seq<Step>, i: nat)
    requires IsRun(run, steps) && i < |run|
    ensures Coupled(run[i])
  {
    Invariant(run, steps, i);
  }

  /** The listing sets out to sync the client's conversations and, if it succeeds, those of the participants table. */
  lemma ListingLists(s: State, ok: bool, t: State, m: Message)
    requires Coupled(s) && Enabled(s, Client(R.ListConversations(ok))) && t == Apply(s, Client(R.ListConversations(ok)))
    requires m in F.StoreOf(s.feed.service.db.messages)
    requires m.conv in s.client.last || (ok && m.conv in TableOf(s.roster.service.db, s.user))
    ensures !s.client.stage.Syncing? && t.client.stage.Syncing?
    ensures t.client.past.refused == s.client.past.refused && m in t.client.past.listed
  {
  }

  /** Nothing is refused before the listing. */
  lemma {:induction false} NothingRefusedBefore(run: seq<State>, steps: seq<Step>, k: nat)
    requires IsRun(run, steps) && k < |run| && !run[k].client.stage.Syncing?
    ensures run[k].client.past.refused == {}
  {
    if k > 0 {
      forall c: Id ensures c !in run[k].client.past.refused {
        RunGrows(run, steps, k - 1, Message("", "", "", 0, "", "", "", 0), c);
        NothingRefusedBefore(run, steps, k - 1);
      }
    }
  }

  /** History is complete: every message that was stored when the resume listed the conversations, in a conversation
      that the client named or that the participants table had the user in, above the client's position, is delivered
      to an open session at rest, unless a page request of its conversation failed or was refused. It does not matter
      when the user joined, what the relay has published or what the caches hold. */
  lemma ListedIsDelivered(run: seq<State>, steps: seq<Step>, k: nat, ok: bool, i: nat, id: Id)
    requires IsRun(run, steps) && k < i < |run| && steps[k] == Client(R.ListConversations(ok))
    requires R.Settled(run[i].client.session) && id in run[k].feed.service.db.messages
    requires var m := run[k].feed.service.db.messages[id].message;
             && (m.conv in run[k].client.last || (ok && m.conv in TableOf(run[k].roster.service.db, run[k].user)))
             && m.sequence > H.LastOf(run[i].client.last, m.conv)
             && forall j: nat | k < j < i :: !RefusedAt(run[j], steps[j], m.conv)
    ensures R.Accepted(run[i].client.session, run[k].feed.service.db.messages[id].message)
  {
    var m := run[k].feed.service.db.messages[id].message;
    StagesCoupled(run, steps, k);
    assert StepAt(run, steps, k);
    ListingLists(run[k], ok, run[k + 1], m);
    NothingRefusedBefore(run, steps, k);
    PastStays(run, steps, k + 1, i, m.conv);
    Invariant(run, steps, i);
    R.StateLosesNothing(run[i].client, m);
    R.StateAcceptsIff(run[i].client, m);
  }
}
