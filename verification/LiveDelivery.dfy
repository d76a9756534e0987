/** What reaches a live session: whatever is stored while the instance's entry has the user and nothing waits for a
    lookup, also every message that a sender was answered with, and nothing but stored messages of the user's
    conversations. */
module LiveDelivery {
  import opened Events
  import opened EventLog
  import opened Delivery
  import opened MessagePipeline
  import F = MessageFeed
  import M = MessageService
  import N = Dispatching
  import O = Outbox
  import P = SessionProtocol
  import R = Resume
  import V = Convergence

  // ---------------------------------------------------------------- entries

  /** The user is in the entry of the conversation, and no handling about it waits for a lookup. */
  predicate InEntry(s: State, c: Id) {
    s.user in N.Entry(s.cache, c) && !N.Waiting(s.cache, c)
  }

  /** The step takes the user out of the entry: the handling of a removal of the user, or of the creation with other
      founders. */
  predicate TakesOut(s: State, st: Step, c: Id) {
    st.Handle? && Acts(s, st.slot, st.act) && N.TakesOut(s.cache, Inner(s, st.slot, st.act), c, s.user)
  }

  lemma EntryStays(s: State, st: Step, t: State, c: Id)
    requires Moves(s, st, t) && InEntry(s, c) && !TakesOut(s, st, c)
    ensures t.user == s.user && InEntry(t, c)
  {
    if st.Handle? {
      N.EntryStays(s.cache, Inner(s, st.slot, st.act), t.cache, c, s.user);
    }
  }

  /** Beginning to handle an addition or a creation brings whom it names into the entry. */
  lemma EntryLearns(s: State, st: Step, t: State, c: Id)
    requires Moves(s, st, t) && st.Handle? && st.act.Begin?
    requires var b := Record(s, st.act.topic, st.act.place).value.body;
             b == MembershipChanged(c, s.user, true) || (b.ConversationCreated? && b.created == c &&
                 s.user in b.participants)
    ensures s.user in N.Entry(t.cache, c)
  {
    var b := Record(s, st.act.topic, st.act.place).value.body;
    assert s.user in V.PreRoute(N.Entry(s.cache, c), b);
  }

  /** Whoever is in an entry while nothing waits stays in it, until an event that takes them out is handled. */
  lemma {:induction false} EntryPersists(run: seq<State>, steps: seq<Step>, k: nat, i: nat, c: Id)
    requires IsRun(run, steps) && k <= i < |run| && InEntry(run[k], c)
    requires forall j | k <= j < i :: !TakesOut(run[j], steps[j], c)
    ensures InEntry(run[i], c)
    decreases i - k
  {
    if k < i {
      EntryPersists(run, steps, k, i - 1, c);
      assert StepAt(run, steps, i - 1);
      EntryStays(run[i - 1], steps[i - 1], run[i], c);
    }
  }

  // ---------------------------------------------------------------- handlings of one message

  predicate About(h: N.Handling, m: Message) {
    h.e.body == MessageSent(m)
  }

  /** The handlings of the message meet the user: none has missed, and the members they resolved have the user. */
  ghost predicate Meets(s: State, m: Message) {
    forall slot | slot in s.cache.handlings && About(s.cache.handlings[slot], m) ::
      var phase := s.cache.handlings[slot].phase;
      && !phase.Missed?
      && (phase.Routing? || phase.Offering? ==> s.user in phase.members)
  }

  lemma MeetsStep(s: State, st: Step, t: State, m: Message)
    requires Moves(s, st, t) && Meets(s, m) && s.user in N.Entry(s.cache, m.conv)
    ensures Meets(t, m)
  {
    forall slot | slot in t.cache.handlings && About(t.cache.handlings[slot], m)
      ensures var phase := t.cache.handlings[slot].phase;
              && !phase.Missed?
              && (phase.Routing? || phase.Offering? ==> t.user in phase.members)
    {
      if !(st.Handle? && st.slot == slot) {
        SlotMoves(s, st, t, slot);
      } else if !st.act.Begin? {
        assert slot in s.cache.handlings && About(s.cache.handlings[slot], m);
      }
    }
  }

  lemma {:induction false} MeetsRun(run: seq<State>, steps: seq<Step>, k: nat, i: nat, m: Message)
    requires IsRun(run, steps) && k <= i < |run| && InEntry(run[k], m.conv) && Meets(run[k], m)
    requires forall j | k <= j < i :: !TakesOut(run[j], steps[j], m.conv)
    ensures Meets(run[i], m)
    decreases i - k
  {
    if k < i {
      MeetsRun(run, steps, k, i - 1, m);
      EntryPersists(run, steps, k, i - 1, m.conv);
      assert StepAt(run, steps, i - 1);
      MeetsStep(run[i - 1], steps[i - 1], run[i], m);
    }
  }

  lemma HandledIsRow(run: seq<State>, steps: seq<Step>, j: nat, slot: nat, m: Message)
    requires IsRun(run, steps) && j < |run| && slot in run[j].cache.handlings && About(run[j].cache.handlings[slot], m)
    ensures m.id in run[j].feed.service.db.messages && run[j].cache.handlings[slot].topic == N.Messages
  {
    Invariant(run, steps, j);
    RecordFacts(run[j], slot);
  }

  lemma FeedMoves(s: State, st: Step, t: State)
    requires Moves(s, st, t)
    ensures t.feed.service == s.feed.service || M.Next(s.feed.service, t.feed.service)
  {
    if st.Feed? && st.fst.Serve? {
      assert M.Enabled(s.feed.service, st.fst.st) && t.feed.service == M.Apply(s.feed.service, st.fst.st);
    }
  }

  lemma RowsAreKeyed(run: seq<State>, steps: seq<Step>, i: nat)
    requires IsRun(run, steps) && i < |run|
    ensures var s := run[i].feed.service; M.Keyed(s.db.idempotency, s.db.messages, s.origin)
  {
    Invariant(run, steps, i);
  }

  lemma {:induction false} ServiceExtends(run: seq<State>, steps: seq<Step>, k: nat, i: nat)
    requires IsRun(run, steps) && k <= i < |run|
    ensures M.Extends(run[k].feed.service, run[i].feed.service)
    decreases i - k
  {
    if k < i {
      ServiceExtends(run, steps, k, i - 1);
      RowsAreKeyed(run, steps, i - 1);
      assert StepAt(run, steps, i - 1);
      FeedMoves(run[i - 1], steps[i - 1], run[i]);
      if run[i].feed.service != run[i - 1].feed.service {
        M.NextExtends(run[i - 1].feed.service, run[i].feed.service);
        M.ExtendsOn(run[k].feed.service, run[i - 1].feed.service, run[i].feed.service);
      }
    }
  }

  /** A message that is new at some moment is not being handled before it. */
  lemma NotHandledBefore(run: seq<State>, steps: seq<Step>, j: nat, k: nat, m: Message)
    requires IsRun(run, steps) && j <= k < |run| && m.id !in run[k].feed.service.db.messages
    ensures forall slot | slot in run[j].cache.handlings :: !About(run[j].cache.handlings[slot], m)
  {
    forall slot | slot in run[j].cache.handlings ensures !About(run[j].cache.handlings[slot], m) {
      if About(run[j].cache.handlings[slot], m) {
        HandledIsRow(run, steps, j, slot, m);
        ServiceExtends(run, steps, j, k);
      }
    }
  }

  // ---------------------------------------------------------------- offers

  lemma LeftStep(s: State, st: Step, t: State)
    requires Moves(s, st, t) && !s.registered && !s.client.stage.Connecting?
    ensures !t.registered && !t.client.stage.Connecting?
  {
    if st.Handle? && Offers(st.act) {
      ActHandles(s, st, t);
      HandledFrame(s.client, s.cache.handlings[st.slot].e, Reaches(s, st.slot));
    } else if st.Client? {
      OwnFrame(s.client, st.cst);
    }
  }

  /** A session that has left the registry does not come back. */
  lemma {:induction false} LeftForGood(run: seq<State>, steps: seq<Step>, o: nat, i: nat)
    requires IsRun(run, steps) && o <= i < |run| && !run[o].registered && !run[o].client.stage.Connecting?
    ensures !run[i].registered && !run[i].client.stage.Connecting?
    decreases i - o
  {
    if o < i {
      LeftForGood(run, steps, o, i - 1);
      assert StepAt(run, steps, i - 1);
      LeftStep(run[i - 1], steps[i - 1], run[i]);
    }
  }

  lemma ConnectedStep(s: State, st: Step, t: State)
    requires Moves(s, st, t) && !s.client.stage.Connecting?
    ensures !t.client.stage.Connecting?
  {
    if st.Handle? && Offers(st.act) {
      ActHandles(s, st, t);
      HandledFrame(s.client, s.cache.handlings[st.slot].e, Reaches(s, st.slot));
    } else if st.Client? {
      OwnFrame(s.client, st.cst);
    }
  }

  lemma RegisteredIsConnected(run: seq<State>, steps: seq<Step>, i: nat)
    requires IsRun(run, steps) && i < |run| && run[i].registered
    ensures !run[i].client.stage.Connecting?
  {
    StagesCoupled(run, steps, i);
  }

  /** A handling of the message that is about to offer it to the user's listed device offers it before it is over. */
  lemma {:induction false} OfferFollows(run: seq<State>, steps: seq<Step>, j: nat, i: nat, slot: nat, m: Message)
    returns (o: nat)
    requires IsRun(run, steps) && j <= i < |run| && !run[j].client.stage.Connecting? && run[i].registered
    requires slot in run[j].cache.handlings && About(run[j].cache.handlings[slot], m)
    requires var phase := run[j].cache.handlings[slot].phase;
             phase.Offering? && phase.listed && run[j].user in phase.members
    requires forall x | x in run[i].cache.handlings :: !About(run[i].cache.handlings[x], m)
    ensures j <= o < i && RoutesAt(run[o], steps[o], m)
    decreases i - j
  {
    assert StepAt(run, steps, j);
    if !run[j].registered {
      LeftForGood(run, steps, j, i);
    }
    if steps[j].Handle? && steps[j].slot == slot {
      o := j;
    } else {
      ConnectedStep(run[j], steps[j], run[j + 1]);
      OthersStay(run[j], steps[j], run[j + 1], slot);
      o := OfferFollows(run, steps, j + 1, i, slot, m);
    }
  }

  lemma OthersStay(s: State, st: Step, t: State, slot: nat)
    requires Moves(s, st, t) && slot in s.cache.handlings && !(st.Handle? && st.slot == slot)
    ensures slot in t.cache.handlings && t.cache.handlings[slot] == s.cache.handlings[slot] && t.user == s.user
  {
  }

  // ---------------------------------------------------------------- theorems: live delivery

  /** A handling of the message asks for devices, with success, while presence lists the user's. */
  ghost predicate Answered(s: State, st: Step, m: Message) {
    && st.Handle? && st.act == Devices(true) && s.present
    && st.slot in s.cache.handlings && About(s.cache.handlings[st.slot], m)
  }

  lemma AskLeadsToOffer(s: State, st: Step, t: State, m: Message)
    requires Moves(s, st, t) && Answered(s, st, m) && Meets(s, m)
    ensures t.user == s.user && t.client.stage == s.client.stage
    ensures st.slot in t.cache.handlings && About(t.cache.handlings[st.slot], m)
    ensures var phase := t.cache.handlings[st.slot].phase;
            phase.Offering? && phase.listed && t.user in phase.members
  {
  }

  /** Live delivery: an open session at rest has accepted every message that was stored after some moment `k` at which
      the user was in the entry of its conversation and no handling about it waited for a lookup, if nothing handled
      since took the user out, if one handling of the message got an answer about devices while presence listed the
      user's, if the session stayed in the registry from then on, and if no handling of the message is still under way.
      The participants table does not come into it, nor what relays repeated or which handlings ran together. */
  lemma StoredIsDelivered(run: seq<State>, steps: seq<Step>, k: nat, d: nat, i: nat, m: Message)
    requires IsRun(run, steps) && k <= d < i < |run| && m.id !in run[k].feed.service.db.messages
    requires InEntry(run[k], m.conv) && forall j | k <= j < d :: !TakesOut(run[j], steps[j], m.conv)
    requires Answered(run[d], steps[d], m) && run[d].registered && run[i].registered
    requires forall slot | slot in run[i].cache.handlings :: !About(run[i].cache.handlings[slot], m)
    requires R.Settled(run[i].client.session)
    ensures R.Accepted(run[i].client.session, m)
  {
    NotHandledBefore(run, steps, k, k, m);
    MeetsRun(run, steps, k, d, m);
    assert StepAt(run, steps, d);
    AskLeadsToOffer(run[d], steps[d], run[d + 1], m);
    RegisteredIsConnected(run, steps, d);
    var o := OfferFollows(run, steps, d + 1, i, steps[d].slot, m);
    DeliveredIff(run, steps, i, m);
  }

  // ---------------------------------------------------------------- every stored message is asked for

  lemma {:induction false} HandledWhen(run: seq<State>, steps: seq<Step>, i: nat, p: nat) returns (j: nat)
    requires IsRun(run, steps) && i < |run| && p in run[i].handled
    ensures j < i && steps[j].Handle? && Ends(steps[j].act) && steps[j].slot in run[j].cache.handlings
    ensures var h := run[j].cache.handlings[steps[j].slot]; h.topic == N.Messages && h.place == p
    ensures run[j].cache.handlings[steps[j].slot].phase.Routed? || run[j].cache.handlings[steps[j].slot].phase.Missed?
  {
    assert StepAt(run, steps, i - 1);
    if p in run[i - 1].handled {
      j := HandledWhen(run, steps, i - 1, p);
    } else {
      j := i - 1;
    }
  }

  /** A handling that has made its offer had asked for devices before. */
  lemma {:induction false} RoutedFrom(run: seq<State>, steps: seq<Step>, j: nat, slot: nat) returns (d: nat)
    requires IsRun(run, steps) && j < |run| && slot in run[j].cache.handlings
    requires run[j].cache.handlings[slot].phase.Routed?
    ensures d < j && exists members :: Asks(run[d], steps[d], slot, run[j].cache.handlings[slot], members)
  {
    assert StepAt(run, steps, j - 1);
    if steps[j - 1].Handle? && steps[j - 1].slot == slot {
      ActMoves(run[j - 1], steps[j - 1], run[j], slot);
      d := OfferingFrom(run, steps, j - 1, slot);
      assert Asks(run[d], steps[d], slot, run[j].cache.handlings[slot], run[j - 1].cache.handlings[slot].phase.members);
    } else {
      SlotMoves(run[j - 1], steps[j - 1], run[j], slot);
      d := RoutedFrom(run, steps, j - 1, slot);
    }
  }

  lemma FeedContinues(s: State, st: Step, t: State)
    requires O.Safe(s.feed.relay) && Moves(s, st, t)
    ensures Continues(s.feed.relay, t.feed.relay)
  {
    if st.Feed? {
      F.StepContinues(s.feed, st.fst, t.feed);
    } else {
      SameContinues(s.feed.relay);
    }
  }

  lemma RelayIsSafe(run: seq<State>, steps: seq<Step>, i: nat)
    requires IsRun(run, steps) && i < |run|
    ensures O.Safe(run[i].feed.relay)
  {
    Invariant(run, steps, i);
  }

  lemma {:induction false} RecordInRun(run: seq<State>, steps: seq<Step>, j: nat, i: nat, p: nat)
    requires IsRun(run, steps) && j <= i < |run| && RecordAt(run[j].feed.relay, p).Some?
    ensures RecordAt(run[i].feed.relay, p) == RecordAt(run[j].feed.relay, p)
    decreases i - j
  {
    if j < i {
      RecordInRun(run, steps, j, i - 1, p);
      RelayIsSafe(run, steps, i - 1);
      assert StepAt(run, steps, i - 1);
      FeedContinues(run[i - 1], steps[i - 1], run[i]);
      RecordStays(run[i - 1].feed.relay, run[i].feed.relay, p);
    }
  }

  lemma HandlingIsTied(run: seq<State>, steps: seq<Step>, j: nat, slot: nat)
    requires IsRun(run, steps) && j < |run| && slot in run[j].cache.handlings
    requires run[j].cache.handlings[slot].topic == N.Messages
    ensures RecordAt(run[j].feed.relay, run[j].cache.handlings[slot].place) == Some(run[j].cache.handlings[slot].e)
  {
    StagesCoupled(run, steps, j);
  }

  lemma StoredRecord(run: seq<State>, steps: seq<Step>, i: nat, id: Id) returns (p: nat)
    requires IsRun(run, steps) && i < |run| && O.Drained(run[i].feed.relay) && id in run[i].feed.service.db.messages
    ensures p < |O.Stream(run[i].feed.relay.history)| && RecordAt(run[i].feed.relay, p).Some?
    ensures RecordAt(run[i].feed.relay, p).value.body == MessageSent(run[i].feed.service.db.messages[id].message)
    ensures run[i].feed.service.db.messages[id].message.id == id
  {
    Invariant(run, steps, i);
    p := F.StoredIsOnStream(run[i].feed, id);
  }

  /** Once everything is published and handled, devices have been asked for every message stored after the user was in
      the entry with nothing waiting, by a handling that had resolved members with the user. So there is a lookup that
      decides, and the message is lost only if each one fails or finds the device not listed, or the session leaves. */
  lemma StoredIsAskedFor(run: seq<State>, steps: seq<Step>, k: nat, i: nat, id: Id) returns (d: nat)
    requires IsRun(run, steps) && k <= i < |run| && O.Drained(run[i].feed.relay)
    requires forall p: nat | p < |O.Stream(run[i].feed.relay.history)| :: p in run[i].handled
    requires id in run[i].feed.service.db.messages && id !in run[k].feed.service.db.messages
    requires var c := run[i].feed.service.db.messages[id].message.conv;
             InEntry(run[k], c) && forall j | k <= j < i :: !TakesOut(run[j], steps[j], c)
    ensures k <= d < i && steps[d].Handle? && steps[d].act.Devices? && steps[d].slot in run[d].cache.handlings
    ensures var h := run[d].cache.handlings[steps[d].slot];
            && About(h, run[i].feed.service.db.messages[id].message)
            && h.phase.Routing? && run[d].user in h.phase.members
  {
    var m := run[i].feed.service.db.messages[id].message;
    var p := StoredRecord(run, steps, i, id);
    var j := HandledWhen(run, steps, i, p);
    var slot := steps[j].slot;
    HandlingIsTied(run, steps, j, slot);
    RecordInRun(run, steps, j, i, p);
    assert About(run[j].cache.handlings[slot], m);
    if j < k {
      NotHandledBefore(run, steps, j, k, m);
    }
    NotHandledBefore(run, steps, k, k, m);
    MeetsRun(run, steps, k, j, m);
    d := RoutedFrom(run, steps, j, slot);
    if d < k {
      NotHandledBefore(run, steps, d, k, m);
    }
    MeetsRun(run, steps, k, d, m);
  }

  // ---------------------------------------------------------------- theorems: acknowledged messages

  lemma AnswerIsStored(s: M.State, key: M.Key, m: Message)
    requires M.Inv(s) && (key, m) in s.replies
    ensures m.id in s.db.messages && s.db.messages[m.id].message == m && m.conv == key.conv
    ensures m.id in s.origin && s.origin[m.id] == key
  {
  }

  /** A request that was new at `s` wrote a message that was new there. */
  lemma NewRequestNewMessage(s: M.State, t: M.State, key: M.Key, m: Message)
    requires M.Inv(s) && M.Inv(t) && M.Extends(s, t)
    requires key !in s.db.idempotency && (key, m) in t.replies
    ensures m.id !in s.db.messages
  {
    AnswerIsStored(t, key, m);
    forall id | id in s.db.messages ensures id in t.origin && t.origin[id] == s.origin[id] &&
        s.origin[id] in s.db.idempotency {
      assert s.db.idempotency[s.origin[id]].value.id == id;
    }
  }

  lemma AcknowledgedIsNew(run: seq<State>, steps: seq<Step>, k: nat, i: nat, key: M.Key, m: Message)
    requires IsRun(run, steps) && k <= i < |run|
    requires (key, m) in run[i].feed.service.replies && key !in run[k].feed.service.db.idempotency
    ensures m.id !in run[k].feed.service.db.messages && m.id in run[i].feed.service.db.messages
    ensures run[i].feed.service.db.messages[m.id].message == m && m.conv == key.conv
  {
    Invariant(run, steps, k);
    Invariant(run, steps, i);
    ServiceExtends(run, steps, k, i);
    AnswerIsStored(run[i].feed.service, key, m);
    NewRequestNewMessage(run[k].feed.service, run[i].feed.service, key, m);
  }

  /** The same for every message that a sender got an answer for, if the request was new when the user was in the
      entry with nothing waiting. */
  lemma AcknowledgedIsDelivered(run: seq<State>, steps: seq<Step>, k: nat, d: nat, i: nat, key: M.Key, m: Message)
    requires IsRun(run, steps) && k <= d < i < |run|
    requires (key, m) in run[i].feed.service.replies && key !in run[k].feed.service.db.idempotency
    requires InEntry(run[k], key.conv) && forall j | k <= j < d :: !TakesOut(run[j], steps[j], key.conv)
    requires Answered(run[d], steps[d], m) && run[d].registered && run[i].registered
    requires forall slot | slot in run[i].cache.handlings :: !About(run[i].cache.handlings[slot], m)
    requires R.Settled(run[i].client.session)
    ensures R.Accepted(run[i].client.session, m)
  {
    AcknowledgedIsNew(run, steps, k, i, key, m);
    StoredIsDelivered(run, steps, k, d, i, m);
  }

  // ---------------------------------------------------------------- theorems: nothing else

  lemma EverGrows(s: State, st: Step, t: State)
    requires Moves(s, st, t)
    ensures t.user == s.user && t.client.past.ever <= s.client.past.ever + TableOf(t.roster.service.db, t.user)
  {
    if st.Handle? && Offers(st.act) {
      ActHandles(s, st, t);
      HandledFrame(s.client, s.cache.handlings[st.slot].e, Reaches(s, st.slot));
    } else if st.Client? {
      OwnFrame(s.client, st.cst);
    }
  }

  lemma {:induction false} EverWasMember(run: seq<State>, steps: seq<Step>, i: nat, c: Id) returns (j: nat)
    requires IsRun(run, steps) && i < |run| && c in run[i].client.past.ever
    ensures j <= i && c in TableOf(run[j].roster.service.db, run[i].user)
  {
    if i > 0 {
      assert StepAt(run, steps, i - 1);
      EverGrows(run[i - 1], steps[i - 1], run[i]);
      if c in TableOf(run[i].roster.service.db, run[i].user) {
        j := i;
      } else {
        j := EverWasMember(run, steps, i - 1, c);
      }
    }
  }

  lemma AcceptedIsRow(run: seq<State>, steps: seq<Step>, i: nat, m: Message)
    requires IsRun(run, steps) && i < |run| && R.Accepted(run[i].client.session, m)
    ensures m.id in run[i].feed.service.db.messages && run[i].feed.service.db.messages[m.id].message == m
    ensures m.conv in run[i].client.past.ever
  {
    Invariant(run, steps, i);
    var e :| e in P.Accepted(run[i].client.session) && e.body == MessageSent(m);
    R.AcceptedIsKnown(run[i].client, e);
  }

  /** Nothing else reaches the queue: at every moment of every run, each message in it is stored, and belongs to a
      conversation that the participants table had the user in at that moment or before. */
  lemma DeliveredIsStored(run: seq<State>, steps: seq<Step>, i: nat, m: Message)
    requires IsRun(run, steps) && i < |run| && R.Accepted(run[i].client.session, m)
    ensures m.id in run[i].feed.service.db.messages && run[i].feed.service.db.messages[m.id].message == m
    ensures exists j: nat :: j <= i && m.conv in TableOf(run[j].roster.service.db, run[i].user)
  {
    AcceptedIsRow(run, steps, i, m);
    var j := EverWasMember(run, steps, i, m.conv);
  }
}
