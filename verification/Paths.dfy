/** Building concrete runs of the message pipeline step by step, with what has held since some moment of them. */
module Paths {
  import opened Events
  import F = MessageFeed
  import L = LiveDelivery
  import MP = MembershipPipeline
  import N = Dispatching
  import O = Outbox
  import R = Resume
  import V = Convergence
  import W = MessagePipeline

  /** What a path is marked with: nothing, a moment at which the user had joined conversation "c", or one at which the
      entry of "c" had the user as well. */
  datatype Mark = Plain | Joined | Entered

  /** At the marked moment the session was live and there was no message yet. */
  ghost predicate Marked(s: W.State, mark: Mark) {
    mark.Plain? ||
    (&& s.client.session.phase.Live? && "c" in W.TableOf(s.roster.service.db, s.user) &&
        s.feed.service.db.messages == map[]
     && (mark.Entered? ==> s.user in N.Entry(s.cache, "c")))
  }

  /** Nothing goes wrong in a step: presence lists the device, the registry has the session, lookups of devices succeed,
      and what is handled takes the user out of no entry of "c". */
  ghost predicate Calm(s: W.State, st: W.Step) {
    && s.present && s.registered
    && (st.Handle? ==> st.act != W.Devices(false)) && !L.TakesOut(s, st, "c")
  }

  ghost predicate CalmFrom(run: seq<W.State>, steps: seq<W.Step>, k: nat)
    requires |steps| < |run|
  {
    forall j: nat {:trigger Calm(run[j], steps[j])} | k <= j < |steps| :: Calm(run[j], steps[j])
  }

  ghost predicate Since(run: seq<W.State>, steps: seq<W.Step>, mark: Mark)
    requires |steps| < |run|
  {
    mark.Plain? || exists k: nat :: k < |run| && Marked(run[k], mark) && CalmFrom(run, steps, k)
  }

  /** A run ends in the state, and nothing has gone wrong since its marked moment. */
  ghost predicate Path(s: W.State, mark: Mark) {
    exists run: seq<W.State>, steps: seq<W.Step> ::
        W.IsRun(run, steps) && run[|run| - 1] == s && Since(run, steps, mark)
  }

  lemma Start(s: W.State)
    requires W.Initial(s)
    ensures Path(s, Plain)
  {
    assert W.IsRun([s], []) && Since([s], [], Plain);
  }

  lemma MarkNow(s: W.State, mark: Mark)
    requires Path(s, Plain) && Marked(s, mark)
    ensures Path(s, mark)
  {
    var run, steps :| W.IsRun(run, steps) && run[|run| - 1] == s;
    assert CalmFrom(run, steps, |steps|);
    assert Since(run, steps, mark);
  }

  lemma ExtendRun(run: seq<W.State>, steps: seq<W.Step>, st: W.Step)
    requires W.IsRun(run, steps) && W.Enabled(run[|run| - 1], st)
    ensures W.IsRun(run + [W.Apply(run[|run| - 1], st)], steps + [st])
  {
    var run', steps' := run + [W.Apply(run[|run| - 1], st)], steps + [st];
    forall i: nat | i < |steps'| ensures W.StepAt(run', steps', i) {
      if i < |steps| {
        assert W.StepAt(run, steps, i);
      }
    }
  }

  lemma ExtendCalm(run: seq<W.State>, steps: seq<W.Step>, st: W.Step, t: W.State, k: nat)
    requires |run| == |steps| + 1 && CalmFrom(run, steps, k) && Calm(run[|steps|], st)
    ensures CalmFrom(run + [t], steps + [st], k)
  {
    forall j: nat | k <= j < |steps| + 1 ensures Calm((run + [t])[j], (steps + [st])[j]) {
      assert j < |steps| ==> Calm(run[j], steps[j]);
    }
  }

  lemma Extend(s: W.State, st: W.Step, mark: Mark)
    requires Path(s, mark) && W.Enabled(s, st) && (mark.Plain? || Calm(s, st))
    ensures Path(W.Apply(s, st), mark)
  {
    var run, steps :| W.IsRun(run, steps) && run[|run| - 1] == s && Since(run, steps, mark);
    var t := W.Apply(s, st);
    ExtendRun(run, steps, st);
    if !mark.Plain? {
      var k: nat :| k < |run| && Marked(run[k], mark) && CalmFrom(run, steps, k);
      ExtendCalm(run, steps, st, t, k);
      assert (run + [t])[k] == run[k];
    }
    assert Since(run + [t], steps + [st], mark);
  }

  // ---------------------------------------------------------------- the parts move

  lemma ClientMoves(s: W.State, cst: R.Step, client: R.State, mark: Mark)
    requires Path(s, mark) && (mark.Plain? || (s.present && s.registered))
    requires W.Own(cst) && R.Enabled(s.client, cst) && client == R.Apply(s.client, cst)
    ensures Path(s.(client := client, registered := s.registered || cst.AddToRegistry?), mark)
  {
    Extend(s, W.Client(cst), mark);
  }

  /** The client after a step of the conversation service: the table it sees. */
  function Seeing(client: R.State, table: set<Id>): R.State {
    client.(table := table, past := client.past.(ever := client.past.ever + table))
  }

  lemma RosterMoves(s: W.State, mst: MP.Step, roster: MP.State)
    requires Path(s, Plain) && MP.Enabled(s.roster, mst) && roster == MP.Apply(s.roster, mst)
    ensures Path(s.(roster := roster, client := Seeing(s.client, W.TableOf(roster.service.db, s.user))), Plain)
  {
    Extend(s, W.Roster(mst), Plain);
  }

  lemma FeedMoves(s: W.State, fst: F.Step, feed: F.State, mark: Mark)
    requires Path(s, mark) && s.present && s.registered && F.Enabled(s.feed, fst) && feed == F.Apply(s.feed, fst)
    ensures Path(s.(feed := feed, client := s.client.(store := F.StoreOf(feed.service.db.messages))), mark)
  {
    Extend(s, W.Feed(fst), mark);
  }

  lemma RelayMoves(s: W.State, st: O.Step, relay: O.State, mark: Mark)
    requires Path(s, mark) && s.present && s.registered
    requires !st.Insert? && O.Enabled(s.feed.relay, st) && relay == O.Apply(s.feed.relay, st)
    requires s.client.store == F.StoreOf(s.feed.service.db.messages)
    ensures Path(s.(feed := s.feed.(relay := relay)), mark)
  {
    FeedMoves(s, F.Relay(st), s.feed.(relay := relay), mark);
  }

  /** An act that makes no offer and ends no handling. */
  lemma CacheMoves(s: W.State, slot: nat, act: W.Act, cache: N.State, mark: Mark)
    requires Path(s, mark) && W.Acts(s, slot, act) && !W.Offers(act) && !W.Ends(act)
    requires cache == N.Apply(s.cache, W.Inner(s, slot, act))
    requires mark.Plain? || Calm(s, W.Handle(slot, act))
    ensures Path(s.(cache := cache), mark)
  {
    Extend(s, W.Handle(slot, act), mark);
  }

  lemma OfferMoves(s: W.State, slot: nat, cache: N.State, client: R.State, mark: Mark)
    requires Path(s, mark) && W.Acts(s, slot, W.Offer) && cache == N.Apply(s.cache, N.Offer(slot))
    requires client == W.Handled(s.client, s.cache.handlings[slot].e, W.Reaches(s, slot))
    requires mark.Plain? || (s.present && s.registered)
    ensures Path(s.(cache := cache, client := client), mark)
  {
    Extend(s, W.Handle(slot, W.Offer), mark);
  }

  lemma FinishMoves(s: W.State, slot: nat, cache: N.State, mark: Mark)
    requires Path(s, mark) && W.Acts(s, slot, W.Finish) && cache == N.Apply(s.cache, N.Finish(slot))
    requires !s.cache.handlings[slot].e.body.MembershipChanged? || s.cache.handlings[slot].e.body.added
    requires mark.Plain? || (s.present && s.registered)
    ensures Path(s.(cache := cache, handled := W.Over(s, slot, W.Finish)), mark)
  {
    Extend(s, W.Handle(slot, W.Finish), mark);
  }

  // ---------------------------------------------------------------- a handling from where its members are known

  function At(s: W.State, slot: nat, h: N.Handling, phase: N.Phase): W.State {
    s.(cache := With(s.cache, slot, h, phase))
  }

  /** A cache with one more handling, in some phase. */
  function With(cache: N.State, slot: nat, h: N.Handling, phase: N.Phase): N.State {
    cache.(handlings := cache.handlings[slot := h.(phase := phase)])
  }

  lemma CacheActs(cache: N.State, slot: nat, h: N.Handling, members: set<Id>)
    ensures N.Apply(With(cache, slot, h, N.Routing(members)), N.Devices(slot, true))
         == With(cache, slot, h, N.Offering(members, true))
    ensures N.Apply(With(cache, slot, h, N.Offering(members, true)), N.Offer(slot)) == With(cache, slot, h, N.Routed)
  {
  }

  lemma CacheFinishes(cache: N.State, slot: nat, h: N.Handling)
    requires slot !in cache.handlings && (!h.e.body.MembershipChanged? || h.e.body.added)
    ensures N.Apply(With(cache, slot, h, N.Routed), N.Finish(slot)) == cache
  {
  }

  lemma CacheResolves(cache: N.State, slot: nat, h: N.Handling)
    ensures var members := N.Entry(cache, N.ConvOf(h));
            N.Apply(With(cache, slot, h, N.Resolving), N.Resolve(slot)) ==
            With(cache, slot, h, if members != {} then N.Routing(members) else N.Missed)
  {
  }

  lemma Asks(s: W.State, slot: nat, h: N.Handling, members: set<Id>, mark: Mark)
    requires Path(At(s, slot, h, N.Routing(members)), mark) && s.present && s.registered
    ensures Path(At(s, slot, h, N.Offering(members, true)), mark)
  {
    CacheActs(s.cache, slot, h, members);
    CacheMoves(At(s, slot, h, N.Routing(members)), slot, W.Devices(true),
               With(s.cache, slot, h, N.Offering(members, true)), mark);
  }

  lemma Offers(s: W.State, slot: nat, h: N.Handling, members: set<Id>, mark: Mark)
    requires Path(At(s, slot, h, N.Offering(members, true)), mark) && s.present && s.registered
    ensures Path(At(s, slot, h, N.Routed).(client := W.Handled(s.client, h.e, s.user in members)), mark)
  {
    CacheActs(s.cache, slot, h, members);
    OfferMoves(At(s, slot, h, N.Offering(members, true)), slot, With(s.cache, slot, h, N.Routed),
               W.Handled(s.client, h.e, s.user in members), mark);
  }

  lemma Finishes(s: W.State, slot: nat, h: N.Handling, mark: Mark)
    requires Path(At(s, slot, h, N.Routed), mark) && s.present && s.registered && slot !in s.cache.handlings
    requires !h.e.body.MembershipChanged? || h.e.body.added
    ensures Path(s.(handled := if h.topic.Messages? then s.handled + {h.place} else s.handled), mark)
  {
    CacheFinishes(s.cache, slot, h);
    FinishMoves(At(s, slot, h, N.Routed), slot, s.cache, mark);
  }

  /** From resolved members on, a handling offers the event to the session if the members have the user. */
  lemma Routes(s: W.State, slot: nat, h: N.Handling, members: set<Id>, mark: Mark)
    requires Path(At(s, slot, h, N.Routing(members)), mark) && s.present && s.registered && slot !in s.cache.handlings
    requires !h.e.body.MembershipChanged? || h.e.body.added
    ensures Path(s.(client := W.Handled(s.client, h.e, s.user in members),
                    handled := if h.topic.Messages? then s.handled + {h.place} else s.handled), mark)
  {
    Asks(s, slot, h, members, mark);
    Offers(s, slot, h, members, mark);
    Finishes(s.(client := W.Handled(s.client, h.e, s.user in members)), slot, h, mark);
  }

  lemma Begins(s: W.State, slot: nat, topic: N.Topic, place: nat, e: Envelope, mark: Mark)
    requires Path(s, mark) && s.present && s.registered && slot !in s.cache.handlings
    requires W.Record(s, topic, place) == Some(e) && (mark.Plain? || !e.body.ConversationCreated?)
    ensures var c := ConversationOf(e.body);
            var entries := s.cache.entries[c := V.PreRoute(N.Entry(s.cache, c), e.body)];
            Path(At(s.(cache := s.cache.(entries := entries)), slot, N.Handling(topic, place, e, N.Resolving),
                N.Resolving),
                 mark)
  {
    CacheMoves(s, slot, W.Begin(topic, place), N.Apply(s.cache, N.Begin(slot, topic, place, e)), mark);
  }

  lemma Resolves(s: W.State, slot: nat, h: N.Handling, mark: Mark)
    requires Path(At(s, slot, h, N.Resolving), mark) && s.present && s.registered
    ensures var members := N.Entry(s.cache, N.ConvOf(h));
            Path(At(s, slot, h, if members != {} then N.Routing(members) else N.Missed), mark)
  {
    var members := N.Entry(s.cache, N.ConvOf(h));
    CacheResolves(s.cache, slot, h);
    CacheMoves(At(s, slot, h, N.Resolving), slot, W.Resolve,
               With(s.cache, slot, h, if members != {} then N.Routing(members) else N.Missed), mark);
  }

  /** A whole handling that finds members in the cache. */
  lemma Handles(s: W.State, slot: nat, topic: N.Topic, place: nat, e: Envelope, members: set<Id>, mark: Mark)
    requires Path(s, mark) && s.present && s.registered && slot !in s.cache.handlings
    requires W.Record(s, topic, place) == Some(e) && (mark.Plain? || !e.body.ConversationCreated?)
    requires !e.body.MembershipChanged? || e.body.added
    requires members == V.PreRoute(N.Entry(s.cache, ConversationOf(e.body)), e.body) && members != {}
    ensures Path(s.(cache := s.cache.(entries := s.cache.entries[ConversationOf(e.body) := members]),
                    client := W.Handled(s.client, e, s.user in members),
                    handled := if topic.Messages? then s.handled + {place} else s.handled), mark)
  {
    var h := N.Handling(topic, place, e, N.Resolving);
    Begins(s, slot, topic, place, e, mark);
    var t := s.(cache := s.cache.(entries := s.cache.entries[ConversationOf(e.body) := members]));
    Resolves(t, slot, h, mark);
    Routes(t, slot, h, members, mark);
  }
}
