/** The handlings of records that run at the same time on one instance, and the membership cache they share. A handling
    updates the cache, reads the members, and on a miss waits for a lookup whose answer then replaces the whole entry;
    it looks the members' devices up, offers the event to their sessions, and at last takes out whom the event removes.
    Each of these is a step, and other handlings may come between any two. */
module Dispatching {
  import opened Events
  import V = Convergence

  datatype Topic = Messages | Conversations

  datatype Phase =
    | Resolving                                  // before the members are read from the cache
    | Missed                                     // waiting for a lookup of the members
    | Routing(members: set<Id>)                  // before the devices are looked up
    | Offering(members: set<Id>, listed: bool)   // listed: the lookup has the device of the user in question
    | Routed                                     // before a removal takes its user out

  /** A handling of the record at a place of a topic's stream. */
  datatype Handling = Handling(topic: Topic, place: nat, e: Envelope, phase: Phase)

  datatype State = State(entries: map<Id, set<Id>>, handlings: map<nat, Handling>)

  datatype Step =
    | Begin(slot: nat, topic: Topic, place: nat, e: Envelope)
    | Resolve(slot: nat)
    | Load(slot: nat, answer: Option<set<Id>>)   // None: the lookup fails
    | Devices(slot: nat, listed: bool)
    | Offer(slot: nat)
    | Finish(slot: nat)

  const EMPTY := State(map[], map[])

  function Entry(s: State, c: Id): set<Id> {
    if c in s.entries then s.entries[c] else {}
  }

  predicate Enabled(s: State, st: Step) {
    match st
    case Begin(slot, _, _, _) => slot !in s.handlings
    case Resolve(slot) => slot in s.handlings && s.handlings[slot].phase.Resolving?
    case Load(slot, _) => slot in s.handlings && s.handlings[slot].phase.Missed?
    case Devices(slot, _) => slot in s.handlings && s.handlings[slot].phase.Routing?
    case Offer(slot) => slot in s.handlings && s.handlings[slot].phase.Offering?
    case Finish(slot) => slot in s.handlings && s.handlings[slot].phase.Routed?
  }

  /** The conversation that a handling is about. */
  function ConvOf(h: Handling): Id {
    ConversationOf(h.e.body)
  }

  function Moved(s: State, slot: nat, phase: Phase): State
    requires slot in s.handlings
  {
    s.(handlings := s.handlings[slot := s.handlings[slot].(phase := phase)])
  }

  function Apply(s: State, st: Step): State
    requires Enabled(s, st)
  {
    match st
    case Begin(slot, topic, place, e) =>
      var c := ConversationOf(e.body);
      State(s.entries[c := V.PreRoute(Entry(s, c), e.body)], s.handlings[slot := Handling(topic, place, e, Resolving)])
    case Resolve(slot) =>
      var members := Entry(s, ConvOf(s.handlings[slot]));
      Moved(s, slot, if members != {} then Routing(members) else Missed)
    case Load(slot, answer) =>
      if answer.None? then s.(handlings := s.handlings - {slot})
      else Moved(s, slot, Routing(answer.value)).(entries := s.entries[ConvOf(s.handlings[slot]) := answer.value])
    case Devices(slot, listed) => Moved(s, slot, Offering(s.handlings[slot].phase.members, listed))
    case Offer(slot) => Moved(s, slot, Routed)
    case Finish(slot) =>
      var b := s.handlings[slot].e.body;
      var c := ConversationOf(b);
      State(if b.MembershipChanged? && !b.added then s.entries[c := Entry(s, c) - {b.user}] else s.entries,
            s.handlings - {slot})
  }

  ghost predicate TraceAt(ss: seq<State>, steps: seq<Step>, i: nat)
    requires i < |steps| && i + 1 < |ss|
  {
    Enabled(ss[i], steps[i]) && ss[i + 1] == Apply(ss[i], steps[i])
  }

  ghost predicate IsTrace(ss: seq<State>, steps: seq<Step>) {
    && |ss| == |steps| + 1
    && forall i: nat {:trigger TraceAt(ss, steps, i)} | i < |steps| :: TraceAt(ss, steps, i)
  }

  // ---------------------------------------------------------------- one handling alone

  /** The state once a handling that begins now has its members, or is over because its lookup failed. */
  function AfterResolving(s: State, slot: nat, topic: Topic, place: nat, e: Envelope, answer: Option<set<Id>>): State
    requires slot !in s.handlings
  {
    var read := Apply(Apply(s, Begin(slot, topic, place, e)), Resolve(slot));
    if read.handlings[slot].phase.Missed? then Apply(read, Load(slot, answer)) else read
  }

  lemma ResolvingAlone(s: State, slot: nat, topic: Topic, place: nat, e: Envelope, answer: Option<set<Id>>)
    requires slot !in s.handlings
    ensures var c := ConversationOf(e.body);
            var t := AfterResolving(s, slot, topic, place, e, answer);
            var members := V.Resolved(Entry(s, c), e.body, answer);
            && (forall d: Id | d != c :: Entry(t, d) == Entry(s, d))
            && (if members.None? then Entry(t, c) == {} && t.handlings == s.handlings
                else Entry(t, c) == members.value
                     && t.handlings == s.handlings[slot := Handling(topic, place, e, Routing(members.value))])
  {
  }

  lemma RoutingAlone(s: State, slot: nat, h: Handling, members: set<Id>, listed: bool) returns (t: State)
    requires slot !in s.handlings && h.phase == Routing(members)
    ensures t == Apply(Apply(Apply(s.(handlings := s.handlings[slot := h]), Devices(slot, listed)), Offer(slot)),
        Finish(slot))
    ensures t.handlings == s.handlings && forall d: Id | d != ConvOf(h) :: Entry(t, d) == Entry(s, d)
    ensures var c := ConvOf(h);
            Entry(t, c) == if h.e.body.MembershipChanged? && !h.e.body.added then Entry(s, c) - {h.e.body.user}
                           else Entry(s, c)
  {
    t := Apply(Apply(Apply(s.(handlings := s.handlings[slot := h]), Devices(slot, listed)), Offer(slot)), Finish(slot));
  }

  /** With nothing in between, a handling is one update of its conversation's entry, and of no other. */
  lemma AloneIsHandle(s: State, slot: nat, topic: Topic, place: nat, e: Envelope, answer: Option<set<Id>>, listed: bool)
    returns (t: State)
    requires slot !in s.handlings
    ensures var read := AfterResolving(s, slot, topic, place, e, answer);
            t == if slot in read.handlings then Apply(Apply(Apply(read, Devices(slot, listed)), Offer(slot)),
                Finish(slot))
                 else read
    ensures t.handlings == s.handlings
    ensures Entry(t, ConversationOf(e.body)) == V.Handle(Entry(s, ConversationOf(e.body)), e.body, answer)
    ensures forall c: Id | c != ConversationOf(e.body) :: Entry(t, c) == Entry(s, c)
  {
    var read := AfterResolving(s, slot, topic, place, e, answer);
    ResolvingAlone(s, slot, topic, place, e, answer);
    if slot in read.handlings {
      var h := read.handlings[slot];
      var rest := State(read.entries, s.handlings);
      assert rest.(handlings := rest.handlings[slot := h]) == read;
      t := RoutingAlone(rest, slot, h, h.phase.members, listed);
    } else {
      t := read;
    }
  }

  // ---------------------------------------------------------------- who stays in an entry

  /** Some handling about the conversation has missed, and its lookup has not come back. */
  predicate Waiting(s: State, c: Id) {
    exists slot :: slot in s.handlings && s.handlings[slot].phase.Missed? && ConvOf(s.handlings[slot]) == c
  }

  /** The step takes the user out of the entry by what its event says: the creation with other founders, which may be
      repeated after a rewind, or the end of the handling of a removal of the user. */
  predicate TakesOut(s: State, st: Step, c: Id, u: Id) {
    match st
    case Begin(_, _, _, e) => e.body.ConversationCreated? && e.body.created == c && u !in e.body.participants
    case Finish(slot) => slot in s.handlings && s.handlings[slot].e.body == MembershipChanged(c, u, false)
    case _ => false
  }

  /** While nothing waits, an entry with somebody in it meets no lookup: a load would need a miss before. */
  lemma EntryStays(s: State, st: Step, t: State, c: Id, u: Id)
    requires Enabled(s, st) && t == Apply(s, st)
    requires u in Entry(s, c) && !Waiting(s, c) && !TakesOut(s, st, c, u)
    ensures u in Entry(t, c) && !Waiting(t, c)
  {
    forall slot | slot in t.handlings && ConvOf(t.handlings[slot]) == c ensures !t.handlings[slot].phase.Missed? {
      if slot in s.handlings && !(st.Begin? && st.slot == slot) {
        assert ConvOf(s.handlings[slot]) == c;
      }
    }
  }

  /** A step changes the entry of one conversation at most, the handled event's, and only three do: an event before its
      routing, a lookup that came back, which is what the entry then is, and the end of the handling of a removal. A
      failed lookup changes no entry. */
  lemma EntryChanges(s: State, st: Step, c: Id)
    requires Enabled(s, st) && Entry(Apply(s, st), c) != Entry(s, c)
    ensures match st
            case Begin(_, _, _, e) =>
              && c == ConversationOf(e.body)
              && (e.body.ConversationCreated? || (e.body.MembershipChanged? && e.body.added))
            case Load(slot, answer) => c == ConvOf(s.handlings[slot]) && answer == Some(Entry(Apply(s, st), c))
            case Finish(slot) =>
              exists u :: && s.handlings[slot].e.body == MembershipChanged(c, u, false)
                          && u in Entry(s, c) && Entry(Apply(s, st), c) == Entry(s, c) - {u}
            case _ => false
  {
  }

  /** The step tells the conversation's entry something: a creation or an addition before its routing, an answered
      lookup, or the end of the handling of a removal. */
  predicate Tells(s: State, st: Step, c: Id) {
    match st
    case Begin(_, _, _, e) =>
      ConversationOf(e.body) == c && (e.body.ConversationCreated? || (e.body.MembershipChanged? && e.body.added))
    case Load(slot, answer) => slot in s.handlings && ConvOf(s.handlings[slot]) == c && answer.Some?
    case Finish(slot) =>
      && slot in s.handlings && ConvOf(s.handlings[slot]) == c
      && s.handlings[slot].e.body.MembershipChanged? && !s.handlings[slot].e.body.added
    case _ => false
  }

  /** Nothing else touches an entry: misses, failed lookups, routing and the events of other conversations leave it as
      it is, through any run of handlings. */
  lemma {:induction false} EntryIsUntouched(ss: seq<State>, steps: seq<Step>, k: nat, i: nat, c: Id)
    requires IsTrace(ss, steps) && k <= i < |ss|
    requires forall j | k <= j < i :: !Tells(ss[j], steps[j], c)
    ensures Entry(ss[i], c) == Entry(ss[k], c)
    decreases i - k
  {
    if k < i {
      EntryIsUntouched(ss, steps, k, i - 1, c);
      assert TraceAt(ss, steps, i - 1) && !Tells(ss[i - 1], steps[i - 1], c);
      if Entry(ss[i], c) != Entry(ss[i - 1], c) {
        EntryChanges(ss[i - 1], steps[i - 1], c);
      }
    }
  }

  /** Whoever is in an entry while no handling about the conversation waits for a lookup stays in it, whatever handlings
      run together, until the handling of an event takes them out. */
  lemma {:induction false} EntryPersists(ss: seq<State>, steps: seq<Step>, k: nat, i: nat, c: Id, u: Id)
    requires IsTrace(ss, steps) && k <= i < |ss|
    requires u in Entry(ss[k], c) && !Waiting(ss[k], c)
    requires forall j | k <= j < i :: !TakesOut(ss[j], steps[j], c, u)
    ensures u in Entry(ss[i], c) && !Waiting(ss[i], c)
    decreases i - k
  {
    if k < i {
      EntryPersists(ss, steps, k, i - 1, c, u);
      assert TraceAt(ss, steps, i - 1);
      EntryStays(ss[i - 1], steps[i - 1], ss[i], c, u);
    }
  }

  /** The guard is needed: a handling that missed before the user got into the entry evicts the user when its lookup
      comes back, although no event takes the user out. */
  lemma LateLoadEvicts() returns (ss: seq<State>, steps: seq<Step>)
    ensures IsTrace(ss, steps) && |steps| == 4 && ss[0] == EMPTY
    ensures "x" in Entry(ss[3], "c") && Waiting(ss[3], "c") && "x" !in Entry(ss[4], "c")
    ensures forall j | 0 <= j < |steps| :: !TakesOut(ss[j], steps[j], "c", "x")
  {
    var deleted := Envelope(MessageDeleted("c", "m"), 0);
    var added := Envelope(MembershipChanged("c", "x", true), 0);
    steps := [Begin(0, Messages, 0, deleted), Resolve(0), Begin(1, Conversations, 0, added), Load(0, Some({"a"}))];
    var s1 := Apply(EMPTY, steps[0]);
    var s2 := Apply(s1, steps[1]);
    var s3 := Apply(s2, steps[2]);
    ss := [EMPTY, s1, s2, s3, Apply(s3, steps[3])];
    assert s3.handlings[0].phase.Missed? && ConvOf(s3.handlings[0]) == "c";
    forall i: nat | i < |steps| ensures TraceAt(ss, steps, i) {
      assert i == 0 || i == 1 || i == 2 || i == 3;
    }
  }
}
