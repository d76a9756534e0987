/** One conversation's entry in the membership cache, fed from the event stream. The stream is the relay's: the
    log of the conversation service with rewinds. A cache miss loads the entry with some committed version of the
    participants table: the service answers from a cache of its own, so it may be ahead of the stream or behind it. */
module Convergence {
  import opened Events
  import C = Conversation

  // ---------------------------------------------------------------- the handler

  /** The entry after the update that precedes routing. */
  function PreRoute(entry: set<Id>, b: Body): set<Id> {
    match b
    case ConversationCreated(_, us) => SetOf(us)
    case MembershipChanged(_, u, added) => if added then entry + {u} else entry
    case _ => entry
  }

  /** The members that an event is routed to: the entry, or on a miss what a lookup answers; None if it fails. */
  function Resolved(entry: set<Id>, b: Body, table: Option<set<Id>>): Option<set<Id>> {
    var pre := PreRoute(entry, b);
    if pre != {} then Some(pre) else table
  }

  /** The entry after an event: the members it was routed to, less the one that it removes; a failed lookup ends the
      handling with the entry empty. */
  function Handle(entry: set<Id>, b: Body, table: Option<set<Id>>): set<Id> {
    match Resolved(entry, b, table)
    case None => {}
    case Some(members) => if b.MembershipChanged? && !b.added then members - {b.user} else members
  }

  /** The guard of the two places that replace the whole entry. */
  predicate Loads(entry: set<Id>, b: Body, table: Option<set<Id>>) {
    b.ConversationCreated? || (PreRoute(entry, b) == {} && table.Some?)
  }

  // ---------------------------------------------------------------- log and stream

  /** The members of conversation `c` after the events with ids below `n`. */
  function Members(log: map<nat, Envelope>, n: nat, c: Id): set<Id> {
    if n == 0 then {}
    else if n - 1 in log then C.Step1(Members(log, n - 1, c), log[n - 1].body, c)
    else Members(log, n - 1, c)
  }

  /** A record of the conversation service's topic, or an event of another topic; `version` says with which version
      of the participants table a lookup answers, the events with lower ids; None is a failed lookup. */
  datatype Item = Rec(id: nat, version: Option<nat>) | Other(body: Body, version: Option<nat>)

  function BodyOf(log: map<nat, Envelope>, it: Item): Body
    requires it.Rec? ==> it.id in log
  {
    if it.Rec? then log[it.id].body else it.body
  }

  /** The id of the last record, or `start`. */
  function Position(start: int, items: seq<Item>): int {
    if items == [] then start
    else if items[|items| - 1].Rec? then items[|items| - 1].id
    else Position(start, items[..|items| - 1])
  }

  /** The item may come at stream position `p`: it is the next record or a rewind, or of another topic; a lookup
      answers with any committed version. */
  predicate Follows(log: map<nat, Envelope>, next: nat, p: int, it: Item) {
    match it
    case Rec(i, v) =>
      i in log && i < next && (forall j | j in log :: j <= p || j >= i) && (v.Some? ==> v.value <= next)
    case Other(b, v) => !C.Structural(b) && (v.Some? ==> v.value <= next)
  }

  predicate FollowsAt(log: map<nat, Envelope>, next: nat, start: int, items: seq<Item>, q: nat)
    requires q < |items|
  {
    Follows(log, next, Position(start, items[..q]), items[q])
  }

  ghost predicate IsStream(log: map<nat, Envelope>, next: nat, start: int, items: seq<Item>) {
    forall q: nat {:trigger FollowsAt(log, next, start, items, q)} | q < |items| ::
        FollowsAt(log, next, start, items, q)
  }

  function Table(log: map<nat, Envelope>, version: Option<nat>, c: Id): Option<set<Id>> {
    if version.Some? then Some(Members(log, version.value, c)) else None
  }

  function Feed1(log: map<nat, Envelope>, c: Id, entry: set<Id>, it: Item): set<Id>
    requires it.Rec? ==> it.id in log
  {
    if ConversationOf(BodyOf(log, it)) == c then Handle(entry, BodyOf(log, it), Table(log, it.version, c)) else entry
  }

  ghost function Feed(log: map<nat, Envelope>, next: nat, c: Id, start: int, entry: set<Id>, items: seq<Item>): set<Id>
    requires IsStream(log, next, start, items)
  {
    if items == [] then entry
    else
      var front := items[..|items| - 1];
      StreamFront(log, next, start, items);
      Feed1(log, c, Feed(log, next, c, start, entry, front), items[|items| - 1])
  }

  lemma StreamFront(log: map<nat, Envelope>, next: nat, start: int, items: seq<Item>)
    requires IsStream(log, next, start, items) && items != []
    ensures IsStream(log, next, start, items[..|items| - 1])
    ensures Follows(log, next, Position(start, items[..|items| - 1]), items[|items| - 1])
  {
    var front := items[..|items| - 1];
    assert FollowsAt(log, next, start, items, |items| - 1);
    forall q: nat | q < |front| ensures FollowsAt(log, next, start, front, q) {
      assert FollowsAt(log, next, start, items, q) && front[..q] == items[..q];
    }
  }

  // ---------------------------------------------------------------- who an event concerns

  predicate Touches(b: Body, c: Id, u: Id) {
    match b
    case ConversationCreated(d, _) => d == c
    case MembershipChanged(d, v, _) => d == c && v == u
    case _ => false
  }

  /** No event above `p` concerns `u` in conversation `c`. */
  ghost predicate Quiet(log: map<nat, Envelope>, c: Id, p: int, u: Id) {
    forall j | j in log && j > p :: !Touches(log[j].body, c, u)
  }

  lemma StepTouch(x: set<Id>, y: set<Id>, b: Body, c: Id, u: Id)
    ensures !Touches(b, c, u) ==> (u in C.Step1(x, b, c) <==> u in x)
    ensures Touches(b, c, u) ==> (u in C.Step1(x, b, c) <==> u in C.Step1(y, b, c))
  {
  }

  lemma {:induction false} MembersStable(log: map<nat, Envelope>, c: Id, k: nat, n: nat, u: Id)
    requires k <= n && Quiet(log, c, k - 1, u)
    ensures u in Members(log, k, c) <==> u in Members(log, n, c)
    decreases n
  {
    if k < n {
      MembersStable(log, c, k, n - 1, u);
      if n - 1 in log {
        StepTouch(Members(log, n - 1, c), {}, log[n - 1].body, c, u);
      }
    }
  }

  /** An event decides about the users it concerns, if nothing later does. */
  lemma LastWord(log: map<nat, Envelope>, next: nat, c: Id, i: nat, u: Id, x: set<Id>)
    requires i in log && i < next && Quiet(log, c, i, u) && Touches(log[i].body, c, u)
    ensures u in C.Step1(x, log[i].body, c) <==> u in Members(log, next, c)
  {
  }

  // ---------------------------------------------------------------- what the entry goes back to

  /** The item replaces the whole entry. */
  predicate Replaces(log: map<nat, Envelope>, c: Id, entry: set<Id>, it: Item)
    requires it.Rec? ==> it.id in log
  {
    ConversationOf(BodyOf(log, it)) == c && Loads(entry, BodyOf(log, it), Table(log, it.version, c))
  }

  /** Some item of the stream replaces the whole entry. */
  ghost predicate EverLoads(log: map<nat, Envelope>, next: nat, c: Id, start: int, entry: set<Id>, items: seq<Item>)
    requires IsStream(log, next, start, items)
  {
    items != [] &&
    var front, it := items[..|items| - 1], items[|items| - 1];
    StreamFront(log, next, start, items);
    || EverLoads(log, next, c, start, entry, front)
    || Replaces(log, c, Feed(log, next, c, start, entry, front), it)
  }

  /** What the entry was last replaced with: the founders, or the answer of a lookup; at first, what it began with. */
  ghost function Basis(log: map<nat, Envelope>, next: nat, c: Id, start: int, entry: set<Id>, items: seq<Item>): set<Id>
    requires IsStream(log, next, start, items)
  {
    if items == [] then entry
    else
      var front, it := items[..|items| - 1], items[|items| - 1];
      StreamFront(log, next, start, items);
      if !Replaces(log, c, Feed(log, next, c, start, entry, front), it) then Basis(log, next, c, start, entry, front)
      else if BodyOf(log, it).ConversationCreated? then SetOf(BodyOf(log, it).participants)
      else Members(log, it.version.value, c)
  }

  /** An event since then, or the one that led to it, concerns the user. */
  ghost predicate Changed(log: map<nat, Envelope>, next: nat, c: Id, start: int, entry: set<Id>, items: seq<Item>,
                          u: Id)
    requires IsStream(log, next, start, items)
  {
    items != [] &&
    var front, it := items[..|items| - 1], items[|items| - 1];
    StreamFront(log, next, start, items);
    || Touches(BodyOf(log, it), c, u)
    || (!Replaces(log, c, Feed(log, next, c, start, entry, front), it) && Changed(log, next, c, start, entry, front, u))
  }

  /** The entry is right about the user, unless the rest of the log still concerns the user. */
  ghost predicate GoodFor(log: map<nat, Envelope>, next: nat, c: Id, p: int, entry: set<Id>, u: Id) {
    Quiet(log, c, p, u) ==> (u in entry <==> u in Members(log, next, c))
  }

  // ---------------------------------------------------------------- one item

  /** What the log of the conversation service guarantees about a conversation: it is created once, with members,
      before any change in it, and no change names its creator. */
  ghost predicate WellFormed(log: map<nat, Envelope>, next: nat, c: Id, birth: nat, creator: Id) {
    && (forall i | i in log :: i < next)
    && birth in log && log[birth].body.ConversationCreated? && log[birth].body.created == c
    && creator in log[birth].body.participants
    && (forall i | i in log && log[i].body.ConversationCreated? && log[i].body.created == c :: i == birth)
    && (forall i | i in log && log[i].body.MembershipChanged? && log[i].body.changedIn == c ::
          i > birth && log[i].body.user != creator)
  }

  /** A user whom neither the item nor anything after it concerns was quiet before it. */
  lemma QuietBefore(log: map<nat, Envelope>, next: nat, c: Id, p: int, it: Item, u: Id)
    requires Follows(log, next, p, it) && Quiet(log, c, Position(p, [it]), u) && !Touches(BodyOf(log, it), c, u)
    ensures Quiet(log, c, p, u)
  {
    assert [it][..|[it]| - 1] == [];
    assert it.Other? ==> Position(p, [it]) == p;
    if it.Rec? {
      forall j | j in log && j > p ensures !Touches(log[j].body, c, u) {
        assert j == it.id || j > it.id;
      }
    }
  }

  lemma BirthHasMembers(log: map<nat, Envelope>, next: nat, c: Id, birth: nat, creator: Id, it: Item)
    requires WellFormed(log, next, c, birth, creator) && (it.Rec? ==> it.id in log)
    requires it.Other? ==> !C.Structural(it.body)
    ensures var b := BodyOf(log, it);
            ConversationOf(b) == c && b.ConversationCreated? ==> it.id == birth && creator in SetOf(b.participants)
  {
  }

  lemma PositionSnoc(start: int, front: seq<Item>, it: Item)
    ensures Position(start, front + [it]) == Position(Position(start, front), [it])
  {
  }

  /** An event decides about the users it concerns, whatever the entry was. */
  lemma TouchDecides(log: map<nat, Envelope>, next: nat, c: Id, birth: nat, creator: Id, p: int, entry: set<Id>,
                     it: Item,
                     u: Id)
    requires WellFormed(log, next, c, birth, creator) && Follows(log, next, p, it) && Touches(BodyOf(log, it), c, u)
    ensures GoodFor(log, next, c, Position(p, [it]), Feed1(log, c, entry, it), u)
  {
    BirthHasMembers(log, next, c, birth, creator, it);
    assert [it][..0] == [];
    if Quiet(log, c, it.id, u) {
      LastWord(log, next, c, it.id, u, entry);
    }
  }

  /** About everybody else the entry stays as it was, or is what it is replaced with. */
  lemma ItemLeaves(log: map<nat, Envelope>, next: nat, c: Id, birth: nat, creator: Id, p: int, entry: set<Id>, it: Item,
                   u: Id)
    requires WellFormed(log, next, c, birth, creator) && Follows(log, next, p, it) && !Touches(BodyOf(log, it), c, u)
    ensures !Replaces(log, c, entry, it) ==>
              && (u in Feed1(log, c, entry, it) <==> u in entry)
              && (GoodFor(log, next, c, p, entry, u) ==>
                    GoodFor(log, next, c, Position(p, [it]), Feed1(log, c, entry, it), u))
    ensures Replaces(log, c, entry, it) ==>
              && !BodyOf(log, it).ConversationCreated?
              && (u in Feed1(log, c, entry, it) <==> u in Members(log, it.version.value, c))
  {
    if Quiet(log, c, Position(p, [it]), u) {
      QuietBefore(log, next, c, p, it, u);
    }
  }

  // ---------------------------------------------------------------- a whole stream

  /** The fed entry is right about whoever changed since it was last replaced, and as replaced about the others. */
  lemma {:induction false} FedEntry(log: map<nat, Envelope>, next: nat, c: Id, birth: nat, creator: Id, start: int,
                                    entry: set<Id>, items: seq<Item>, u: Id)
    requires WellFormed(log, next, c, birth, creator) && IsStream(log, next, start, items)
    ensures var fed := Feed(log, next, c, start, entry, items);
            if Changed(log, next, c, start, entry, items, u)
            then GoodFor(log, next, c, Position(start, items), fed, u)
            else u in fed <==> u in Basis(log, next, c, start, entry, items)
    decreases |items|
  {
    if items != [] {
      var front, it := items[..|items| - 1], items[|items| - 1];
      StreamFront(log, next, start, items);
      FedEntry(log, next, c, birth, creator, start, entry, front, u);
      var p, before := Position(start, front), Feed(log, next, c, start, entry, front);
      assert items == front + [it];
      PositionSnoc(start, front, it);
      if Touches(BodyOf(log, it), c, u) {
        TouchDecides(log, next, c, birth, creator, p, before, it, u);
      } else {
        ItemLeaves(log, next, c, birth, creator, p, before, it, u);
      }
    }
  }

  /** The stream has come to the end of the log. */
  predicate AtEnd(log: map<nat, Envelope>, start: int, items: seq<Item>) {
    forall j | j in log :: j <= Position(start, items)
  }

  /** What the entry goes back to agrees with the table about everybody who has not changed since. */
  ghost predicate FreshBasis(log: map<nat, Envelope>, next: nat, c: Id, start: int, entry: set<Id>, items: seq<Item>)
    requires IsStream(log, next, start, items)
  {
    forall u: Id | !Changed(log, next, c, start, entry, items, u) ::
      u in Basis(log, next, c, start, entry, items) <==> u in Members(log, next, c)
  }

  /** Exactly when an entry, whatever it began with, ends equal to the table at the end of a stream with any rewinds,
      and with lookups that fail or answer with any committed version. */
  lemma EntryConvergesIff(log: map<nat, Envelope>, next: nat, c: Id, birth: nat, creator: Id, start: int,
                          entry: set<Id>,
                          items: seq<Item>)
    requires WellFormed(log, next, c, birth, creator) && IsStream(log, next, start, items) && AtEnd(log, start, items)
    ensures Feed(log, next, c, start, entry, items) == Members(log, next, c) <==>
            FreshBasis(log, next, c, start, entry, items)
  {
    var fed := Feed(log, next, c, start, entry, items);
    forall u: Id
      ensures Changed(log, next, c, start, entry, items, u) ==> (u in fed <==> u in Members(log, next, c))
      ensures !Changed(log, next, c, start, entry, items, u) ==>
                (u in fed <==> u in Basis(log, next, c, start, entry, items))
    {
      FedEntry(log, next, c, birth, creator, start, entry, items, u);
      assert Quiet(log, c, Position(start, items), u);
    }
  }

  // ---------------------------------------------------------------- entries that began loaded

  /** The creator stays in the entry, so no lookup happens, and whoever did not change was quiet from the start. */
  lemma {:induction false} CreatorStays(log: map<nat, Envelope>, next: nat, c: Id, birth: nat, creator: Id, start: int,
                                        entry: set<Id>, items: seq<Item>, u: Id)
    requires WellFormed(log, next, c, birth, creator) && IsStream(log, next, start, items) && creator in entry
    ensures creator in Feed(log, next, c, start, entry, items)
    ensures !Changed(log, next, c, start, entry, items, u) ==>
              && Basis(log, next, c, start, entry, items) == entry
              && (Quiet(log, c, Position(start, items), u) ==> Quiet(log, c, start, u))
    decreases |items|
  {
    if items != [] {
      var front, it := items[..|items| - 1], items[|items| - 1];
      StreamFront(log, next, start, items);
      CreatorStays(log, next, c, birth, creator, start, entry, front, u);
      BirthHasMembers(log, next, c, birth, creator, it);
      assert items == front + [it];
      PositionSnoc(start, front, it);
      if !Touches(BodyOf(log, it), c, u) && Quiet(log, c, Position(start, items), u) {
        QuietBefore(log, next, c, Position(start, front), it, u);
      }
    }
  }

  lemma CreatorIsMember(log: map<nat, Envelope>, next: nat, c: Id, birth: nat, creator: Id, n: nat)
    requires WellFormed(log, next, c, birth, creator) && birth < n
    ensures creator in Members(log, n, c)
  {
    LastWord(log, n, c, birth, creator, {});
  }

  /** An entry loaded after the creation, from a table no older than the start of the stream, converges to the
      table, through any rewinds: the creator is never removed, so it never meets a lookup. */
  lemma LoadedEntryConverges(log: map<nat, Envelope>, next: nat, c: Id, birth: nat, creator: Id, start: int,
                             version: nat,
                             items: seq<Item>)
    requires WellFormed(log, next, c, birth, creator) && IsStream(log, next, start, items) && AtEnd(log, start, items)
    requires start < version <= next && birth < version
    ensures Feed(log, next, c, start, Members(log, version, c), items) == Members(log, next, c)
  {
    var entry := Members(log, version, c);
    CreatorIsMember(log, next, c, birth, creator, version);
    forall u: Id | !Changed(log, next, c, start, entry, items, u)
      ensures u in Basis(log, next, c, start, entry, items) <==> u in Members(log, next, c)
    {
      CreatorStays(log, next, c, birth, creator, start, entry, items, u);
      assert Quiet(log, c, Position(start, items), u);
      MembersStable(log, c, version, next, u);
    }
    EntryConvergesIff(log, next, c, birth, creator, start, entry, items);
  }

  // ---------------------------------------------------------------- entries that began empty

  lemma {:induction false} NoLoadNoCreator(log: map<nat, Envelope>, next: nat, c: Id, birth: nat, creator: Id,
                                           start: int,
                                           items: seq<Item>)
    requires WellFormed(log, next, c, birth, creator) && IsStream(log, next, start, items)
    requires !EverLoads(log, next, c, start, {}, items)
    ensures Basis(log, next, c, start, {}, items) == {} && !Changed(log, next, c, start, {}, items, creator)
    decreases |items|
  {
    if items != [] {
      StreamFront(log, next, start, items);
      NoLoadNoCreator(log, next, c, birth, creator, start, items[..|items| - 1]);
    }
  }

  /** An entry that begins empty converges exactly when something replaces it as a whole, and the last replacement,
      the founders or the answer of a lookup, agrees with the table about everybody not changed since. */
  lemma UnloadedEntryConvergesIff(log: map<nat, Envelope>, next: nat, c: Id, birth: nat, creator: Id, start: int,
                                  items: seq<Item>)
    requires WellFormed(log, next, c, birth, creator) && IsStream(log, next, start, items) && AtEnd(log, start, items)
    ensures Feed(log, next, c, start, {}, items) == Members(log, next, c) <==>
            EverLoads(log, next, c, start, {}, items) && FreshBasis(log, next, c, start, {}, items)
  {
    EntryConvergesIff(log, next, c, birth, creator, start, {}, items);
    if !EverLoads(log, next, c, start, {}, items) {
      NoLoadNoCreator(log, next, c, birth, creator, start, items);
      CreatorIsMember(log, next, c, birth, creator, next);
    }
  }

  /** An addition that meets an unloaded entry leaves a partial one, which then counts as a hit. */
  lemma AdditionToUnloadedEntry()
    returns (log: map<nat, Envelope>, items: seq<Item>)
    ensures WellFormed(log, 2, "c", 0, "a") && IsStream(log, 2, 0, items) && AtEnd(log, 0, items)
    ensures Feed(log, 2, "c", 0, {}, items) == {"x"} && Members(log, 2, "c") == {"a", "x"}
  {
    log := map[0 := Envelope(ConversationCreated("c", ["a"]), 0), 1 := Envelope(MembershipChanged("c", "x", true), 0)];
    var add, sent := Rec(1, Some(2)), Other(MessageDeleted("c", "m"), Some(2));
    items := [add, sent];
    assert items[..1] == [add] && [add][..0] == [] && items[..0] == [];
    assert Position(0, items[..0]) == 0 && Position(0, items[..1]) == 1;
    assert Members(log, 1, "c") == C.Step1(Members(log, 0, "c"), log[0].body, "c") == {"a"};
    assert Members(log, 2, "c") == C.Step1(Members(log, 1, "c"), log[1].body, "c");
    assert FollowsAt(log, 2, 0, items, 0) && FollowsAt(log, 2, 0, items, 1);
    assert FollowsAt(log, 2, 0, [add], 0);
    assert Feed(log, 2, "c", 0, {}, [add]) == Feed1(log, "c", {}, add) == {"x"};
    assert Feed(log, 2, "c", 0, {}, items) == Feed1(log, "c", {"x"}, sent);
  }

  /** A lookup that answers with an older version leaves the entry behind the table, although the stream is at its end.
      */
  lemma StaleLookup() returns (log: map<nat, Envelope>, items: seq<Item>)
    ensures WellFormed(log, 2, "c", 0, "a") && IsStream(log, 2, 1, items) && AtEnd(log, 1, items)
    ensures EverLoads(log, 2, "c", 1, {}, items)
    ensures Feed(log, 2, "c", 1, {}, items) == {"a"} && Members(log, 2, "c") == {"a", "x"}
  {
    log := map[0 := Envelope(ConversationCreated("c", ["a"]), 0), 1 := Envelope(MembershipChanged("c", "x", true), 0)];
    var deleted := Other(MessageDeleted("c", "m"), Some(1));
    items := [deleted];
    assert items[..0] == [];
    assert Members(log, 1, "c") == C.Step1(Members(log, 0, "c"), log[0].body, "c") == {"a"};
    assert Members(log, 2, "c") == C.Step1(Members(log, 1, "c"), log[1].body, "c");
    assert FollowsAt(log, 2, 1, items, 0);
    assert Feed(log, 2, "c", 1, {}, []) == {};
    assert Feed(log, 2, "c", 1, {}, items) == Feed1(log, "c", {}, deleted);
  }

  // ---------------------------------------------------------------- entries that lookups alone fill

  /** The first answer with members of a lookup for the conversation, or nobody. */
  function FirstAnswer(log: map<nat, Envelope>, c: Id, items: seq<Item>): set<Id> {
    if items == [] then {}
    else
      var first, it := FirstAnswer(log, c, items[..|items| - 1]), items[|items| - 1];
      if first == {} && it.Other? && ConversationOf(it.body) == c &&
          it.version.Some? then Members(log, it.version.value, c)
      else first
  }

  /** An instance that does not read the conversation topic keeps what the first answer told it for ever. */
  lemma {:induction false} OnDemandEntry(log: map<nat, Envelope>, next: nat, c: Id, start: int, items: seq<Item>)
    requires IsStream(log, next, start, items) && forall it | it in items :: it.Other?
    ensures Feed(log, next, c, start, {}, items) == FirstAnswer(log, c, items)
    decreases |items|
  {
    if items != [] {
      var front, it := items[..|items| - 1], items[|items| - 1];
      StreamFront(log, next, start, items);
      assert it in items && forall x | x in front :: x in items;
      OnDemandEntry(log, next, c, start, front);
    }
  }

  /** Exactly when the entry of such an instance equals the table: if its first answer with members still does. */
  lemma OnDemandEntryConvergesIff(log: map<nat, Envelope>, next: nat, c: Id, start: int, items: seq<Item>)
    requires IsStream(log, next, start, items) && forall it | it in items :: it.Other?
    ensures Feed(log, next, c, start, {}, items) == Members(log, next, c) <==>
            FirstAnswer(log, c, items) == Members(log, next, c)
  {
    OnDemandEntry(log, next, c, start, items);
  }

  /** So an addition that comes after that answer never gets into it. */
  lemma {:induction false} OnDemandEntryStays(log: map<nat, Envelope>, c: Id, items: seq<Item>, more: seq<Item>)
    requires FirstAnswer(log, c, items) != {}
    ensures FirstAnswer(log, c, items + more) == FirstAnswer(log, c, items)
  {
    if more != [] {
      OnDemandEntryStays(log, c, items, more[..|more| - 1]);
      assert (items + more)[..|items + more| - 1] == items + more[..|more| - 1];
    } else {
      assert items + more == items;
    }
  }
}
