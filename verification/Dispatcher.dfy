/** Fan-out of one event to the sessions of a conversation's members across the instances of the delivery service. */
module Dispatcher {
  import opened Events
  import M = Membership
  import V = Convergence

  /** A session is known by its instance, user and device. */
  datatype Ref = Ref(instance: Id, user: Id, device: Id)

  type Registry = map<Id, set<Id>>          // user -> devices with a session on the instance
  type Presence = map<Id, map<Id, Id>>      // user -> device -> instance

  function DevicesOf(p: Presence, user: Id): map<Id, Id> {
    if user in p then p[user] else map[]
  }

  function SessionsOf(r: Registry, user: Id): set<Id> {
    if user in r then r[user] else {}
  }

  /** The sessions that one user's delivery reaches on the handling instance. */
  function UserRefs(self: Id, user: Id, devices: map<Id, Id>, sessions: set<Id>): set<Ref> {
    set d | d in devices && devices[d] == self && d in sessions :: Ref(self, user, d)
  }

  function UserRemotes(self: Id, devices: map<Id, Id>): set<Id> {
    set d | d in devices && devices[d] != self :: devices[d]
  }

  function LocalRefs(self: Id, members: set<Id>, p: Presence, r: Registry): set<Ref> {
    set u, d | u in members && d in DevicesOf(p, u) && DevicesOf(p, u)[d] == self && d in SessionsOf(r, u) ::
        Ref(self, u, d)
  }

  /** The other instances that hold a device of some member. */
  function Remotes(self: Id, members: set<Id>, p: Presence): set<Id> {
    set u, d | u in members && d in DevicesOf(p, u) && DevicesOf(p, u)[d] != self :: DevicesOf(p, u)[d]
  }

  /** Every session of a member on an instance. */
  function MemberRefs(instance: Id, members: set<Id>, r: Registry): set<Ref> {
    set u, d | u in members && d in SessionsOf(r, u) :: Ref(instance, u, d)
  }

  ghost predicate Once<T(!new)>(s: seq<T>, xs: set<T>) {
    multiset(s) == multiset(xs)
  }

  lemma OnceConcat<T>(s: seq<T>, t: seq<T>, xs: set<T>, ys: set<T>)
    requires multiset(s) == multiset(xs) && multiset(t) == multiset(ys) && xs !! ys
    ensures multiset(s + t) == multiset(xs + ys)
  {
  }

  lemma OnceSnoc<T>(s: seq<T>, xs: set<T>, x: T)
    requires multiset(s) == multiset(xs) && x !in xs
    ensures multiset(s + [x]) == multiset(xs + {x})
  {
  }

  lemma OneMoreDevice(self: Id, user: Id, seen: map<Id, Id>, sessions: set<Id>, d: Id, at: Id)
    requires d !in seen
    ensures var m := seen[d := at];
            && UserRefs(self, user, m, sessions) ==
                 UserRefs(self, user, seen, sessions) + (if at == self &&
                     d in sessions then {Ref(self, user, d)} else {})
            && Ref(self, user, d) !in UserRefs(self, user, seen, sessions)
            && UserRemotes(self, m) == UserRemotes(self, seen) + (if at != self then {at} else {})
  {
    var m := seen[d := at];
    forall x | x in UserRemotes(self, seen) ensures x in UserRemotes(self, m) {
      var k :| k in seen && seen[k] != self && seen[k] == x;
      assert k in m && m[k] == x;
    }
    if at != self {
      assert d in m && m[d] == at;
    }
  }

  lemma OfferDevice(self: Id, user: Id, seen: map<Id, Id>, sessions: set<Id>, d: Id, at: Id, offers: seq<Ref>)
    requires d !in seen && Once(offers, UserRefs(self, user, seen, sessions))
    ensures Once(if at == self && d in sessions then offers + [Ref(self, user, d)] else offers,
                 UserRefs(self, user, seen[d := at], sessions))
  {
    OneMoreDevice(self, user, seen, sessions, d, at);
    if at == self && d in sessions {
      OnceSnoc(offers, UserRefs(self, user, seen, sessions), Ref(self, user, d));
    }
  }

  /** Offers the event to the local sessions of the user's devices and notes the instances of the others. */
  method DeliverToUser(self: Id, user: Id, devices: map<Id, Id>, sessions: set<Id>)
    returns (offers: seq<Ref>, remotes: set<Id>)
    ensures Once(offers, UserRefs(self, user, devices, sessions))
    ensures remotes == UserRemotes(self, devices)
  {
    offers, remotes := [], {};
    var left := devices.Keys;
    ghost var seen: map<Id, Id> := map[];
    while left != {}
      invariant left <= devices.Keys && seen.Keys == devices.Keys - left
      invariant forall k | k in seen :: seen[k] == devices[k]
      invariant Once(offers, UserRefs(self, user, seen, sessions))
      invariant remotes == UserRemotes(self, seen)
      decreases |left|
    {
      var d :| d in left;
      OfferDevice(self, user, seen, sessions, d, devices[d], offers);
      OneMoreDevice(self, user, seen, sessions, d, devices[d]);
      if devices[d] == self {
        if d in sessions {
          offers := offers + [Ref(self, user, d)];
        }
      } else {
        remotes := remotes + {devices[d]};
      }
      seen := seen[d := devices[d]];
      left := left - {d};
    }
    assert seen == devices;
  }

  lemma OneMoreMember(self: Id, members: set<Id>, p: Presence, r: Registry, u: Id)
    requires u !in members
    ensures LocalRefs(self, members + {u}, p, r)
         == LocalRefs(self, members, p, r) + UserRefs(self, u, DevicesOf(p, u), SessionsOf(r, u))
    ensures LocalRefs(self, members, p, r) !! UserRefs(self, u, DevicesOf(p, u), SessionsOf(r, u))
    ensures Remotes(self, members + {u}, p) == Remotes(self, members, p) + UserRemotes(self, DevicesOf(p, u))
  {
  }

  /** Routes an event to the resolved members: the local offers, and one publish per remote instance. */
  method Route(self: Id, members: seq<Id>, p: Presence, r: Registry) returns (offers: seq<Ref>, published: seq<Id>)
    requires forall i, j | 0 <= i < j < |members| :: members[i] != members[j]
    ensures Once(offers, LocalRefs(self, SetOf(members), p, r))
    ensures Once(published, Remotes(self, SetOf(members), p))
  {
    offers := [];
    var remotes, i := {}, 0;
    while i < |members|
      invariant 0 <= i <= |members|
      invariant Once(offers, LocalRefs(self, SetOf(members[..i]), p, r))
      invariant remotes == Remotes(self, SetOf(members[..i]), p)
    {
      var u := members[i];
      assert u !in SetOf(members[..i]) && SetOf(members[..i + 1]) == SetOf(members[..i]) + {u};
      OneMoreMember(self, SetOf(members[..i]), p, r, u);
      var os, rs := DeliverToUser(self, u, DevicesOf(p, u), SessionsOf(r, u));
      OnceConcat(offers, os, LocalRefs(self, SetOf(members[..i]), p, r), UserRefs(self, u, DevicesOf(p, u),
          SessionsOf(r, u)));
      offers, remotes := offers + os, remotes + rs;
      i := i + 1;
    }
    assert members[..i] == members;
    published := ListOnce(remotes);
  }

  method ListOnce<T(==)>(s: set<T>) returns (out: seq<T>)
    ensures multiset(out) == multiset(s)
  {
    out := [];
    var left := s;
    while left != {}
      invariant left <= s && multiset(out) == multiset(s - left)
      decreases |left|
    {
      var x :| x in left;
      OnceSnoc(out, s - left, x);
      assert s - (left - {x}) == (s - left) + {x};
      out, left := out + [x], left - {x};
    }
    assert s - left == s;
  }

  lemma OneMoreMemberRef(instance: Id, members: set<Id>, r: Registry, u: Id)
    requires u !in members
    ensures var refs := set d | d in SessionsOf(r, u) :: Ref(instance, u, d);
            && MemberRefs(instance, members + {u}, r) == MemberRefs(instance, members, r) + refs
            && MemberRefs(instance, members, r) !! refs
  {
  }

  /** The receiving side of a publish: every session of every member on this instance. */
  method DeliverRemote(instance: Id, members: seq<Id>, r: Registry) returns (offers: seq<Ref>)
    requires forall i, j | 0 <= i < j < |members| :: members[i] != members[j]
    ensures Once(offers, MemberRefs(instance, SetOf(members), r))
  {
    offers := [];
    var i := 0;
    while i < |members|
      invariant 0 <= i <= |members|
      invariant Once(offers, MemberRefs(instance, SetOf(members[..i]), r))
    {
      var u := members[i];
      assert u !in SetOf(members[..i]) && SetOf(members[..i + 1]) == SetOf(members[..i]) + {u};
      var refs := set d | d in SessionsOf(r, u) :: Ref(instance, u, d);
      OneMoreMemberRef(instance, SetOf(members[..i]), r, u);
      var os := ListOnce(refs);
      OnceConcat(offers, os, MemberRefs(instance, SetOf(members[..i]), r), refs);
      offers := offers + os;
      i := i + 1;
    }
    assert members[..i] == members;
  }

  // ---------------------------------------------------------------- all instances together

  /** What each instance resolves as the members of the event's conversation, from its own cache or by a lookup of its
      own; an instance whose lookup fails is not in the map. */
  type Views = map<Id, seq<Id>>

  function View(views: Views, i: Id): set<Id> {
    if i in views then SetOf(views[i]) else {}
  }

  predicate Listings(views: Views) {
    forall i | i in views :: forall j, k | 0 <= j < k < |views[i]| :: views[i][j] != views[i][k]
  }

  /** The sessions of the members that the instances in `at` resolve. */
  function RemoteRefs(at: set<Id>, views: Views, rs: map<Id, Registry>): set<Ref> {
    set i, u, d | i in at && i in rs && u in View(views, i) && d in SessionsOf(rs[i], u) :: Ref(i, u, d)
  }

  /** Presence lists a device on an instance exactly when that instance has a session for it. */
  ghost predicate Agree(p: Presence, rs: map<Id, Registry>) {
    forall i: Id, u: Id, d: Id ::
      (i in rs && d in SessionsOf(rs[i], u)) <==> (d in DevicesOf(p, u) && DevicesOf(p, u)[d] == i)
  }

  lemma OneMoreInstance(at: set<Id>, views: Views, rs: map<Id, Registry>, i: Id)
    requires i !in at
    ensures var refs := if i in rs then MemberRefs(i, View(views, i), rs[i]) else {};
            && RemoteRefs(at + {i}, views, rs) == RemoteRefs(at, views, rs) + refs
            && RemoteRefs(at, views, rs) !! refs
  {
  }

  lemma PrefixDistinct<T>(s: seq<T>, xs: set<T>, k: nat)
    requires multiset(s) == multiset(xs) && k < |s|
    ensures s[k] in xs && s[k] !in s[..k]
  {
    assert s == s[..k] + [s[k]] + s[k + 1..];
    assert s[k] in multiset(s) && multiset(s)[s[k]] <= 1;
    assert multiset(s[..k])[s[k]] == 0;
  }

  /** Every publish is received by its instance, which delivers to the members it resolves itself. */
  method DeliverPublishes(published: seq<Id>, views: Views, rs: map<Id, Registry>, ghost at: set<Id>)
    returns (offers: seq<Ref>)
    requires Once(published, at) && Listings(views)
    ensures Once(offers, RemoteRefs(at, views, rs))
  {
    offers := [];
    var k := 0;
    while k < |published|
      invariant 0 <= k <= |published|
      invariant Once(offers, RemoteRefs(SetOf(published[..k]), views, rs))
    {
      var i := published[k];
      ghost var done := SetOf(published[..k]);
      PrefixDistinct(published, at, k);
      assert SetOf(published[..k + 1]) == done + {i};
      OneMoreInstance(done, views, rs, i);
      if i in rs && i in views {
        var os := DeliverRemote(i, views[i], rs[i]);
        OnceConcat(offers, os, RemoteRefs(done, views, rs), MemberRefs(i, SetOf(views[i]), rs[i]));
        offers := offers + os;
      }
      k := k + 1;
    }
    ListedSet(published, at);
    assert published[..k] == published;
  }

  /** The sessions that one event handled on `self` reaches, there and through its publishes. */
  function Reached(self: Id, views: Views, p: Presence, rs: map<Id, Registry>): set<Ref>
    requires self in rs
  {
    LocalRefs(self, View(views, self), p, rs[self]) + RemoteRefs(Remotes(self, View(views, self), p), views, rs)
  }

  /** One handled event with the publishes it causes. Whatever presence and the caches say, no session is offered the
      event twice, each remote instance gets one publish and the handling instance none; if presence agrees with the
      registries and the instances resolve the same members, every session of every member is offered it once. */
  method FanOut(self: Id, views: Views, p: Presence, rs: map<Id, Registry>)
    returns (offers: seq<Ref>, published: seq<Id>)
    requires self in rs && self in views && Listings(views)
    ensures Once(published, Remotes(self, SetOf(views[self]), p)) && self !in published
    ensures Once(offers, Reached(self, views, p, rs))
    ensures Agree(p, rs) && (forall i | i in rs :: View(views, i) == SetOf(views[self])) ==>
              Once(offers, Sessions(SetOf(views[self]), rs))
  {
    var local;
    local, published := Route(self, views[self], p, rs[self]);
    ghost var ms := SetOf(views[self]);
    ghost var remotes := Remotes(self, ms, p);
    var remote := DeliverPublishes(published, views, rs, remotes);
    OnceConcat(local, remote, LocalRefs(self, ms, p, rs[self]), RemoteRefs(remotes, views, rs));
    offers := local + remote;
    ListedSet(published, remotes);
    assert self !in SetOf(published);
    if Agree(p, rs) && forall i | i in rs :: View(views, i) == ms {
      AgreementReachesAll(self, ms, views, p, rs);
    }
  }

  lemma ListedSet<T>(s: seq<T>, xs: set<T>)
    requires multiset(s) == multiset(xs)
    ensures SetOf(s) == xs
  {
    forall x ensures x in SetOf(s) <==> x in xs {
      assert x in s <==> x in multiset(s);
    }
  }

  /** Every session of every member, on all instances. */
  function Sessions(members: set<Id>, rs: map<Id, Registry>): set<Ref> {
    set i, u, d | i in rs && u in members && d in SessionsOf(rs[i], u) :: Ref(i, u, d)
  }

  /** What reaching every session of every member takes. On the handling instance, that its view has the member and
      presence lists the session's device there; on another instance, that presence lists some device of a member
      there, so that it gets the publish, and that its own view has the member. */
  ghost predicate Suffices(self: Id, members: set<Id>, views: Views, p: Presence, rs: map<Id, Registry>)
    requires self in rs
  {
    && (forall u, d | u in members && d in SessionsOf(rs[self], u) ::
          u in View(views, self) && d in DevicesOf(p, u) && DevicesOf(p, u)[d] == self)
    && (forall i, u, d | i in rs && i != self && u in members && d in SessionsOf(rs[i], u) ::
          && u in View(views, i)
          && exists v, e :: v in View(views, self) && e in DevicesOf(p, v) && DevicesOf(p, v)[e] == i)
  }

  /** Exactly how right presence and the views have to be for an event to reach every session of every member. */
  lemma ReachesAllIff(self: Id, members: set<Id>, views: Views, p: Presence, rs: map<Id, Registry>)
    requires self in rs
    ensures Sessions(members, rs) <= Reached(self, views, p, rs) <==> Suffices(self, members, views, p, rs)
  {
    var reached, all := Reached(self, views, p, rs), Sessions(members, rs);
    if all <= reached {
      forall u, d | u in members && d in SessionsOf(rs[self], u)
        ensures u in View(views, self) && d in DevicesOf(p, u) && DevicesOf(p, u)[d] == self
      {
        assert Ref(self, u, d) in all;
      }
      forall i, u, d | i in rs && i != self && u in members && d in SessionsOf(rs[i], u)
        ensures u in View(views, i)
        ensures exists v, e :: v in View(views, self) && e in DevicesOf(p, v) && DevicesOf(p, v)[e] == i
      {
        assert Ref(i, u, d) in all;
        assert i in Remotes(self, View(views, self), p);
      }
    }
    if Suffices(self, members, views, p, rs) {
      forall x | x in all ensures x in reached {
        assert x == Ref(x.instance, x.user, x.device);
        if x.instance == self {
          assert x in LocalRefs(self, View(views, self), p, rs[self]);
        } else {
          assert x.instance in Remotes(self, View(views, self), p);
          assert x in RemoteRefs(Remotes(self, View(views, self), p), views, rs);
        }
      }
    }
  }

  /** Exactly which sessions are reached, of members or not: those that presence leads to, if the view of their own
      instance has the user. */
  lemma ReachedIff(self: Id, views: Views, p: Presence, rs: map<Id, Registry>, x: Ref)
    requires self in rs
    ensures x in Reached(self, views, p, rs) <==>
            && x.instance in rs && x.device in SessionsOf(rs[x.instance], x.user) && x.user in View(views, x.instance)
            && if x.instance == self then x.device in DevicesOf(p, x.user) && DevicesOf(p, x.user)[x.device] == self
               else exists v, e :: v in View(views, self) && e in DevicesOf(p, v) && DevicesOf(p, v)[e] == x.instance
  {
    assert x == Ref(x.instance, x.user, x.device);
    if x in Reached(self, views, p, rs) && x.instance != self {
      assert x.instance in Remotes(self, View(views, self), p);
    }
  }

  lemma AgreementReachesAll(self: Id, members: set<Id>, views: Views, p: Presence, rs: map<Id, Registry>)
    requires self in rs && Agree(p, rs) && forall i | i in rs :: View(views, i) == members
    ensures Reached(self, views, p, rs) == Sessions(members, rs)
  {
    forall i, u, d | i in rs && i != self && u in members && d in SessionsOf(rs[i], u)
      ensures i in Remotes(self, members, p)
    {
      assert d in DevicesOf(p, u) && DevicesOf(p, u)[d] == i;
    }
    ReachesAllIff(self, members, views, p, rs);
    forall x | x in Reached(self, views, p, rs) ensures x in Sessions(members, rs) {
      ReachedIff(self, views, p, rs, x);
      assert x == Ref(x.instance, x.user, x.device);
    }
  }

  // ---------------------------------------------------------------- the handler and its cache

  class Handler {
    const instance: Id
    const cache: M.Cache

    constructor (instance: Id, cache: M.Cache)
      ensures this.instance == instance && this.cache == cache
    {
      this.instance, this.cache := instance, cache;
    }

    /** Cached members, or on a miss those of the conversation service, which are then cached; None if that fails. */
    method ResolveMembers(conv: Id, table: Option<seq<Id>>) returns (members: Option<seq<Id>>)
      requires table.Some? ==> forall i, j | 0 <= i < j < |table.value| :: table.value[i] != table.value[j]
      modifies cache
      ensures var hit := M.Get(old(cache.data), conv);
              && (hit != {} ==> members.Some? && SetOf(members.value) == hit && cache.Abs() == old(cache.Abs()))
              && (hit == {} && table.Some? ==>
                    members == table && cache.Abs() == M.SetIn(old(cache.Abs()), conv, SetOf(table.value)))
              && (hit == {} && table.None? ==> members.None? && cache.Abs() == old(cache.Abs()))
      ensures members.Some? ==> forall i, j | 0 <= i < j < |members.value| :: members.value[i] != members.value[j]
    {
      var cached := cache.Members(conv);
      if |cached| > 0 {
        DistinctListing(cached);
        return Some(cached);
      }
      if table.None? {
        return None;
      }
      cache.SetMembers(conv, table.value);
      members := table;
    }

    /** The membership side of handling an event: the entry of its conversation changes as `Convergence.Handle`
        says, and no other entry does. The members are those the event is routed to. */
    method UpdateMembership(b: Body, table: Option<seq<Id>>) returns (members: Option<seq<Id>>)
      requires table.Some? ==> forall i, j | 0 <= i < j < |table.value| :: table.value[i] != table.value[j]
      modifies cache
      ensures var c := ConversationOf(b);
              var rows := if table.Some? then Some(SetOf(table.value)) else None;
              && M.Get(cache.data, c) == V.Handle(M.Get(old(cache.data), c), b, rows)
              && forall d: Id | d != c :: M.Get(cache.data, d) == M.Get(old(cache.data), d)
      ensures var pre := V.PreRoute(M.Get(old(cache.data), ConversationOf(b)), b);
              && (members.Some? <==> pre != {} || table.Some?)
              && (members.Some? ==> SetOf(members.value) == if pre != {} then pre else SetOf(table.value))
    {
      if b.ConversationCreated? {
        cache.SetMembers(b.created, b.participants);
      }
      if b.MembershipChanged? && b.added {
        cache.Add(b.changedIn, b.user);
      }
      assert M.Get(cache.data, ConversationOf(b)) == V.PreRoute(M.Get(old(cache.data), ConversationOf(b)), b);
      members := ResolveMembers(ConversationOf(b), table);
      if members.None? {
        return;
      }
      if b.MembershipChanged? && !b.added {
        cache.Remove(b.changedIn, b.user);
      }
    }
  }

  lemma {:induction false} DistinctListing(s: seq<Id>)
    requires |SetOf(s)| == |s|
    ensures forall i, j | 0 <= i < j < |s| :: s[i] != s[j]
  {
    forall i, j | 0 <= i < j < |s| ensures s[i] != s[j] {
      if s[i] == s[j] {
        var t := s[..j] + s[j + 1..];
        forall x | x in SetOf(s) ensures x in SetOf(t) {
          var k :| 0 <= k < |s| && s[k] == x;
          if k == j {
            assert t[i] == x;
          } else if k < j {
            assert t[k] == x;
          } else {
            assert t[k - 1] == x;
          }
        }
        assert SetOf(t) == SetOf(s);
        SetNotLonger(t);
      }
    }
  }

  lemma {:induction false} SetNotLonger(s: seq<Id>)
    ensures |SetOf(s)| <= |s|
    decreases |s|
  {
    if s == [] {
      assert SetOf(s) == {};
    } else {
      SetNotLonger(s[1..]);
      assert s == [s[0]] + s[1..];
      assert SetOf(s) == {s[0]} + SetOf(s[1..]);
    }
  }
}
