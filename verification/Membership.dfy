/** The delivery service's cache of memberships: who is in a conversation, and in which conversations a user is. */
module Membership {
  import opened Events

  datatype Index = Index(data: map<Id, set<Id>>, userToConvs: map<Id, set<Id>>)

  const EMPTY := Index(map[], map[])

  function Get(m: map<Id, set<Id>>, k: Id): set<Id> {
    if k in m then m[k] else {}
  }

  /** Both maps tell the same pairs. */
  ghost predicate Inverse(ix: Index) {
    forall c: Id, u: Id :: u in Get(ix.data, c) <==> c in Get(ix.userToConvs, u)
  }

  function AddTo(ix: Index, conv: Id, user: Id): Index {
    Index(ix.data[conv := Get(ix.data, conv) + {user}], ix.userToConvs[user := Get(ix.userToConvs, user) + {conv}])
  }

  function DeleteFrom(m: map<Id, set<Id>>, k: Id, x: Id): map<Id, set<Id>> {
    if k in m then m[k := m[k] - {x}] else m
  }

  function RemoveFrom(ix: Index, conv: Id, user: Id): Index {
    Index(DeleteFrom(ix.data, conv, user), DeleteFrom(ix.userToConvs, user, conv))
  }

  function Unlink(m: map<Id, set<Id>>, users: set<Id>, conv: Id): map<Id, set<Id>> {
    map u | u in m :: if u in users then m[u] - {conv} else m[u]
  }

  function Link(m: map<Id, set<Id>>, users: set<Id>, conv: Id): map<Id, set<Id>> {
    map u | u in m.Keys + users :: if u in users then Get(m, u) + {conv} else m[u]
  }

  function SetIn(ix: Index, conv: Id, users: set<Id>): Index {
    Index(ix.data[conv := users], Link(Unlink(ix.userToConvs, Get(ix.data, conv), conv), users, conv))
  }

  // ---------------------------------------------------------------- the index refines a set of pairs

  datatype Op = Add(conv: Id, user: Id) | Remove(conv: Id, user: Id) | SetMembers(conv: Id, users: set<Id>)

  function ApplyIndex(ix: Index, op: Op): Index {
    match op
    case Add(c, u) => AddTo(ix, c, u)
    case Remove(c, u) => RemoveFrom(ix, c, u)
    case SetMembers(c, us) => SetIn(ix, c, us)
  }

  /** The reference: one set of (conversation, user) pairs. */
  function ApplyPairs(pairs: set<(Id, Id)>, op: Op): set<(Id, Id)> {
    match op
    case Add(c, u) => pairs + {(c, u)}
    case Remove(c, u) => pairs - {(c, u)}
    case SetMembers(c, us) => (set p | p in pairs && p.0 != c) + (set u | u in us :: (c, u))
  }

  function RunIndex(ops: seq<Op>): Index {
    if ops == [] then EMPTY else ApplyIndex(RunIndex(ops[..|ops| - 1]), ops[|ops| - 1])
  }

  function RunPairs(ops: seq<Op>): set<(Id, Id)> {
    if ops == [] then {} else ApplyPairs(RunPairs(ops[..|ops| - 1]), ops[|ops| - 1])
  }

  ghost predicate Represents(ix: Index, pairs: set<(Id, Id)>) {
    forall c: Id, u: Id :: (c, u) in pairs <==> u in Get(ix.data, c)
  }

  /** Replacing the members of one conversation concerns no other, in either map. */
  lemma SetMembersIsLocal(ix: Index, conv: Id, users: set<Id>, c: Id, u: Id)
    requires Inverse(ix)
    ensures var t := SetIn(ix, conv, users);
            && Get(t.data, conv) == users
            && (c != conv ==> Get(t.data, c) == Get(ix.data, c))
            && (c in Get(t.userToConvs, u) <==> if c == conv then u in users else c in Get(ix.userToConvs, u))
  {
    assert u in Get(ix.data, conv) <==> conv in Get(ix.userToConvs, u);
  }

  lemma OpKeepsIndex(ix: Index, pairs: set<(Id, Id)>, op: Op)
    requires Inverse(ix) && Represents(ix, pairs)
    ensures Inverse(ApplyIndex(ix, op)) && Represents(ApplyIndex(ix, op), ApplyPairs(pairs, op))
  {
    var t, ps := ApplyIndex(ix, op), ApplyPairs(pairs, op);
    forall c: Id, u: Id
      ensures u in Get(t.data, c) <==> c in Get(t.userToConvs, u)
      ensures (c, u) in ps <==> u in Get(t.data, c)
    {
      assert (c, u) in pairs <==> u in Get(ix.data, c);
      assert u in Get(ix.data, c) <==> c in Get(ix.userToConvs, u);
      if op.SetMembers? {
        SetMembersIsLocal(ix, op.conv, op.users, c, u);
      }
    }
  }

  /** After any run of operations the two maps are exact inverses and hold exactly the pairs of the reference. */
  lemma {:induction false} IndexRefinesPairs(ops: seq<Op>)
    ensures Inverse(RunIndex(ops)) && Represents(RunIndex(ops), RunPairs(ops))
    decreases |ops|
  {
    if ops != [] {
      IndexRefinesPairs(ops[..|ops| - 1]);
      OpKeepsIndex(RunIndex(ops[..|ops| - 1]), RunPairs(ops[..|ops| - 1]), ops[|ops| - 1]);
    }
  }

  // ---------------------------------------------------------------- the cache

  class Cache {
    var data: map<Id, set<Id>>
    var userToConvs: map<Id, set<Id>>

    ghost function Abs(): Index reads this {
      Index(data, userToConvs)
    }

    constructor ()
      ensures Abs() == EMPTY
    {
      data, userToConvs := map[], map[];
    }

    method Add(conv: Id, user: Id)
      modifies this
      ensures Abs() == AddTo(old(Abs()), conv, user)
    {
      if conv !in data {
        data := data[conv := {}];
      }
      data := data[conv := data[conv] + {user}];
      if user !in userToConvs {
        userToConvs := userToConvs[user := {}];
      }
      userToConvs := userToConvs[user := userToConvs[user] + {conv}];
    }

    method Remove(conv: Id, user: Id)
      modifies this
      ensures Abs() == RemoveFrom(old(Abs()), conv, user)
    {
      if conv in data {
        data := data[conv := data[conv] - {user}];
      }
      if user in userToConvs {
        userToConvs := userToConvs[user := userToConvs[user] - {conv}];
      }
    }

    method SetMembers(conv: Id, users: seq<Id>)
      modifies this
      ensures Abs() == SetIn(old(Abs()), conv, SetOf(users))
    {
      var unlinked := UnlinkAll(userToConvs, if conv in data then data[conv] else {}, conv);
      var m, linked := LinkAll(unlinked, users, conv);
      data, userToConvs := data[conv := m], linked;
    }

    method Members(conv: Id) returns (out: seq<Id>)
      ensures SetOf(out) == Get(data, conv) && |out| == |Get(data, conv)|
    {
      out := Listing(if conv in data then data[conv] else {});
    }

    method UserConvs(user: Id) returns (out: seq<Id>)
      ensures SetOf(out) == Get(userToConvs, user) && |out| == |Get(userToConvs, user)|
    {
      out := Listing(if user in userToConvs then userToConvs[user] else {});
    }
  }

  /** Removes the conversation from each old member's entry. */
  method UnlinkAll(start: map<Id, set<Id>>, users: set<Id>, conv: Id) returns (m: map<Id, set<Id>>)
    ensures m == Unlink(start, users, conv)
  {
    m := start;
    var left := users;
    while left != {}
      invariant left <= users
      invariant m == Unlink(start, users - left, conv)
      decreases |left|
    {
      var u :| u in left;
      if u in m {
        m := m[u := m[u] - {conv}];
      }
      left := left - {u};
    }
    assert users - left == users;
  }

  /** Collects the new members and enters the conversation for each of them. */
  method LinkAll(start: map<Id, set<Id>>, users: seq<Id>, conv: Id) returns (members: set<Id>, m: map<Id, set<Id>>)
    ensures members == SetOf(users) && m == Link(start, SetOf(users), conv)
  {
    members, m := {}, start;
    var i := 0;
    while i < |users|
      invariant 0 <= i <= |users|
      invariant members == SetOf(users[..i])
      invariant m == Link(start, members, conv)
    {
      assert SetOf(users[..i + 1]) == SetOf(users[..i]) + {users[i]};
      if users[i] !in m {
        m := m[users[i] := {}];
      }
      m := m[users[i] := m[users[i]] + {conv}];
      members := members + {users[i]};
      i := i + 1;
    }
    assert users[..i] == users;
  }

  /** Lists a set in the arbitrary order in which a map is iterated. */
  method Listing(s: set<Id>) returns (out: seq<Id>)
    ensures SetOf(out) == s && |out| == |s|
  {
    out := [];
    var left := s;
    while left != {}
      invariant left <= s && SetOf(out) == s - left && |out| == |s| - |left|
      decreases |left|
    {
      var x :| x in left;
      assert SetOf(out + [x]) == SetOf(out) + {x};
      out := out + [x];
      left := left - {x};
    }
  }
}
