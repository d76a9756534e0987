/** The sessions of one instance: at most one per user and device, the latest one. */
module Registry {
  import opened Events
  import S = Session

  // ---------------------------------------------------------------- nested maps

  function Lookup<T>(m: map<Id, map<Id, T>>, user: Id, device: Id): Option<T> {
    if user in m && device in m[user] then Some(m[user][device]) else None
  }

  function Put<T>(m: map<Id, map<Id, T>>, user: Id, device: Id, x: T): map<Id, map<Id, T>> {
    m[user := (if user in m then m[user] else map[])[device := x]]
  }

  /** Deletes a device, and the user's entry with its last device. */
  function Drop<T>(m: map<Id, map<Id, T>>, user: Id, device: Id): map<Id, map<Id, T>> {
    if user !in m then m
    else if m[user] - {device} == map[] then m - {user}
    else m[user := m[user] - {device}]
  }

  ghost predicate NoEmptyUser<T>(m: map<Id, map<Id, T>>) {
    forall u | u in m :: m[u] != map[]
  }

  lemma PutDropLookup<T>(m: map<Id, map<Id, T>>, user: Id, device: Id, x: T, u: Id, d: Id)
    ensures Lookup(Put(m, user, device, x), u, d) == if u == user && d == device then Some(x) else Lookup(m, u, d)
    ensures Lookup(Drop(m, user, device), u, d) == if u == user && d == device then None else Lookup(m, u, d)
    ensures NoEmptyUser(m) ==> NoEmptyUser(Put(m, user, device, x)) && NoEmptyUser(Drop(m, user, device))
  {
    assert device in Put(m, user, device, x)[user];
    if user in m && u == user && d != device && d in m[user] {
      assert d in m[user] - {device};
    }
  }

  // ---------------------------------------------------------------- runs

  datatype Op = Add(session: Id, user: Id, device: Id) | Remove(session: Id, user: Id, device: Id)

  datatype State = State(sessions: map<Id, map<Id, Id>>, closed: set<Id>)

  function Apply(s: State, op: Op): State {
    var current := Lookup(s.sessions, op.user, op.device);
    match op
    case Add(id, u, d) =>
      State(Put(s.sessions, u, d, id), if current.Some? then s.closed + {current.value} else s.closed)
    case Remove(id, u, d) =>
      if current == Some(id) then s.(sessions := Drop(s.sessions, u, d)) else s
  }

  function Run(ops: seq<Op>): State {
    if ops == [] then State(map[], {}) else Apply(Run(ops[..|ops| - 1]), ops[|ops| - 1])
  }

  /** The session was the last one added for the user and device, at position `i`, and was not removed since. */
  predicate LastAddedAt(ops: seq<Op>, i: nat, u: Id, d: Id, id: Id) {
    && i < |ops| && ops[i] == Add(id, u, d)
    && forall j | i < j < |ops| :: !(ops[j].Add? && ops[j].user == u && ops[j].device == d) &&
        ops[j] != Remove(id, u, d)
  }

  ghost predicate LastAdded(ops: seq<Op>, u: Id, d: Id, id: Id) {
    exists i: nat :: LastAddedAt(ops, i, u, d, id)
  }

  lemma LastAddedSnoc(ops: seq<Op>, op: Op, u: Id, d: Id, id: Id)
    ensures LastAdded(ops + [op], u, d, id) <==>
            || op == Add(id, u, d)
            || (LastAdded(ops, u, d, id) && !(op.Add? && op.user == u && op.device == d) && op != Remove(id, u, d))
  {
    var t := ops + [op];
    if LastAdded(t, u, d, id) && op != Add(id, u, d) {
      var i: nat :| LastAddedAt(t, i, u, d, id);
      assert t[|ops|] == op;
      assert LastAddedAt(ops, i, u, d, id) by {
        assert forall j | i < j < |ops| :: t[j] == ops[j];
      }
    }
    if op == Add(id, u, d) {
      assert LastAddedAt(t, |ops|, u, d, id);
    } else if LastAdded(ops, u, d, id) && !(op.Add? && op.user == u && op.device == d) && op != Remove(id, u, d) {
      var i: nat :| LastAddedAt(ops, i, u, d, id);
      assert LastAddedAt(t, i, u, d, id);
    }
  }

  /** After any run each user and device maps to exactly the session added last, unless that one was removed;
      and no user has an empty entry. */
  lemma {:induction false} RegistryHoldsLastAdded(ops: seq<Op>, u: Id, d: Id, id: Id)
    ensures Lookup(Run(ops).sessions, u, d) == Some(id) <==> LastAdded(ops, u, d, id)
    ensures NoEmptyUser(Run(ops).sessions)
    decreases |ops|
  {
    if ops != [] {
      var front, op := ops[..|ops| - 1], ops[|ops| - 1];
      RegistryHoldsLastAdded(front, u, d, id);
      assert ops == front + [op];
      LastAddedSnoc(front, op, u, d, id);
      PutDropLookup(Run(front).sessions, op.user, op.device, op.session, u, d);
    }
  }

  /** A removal by a session that is not the current one changes nothing. */
  lemma LateRemoveIsVoid(ops: seq<Op>, id: Id, u: Id, d: Id)
    requires !LastAdded(ops, u, d, id)
    ensures Run(ops + [Remove(id, u, d)]) == Run(ops)
  {
    assert (ops + [Remove(id, u, d)])[..|ops|] == ops;
    RegistryHoldsLastAdded(ops, u, d, id);
  }

  /** No session is forgotten: one that was added is current, was removed by its own connection, or was closed. */
  lemma {:induction false} ReplacedSessionsAreClosed(ops: seq<Op>, i: nat)
    requires i < |ops| && ops[i].Add?
    ensures var Add(id, u, d) := ops[i];
            || Lookup(Run(ops).sessions, u, d) == Some(id)
            || id in Run(ops).closed
            || exists j :: i < j < |ops| && ops[j] == Remove(id, u, d)
    decreases |ops|
  {
    var front, op := ops[..|ops| - 1], ops[|ops| - 1];
    var Add(id, u, d) := ops[i];
    PutDropLookup(Run(front).sessions, op.user, op.device, op.session, u, d);
    if i < |front| {
      ReplacedSessionsAreClosed(front, i);
      if j :| i < j < |front| && front[j] == Remove(id, u, d) {
        assert ops[j] == Remove(id, u, d);
      } else if op == Remove(id, u, d) {
        assert ops[|ops| - 1] == Remove(id, u, d);
      }
    }
  }

  /** And no other session is closed: whichever is was added, and after it another one for its user and device. */
  lemma {:induction false} ClosedWasReplaced(ops: seq<Op>, id: Id)
    requires id in Run(ops).closed
    ensures exists i, j :: 0 <= i < j < |ops| && ops[i].Add? && ops[i].session == id && ops[j].Add?
                        && ops[j].user == ops[i].user && ops[j].device == ops[i].device
    decreases |ops|
  {
    var front, op := ops[..|ops| - 1], ops[|ops| - 1];
    if id in Run(front).closed {
      ClosedWasReplaced(front, id);
      var i, j :| 0 <= i < j < |front| && front[i].Add? && front[i].session == id && front[j].Add?
                  && front[j].user == front[i].user && front[j].device == front[i].device;
      assert ops[i] == front[i] && ops[j] == front[j];
    } else {
      RegistryHoldsLastAdded(front, op.user, op.device, id);
      var i: nat :| LastAddedAt(front, i, op.user, op.device, id);
      assert ops[i] == front[i] && ops[|ops| - 1] == op;
    }
  }

  // ---------------------------------------------------------------- the registry

  class Registry {
    var sessions: map<Id, map<Id, S.Session>>

    constructor ()
      ensures sessions == map[]
    {
      sessions := map[];
    }

    function Current(user: Id, device: Id): Option<S.Session>
      reads this
    {
      Lookup(sessions, user, device)
    }

    /** Replaces the session of the same user and device, closing it. */
    method Add(s: S.Session)
      modifies this, if Current(s.userId, s.deviceId).Some? then {Current(s.userId, s.deviceId).value} else {}
      ensures sessions == Put(old(sessions), s.userId, s.deviceId, s)
      ensures var replaced := old(Current(s.userId, s.deviceId));
              replaced.Some? ==>
                && replaced.value.closed
                && unchanged(replaced.value`queue) && unchanged(replaced.value`ready)
                && unchanged(replaced.value`resumeBuffer)
    {
      if s.userId !in sessions {
        sessions := sessions[s.userId := map[]];
      }
      if s.deviceId in sessions[s.userId] {
        sessions[s.userId][s.deviceId].CloseWithReason();
      }
      sessions := sessions[s.userId := sessions[s.userId][s.deviceId := s]];
    }

    /** Only the current session, compared by id, can remove its entry. */
    method Remove(s: S.Session)
      modifies this
      ensures var current := old(Current(s.userId, s.deviceId));
              sessions == if current.Some? && current.value.id == s.id
                          then Drop(old(sessions), s.userId, s.deviceId) else old(sessions)
    {
      if s.userId in sessions {
        var devices := sessions[s.userId];
        if s.deviceId in devices && devices[s.deviceId].id == s.id {
          devices := devices - {s.deviceId};
          if devices == map[] {
            sessions := sessions - {s.userId};
          } else {
            sessions := sessions[s.userId := devices];
          }
        }
      }
    }

    method GetUserSessions(user: Id) returns (out: seq<S.Session>)
      ensures |out| == if user in sessions then |sessions[user]| else 0
      ensures forall x :: x in out <==> exists d :: Lookup(sessions, user, d) == Some(x)
    {
      out := [];
      if user !in sessions {
        return;
      }
      var devices := sessions[user];
      var left := devices.Keys;
      while left != {}
        invariant left <= devices.Keys && |out| == |devices.Keys| - |left|
        invariant forall x | x in out :: exists d :: d in devices && d !in left && devices[d] == x
        invariant forall d | d in devices && d !in left :: devices[d] in out
        decreases |left|
      {
        var d :| d in left;
        out := out + [devices[d]];
        left := left - {d};
      }
      forall x ensures x in out <==> exists d :: Lookup(sessions, user, d) == Some(x) {
        if x in out {
          var d :| d in devices && devices[d] == x;
          assert Lookup(sessions, user, d) == Some(x);
        }
      }
    }
  }
}
