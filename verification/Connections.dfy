/** Connections of devices to instances: each one adds its session to the registry of its instance, registers its device
    in presence, refreshes it, and at its end removes the session and unregisters the device. The registry tells a
    replaced session from the current one by its id; presence knows only the device. */
module Connections {
  import opened Events
  import G = Registry
  import P = Presence

  datatype Connection = Connection(session: Id, user: Id, device: Id, instance: Id)

  /** The steps of all connections, interleaved with time, lookups and cleanups. */
  datatype Op =
    | Add(c: Connection)
    | Register(c: Connection)
    | Refresh(c: Connection)
    | Remove(c: Connection)
    | Unregister(c: Connection)
    | Outside(op: P.Op)

  // ---------------------------------------------------------------- what the steps do

  /** What presence sees of a step; of the registry's steps only that no time passes. */
  function Seen(op: Op): P.Op {
    match op
    case Register(c) => P.DoRegister(c.user, c.device, c.instance)
    case Refresh(c) => P.DoRefresh(c.user, c.device)
    case Unregister(c) => P.DoUnregister(c.user, c.device)
    case Outside(op) => op
    case _ => P.Tick(0)
  }

  function AllSeen(ops: seq<Op>): (seen: seq<P.Op>)
    ensures |seen| == |ops| && forall i | 0 <= i < |ops| :: seen[i] == Seen(ops[i])
  {
    seq(|ops|, i requires 0 <= i < |ops| => Seen(ops[i]))
  }

  /** The registry of an instance after a run. */
  function RegistryAt(ops: seq<Op>, instance: Id): G.State {
    if ops == [] then G.Run([])
    else
      var before := RegistryAt(ops[..|ops| - 1], instance);
      match ops[|ops| - 1]
      case Add(c) => if c.instance == instance then G.Apply(before, G.Add(c.session, c.user, c.device)) else before
      case Remove(c) => if c.instance == instance then G.Apply(before, G.Remove(c.session, c.user, c.device))
          else before
      case _ => before
  }

  /** The connection's session is the one that its instance delivers to. */
  predicate Current(ops: seq<Op>, c: Connection) {
    G.Lookup(RegistryAt(ops, c.instance).sessions, c.user, c.device) == Some(c.session)
  }

  predicate SameDevice(c: Connection, e: Connection) {
    c.user == e.user && c.device == e.device
  }

  // ---------------------------------------------------------------- disciplined runs

  /** Session ids are unique, a session is added once and before it is removed, and a connection unregisters only after
      it has removed its session. */
  ghost predicate Disciplined(ops: seq<Op>) {
    && (forall i, j | 0 <= i < j < |ops| && ops[i].Add? && ops[j].Add? :: ops[i].c.session != ops[j].c.session)
    && (forall i, j | 0 <= i < j < |ops| && ops[i].Remove? && ops[j].Add? :: ops[i].c.session != ops[j].c.session)
    && (forall i | 0 <= i < |ops| && ops[i].Unregister? :: exists j :: 0 <= j < i && ops[j] == Remove(ops[i].c))
    && (forall i | 0 <= i < |ops| && ops[i].Outside? :: !ops[i].op.DoRegister? && !ops[i].op.DoUnregister?)
  }

  /** A removed session does not come back. */
  lemma {:induction false} RemovedIsNotCurrent(ops: seq<Op>, j: nat, c: Connection)
    requires j < |ops| && ops[j] == Remove(c)
    requires forall i | j < i < |ops| && ops[i].Add? :: ops[i].c.session != c.session
    ensures !Current(ops, c)
    decreases |ops|
  {
    var front, op := ops[..|ops| - 1], ops[|ops| - 1];
    if j < |front| {
      RemovedIsNotCurrent(front, j, c);
    }
    if op.Add? || op.Remove? {
      G.PutDropLookup(RegistryAt(front, c.instance).sessions, op.c.user, op.c.device, op.c.session, c.user, c.device);
    }
  }

  /** Whoever has unregistered the device of a current session was another session. */
  lemma UnregisteredByAnother(ops: seq<Op>, c: Connection, i: nat)
    requires Disciplined(ops) && Current(ops, c) && i < |ops| && ops[i].Unregister?
    ensures ops[i].c != c
  {
    var j :| 0 <= j < i && ops[j] == Remove(ops[i].c);
    if ops[i].c == c {
      RemovedIsNotCurrent(ops, j, c);
    }
  }

  // ---------------------------------------------------------------- when a connected device is listed

  /** Step `r` is the last registration of the connection's device. */
  ghost predicate LastRegistration(ops: seq<Op>, c: Connection, r: nat) {
    && r < |ops| && ops[r].Register? && SameDevice(ops[r].c, c)
    && forall i | r < i < |ops| && ops[i].Register? :: !SameDevice(ops[i].c, c)
  }

  /** A connection of the same device has ended since then, and taken the device out of presence. */
  ghost predicate EndedSince(ops: seq<Op>, c: Connection, r: nat) {
    exists i :: r < i < |ops| && ops[i].Unregister? && SameDevice(ops[i].c, c)
  }

  /** Since then the device was refreshed in time. */
  predicate RefreshedSince(ops: seq<Op>, c: Connection, r: nat)
    requires r < |ops|
  {
    P.Timely(AllSeen(ops)[r + 1..], c.user, c.device)
  }

  /** Presence lists the device, at the connection's instance: what a dispatcher there needs to deliver to it. */
  predicate Listed(ops: seq<Op>, c: Connection) {
    var devices := P.UserDevices(P.Run(AllSeen(ops)), c.user);
    c.device in devices && devices[c.device] == c.instance
  }

  lemma SeenAfter(ops: seq<Op>, r: nat, k: nat)
    requires r < |ops| && k < |ops| - r - 1
    ensures AllSeen(ops)[r + 1..][k] == Seen(ops[r + 1 + k])
  {
  }

  lemma EndIsUnregister(ops: seq<Op>, c: Connection, r: nat)
    requires Disciplined(ops) && r < |ops|
    ensures P.DoUnregister(c.user, c.device) in AllSeen(ops)[r + 1..] <==> EndedSince(ops, c, r)
  {
    var after := AllSeen(ops)[r + 1..];
    if P.DoUnregister(c.user, c.device) in after {
      var k :| 0 <= k < |after| && after[k] == P.DoUnregister(c.user, c.device);
      SeenAfter(ops, r, k);
      assert ops[r + 1 + k].Unregister? && SameDevice(ops[r + 1 + k].c, c);
    }
    if EndedSince(ops, c, r) {
      var i :| r < i < |ops| && ops[i].Unregister? && SameDevice(ops[i].c, c);
      SeenAfter(ops, r, i - r - 1);
    }
  }

  lemma UpSince(ops: seq<Op>, c: Connection, r: nat)
    requires Disciplined(ops) && LastRegistration(ops, c, r)
    ensures P.Up(AllSeen(ops), c.user, c.device) <==> !EndedSince(ops, c, r) && RefreshedSince(ops, c, r)
  {
    var seen := AllSeen(ops);
    var before, after := seen[..r + 1], seen[r + 1..];
    assert before[|before| - 1] == Seen(ops[r]);
    assert P.Idle(before, c.user, c.device) == Some(0);
    forall op | op in after && op.DoRegister? ensures (op.user, op.device) != (c.user, c.device) {
      var k :| 0 <= k < |after| && after[k] == op;
      assert op == Seen(ops[r + 1 + k]);
    }
    P.UpIffKeptUp(before, after, c.user, c.device);
    assert before + after == seen;
    EndIsUnregister(ops, c, r);
  }

  /** The instance that presence knows is the one that registered last. */
  lemma {:induction false} LastInstanceIs(ops: seq<Op>, c: Connection, r: nat)
    requires LastRegistration(ops, c, r) && forall i | 0 <= i < |ops| && ops[i].Outside? :: !ops[i].op.DoRegister?
    ensures P.LastInstance(AllSeen(ops), c.user, c.device) == Some(ops[r].c.instance)
    decreases |ops|
  {
    var front := ops[..|ops| - 1];
    assert AllSeen(ops)[..|ops| - 1] == AllSeen(front);
    if r < |front| {
      LastInstanceIs(front, c, r);
    }
  }

  /** Exactly when the device of a current session is listed at its instance: its own instance registered last, and
      since then no other session of the device has ended, it was refreshed in time, and no late cleanup took it out. */
  lemma CurrentIsListedIff(ops: seq<Op>, c: Connection, r: nat)
    requires Disciplined(ops) && Current(ops, c) && LastRegistration(ops, c, r)
    ensures Listed(ops, c) <==>
            && ops[r].c.instance == c.instance
            && !(exists i :: r < i < |ops| && ops[i].Unregister? && SameDevice(ops[i].c, c) && ops[i].c != c)
            && RefreshedSince(ops, c, r) && !P.Lost(AllSeen(ops), c.user, c.device)
  {
    P.ListedIff(AllSeen(ops), c.user, c.device);
    LastInstanceIs(ops, c, r);
    UpSince(ops, c, r);
    forall i: nat | r < i < |ops| && ops[i].Unregister? ensures ops[i].c != c {
      UnregisteredByAnother(ops, c, i);
    }
  }

  /** A device moves to another instance, but its first registration comes late: the session there is current, and
      presence names the instance it left. */
  lemma LateRegistrationMisleads(u: Id, d: Id, here: Id, there: Id) returns (ops: seq<Op>, c: Connection)
    requires here != there
    ensures Disciplined(ops) && Current(ops, c) && c.user == u && c.device == d && c.instance == there
    ensures !Listed(ops, c)
    ensures d in P.UserDevices(P.Run(AllSeen(ops)), u) && P.UserDevices(P.Run(AllSeen(ops)), u)[d] == here
  {
    var first := Connection("1", u, d, here);
    c := Connection("2", u, d, there);
    ops := [Add(first), Add(c), Register(c), Register(first)];
    assert ops[..3][..2] == ops[..2] && ops[..2][..1] == ops[..1];
    var before := RegistryAt(ops[..1], there);
    G.PutDropLookup(before.sessions, u, d, c.session, u, d);
    assert RegistryAt(ops[..2], there) == G.Apply(before, G.Add(c.session, u, d));
    assert LastRegistration(ops, c, 3) && SameDevice(first, c);
    CurrentIsListedIff(ops, c, 3);
    LastInstanceIs(ops, c, 3);
    UpSince(ops, c, 3);
    assert AllSeen(ops)[4..] == [];
    P.ListedIff(AllSeen(ops), u, d);
    NeverLost(AllSeen(ops), u, d);
  }

  /** Without a cleanup nothing is lost. */
  lemma {:induction false} NeverLost(seen: seq<P.Op>, u: Id, d: Id)
    requires forall op | op in seen :: !op.DoCleanup?
    ensures !P.Lost(seen, u, d)
  {
    if seen != [] {
      assert seen[|seen| - 1] in seen;
      NeverLost(seen[..|seen| - 1], u, d);
    }
  }

  /** A device connects again before its first connection has ended; when that one ends, the device is connected, its
      session is current, and presence does not list it. */
  lemma ReplacedSessionHidesDevice(u: Id, d: Id, instance: Id) returns (ops: seq<Op>, c: Connection)
    ensures Disciplined(ops) && Current(ops, c) && c.user == u && c.device == d && !Listed(ops, c)
    ensures LastRegistration(ops, c, 3) && ops[3] == Register(c)
  {
    var first := Connection("1", u, d, instance);
    c := Connection("2", u, d, instance);
    ops := [Add(first), Register(first), Add(c), Register(c), Remove(first), Unregister(first)];
    assert ops[4] == Remove(first) && ops[5].Unregister? && SameDevice(ops[5].c, c) && ops[5].c != c;
    CurrentAfterReplacement(first, c, ops);
    CurrentIsListedIff(ops, c, 3);
  }

  lemma CurrentAfterReplacement(first: Connection, c: Connection, ops: seq<Op>)
    requires SameDevice(first, c) && first.instance == c.instance && first.session != c.session
    requires ops == [Add(first), Register(first), Add(c), Register(c), Remove(first), Unregister(first)]
    ensures Current(ops, c)
  {
    assert ops[..5][..4] == ops[..4] && ops[..4][..3] == ops[..3] && ops[..3][..2] == ops[..2];
    var before := RegistryAt(ops[..2], c.instance);
    G.PutDropLookup(before.sessions, c.user, c.device, c.session, c.user, c.device);
    assert RegistryAt(ops[..3], c.instance) == G.Apply(before, G.Add(c.session, c.user, c.device));
    assert RegistryAt(ops[..5], c.instance) == RegistryAt(ops[..4], c.instance);
  }
}
