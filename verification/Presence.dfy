/** Presence over expiring keys: a session key per device that names its instance, and a device set per user.
    Time is in seconds; a key with expiry `e` is there at time `now` while `now < e`. */
module Presence {
  import opened Events

  const TTL: nat := 60
  const SET_TTL: nat := 60 + 3600

  datatype SessionKey = SessionKey(instance: Id, expiry: int)
  datatype DeviceSet = DeviceSet(devices: set<Id>, expiry: int)

  datatype State = State(now: int, keys: map<(Id, Id), SessionKey>, sets: map<Id, DeviceSet>)

  const INIT := State(0, map[], map[])

  // ---------------------------------------------------------------- expiring keys

  predicate LiveKey(s: State, user: Id, device: Id) {
    (user, device) in s.keys && s.now < s.keys[(user, device)].expiry
  }

  /** The members of a user's device set; an expired or missing set is empty. */
  function SMembers(s: State, user: Id): set<Id> {
    if user in s.sets && s.now < s.sets[user].expiry then s.sets[user].devices else {}
  }

  /** SREM: a set without members is deleted. */
  function SRem(s: State, user: Id, gone: set<Id>): State {
    var left := SMembers(s, user) - gone;
    if SMembers(s, user) == {} then s
    else if left == {} then s.(sets := s.sets - {user})
    else s.(sets := s.sets[user := s.sets[user].(devices := left)])
  }

  /** EXPIRE on a key that is there. */
  function ExpireKey(s: State, user: Id, device: Id): State {
    if LiveKey(s, user, device)
    then s.(keys := s.keys[(user, device) := s.keys[(user, device)].(expiry := s.now + TTL)]) else s
  }

  function ExpireSet(s: State, user: Id): State {
    if SMembers(s, user) != {} then s.(sets := s.sets[user := s.sets[user].(expiry := s.now + SET_TTL)]) else s
  }

  // ---------------------------------------------------------------- operations

  function Register(s: State, user: Id, device: Id, instance: Id): State {
    s.(keys := s.keys[(user, device) := SessionKey(instance, s.now + TTL)],
       sets := s.sets[user := DeviceSet(SMembers(s, user) + {device}, s.now + SET_TTL)])
  }

  function Unregister(s: State, user: Id, device: Id): State {
    SRem(s.(keys := s.keys - {(user, device)}), user, {device})
  }

  function Refresh(s: State, user: Id, device: Id): State {
    ExpireSet(ExpireKey(s, user, device), user)
  }

  /** The devices of the set whose session keys are there, with their instances. */
  function UserDevices(s: State, user: Id): map<Id, Id> {
    map d | d in SMembers(s, user) && LiveKey(s, user, d) :: s.keys[(user, d)].instance
  }

  // ---------------------------------------------------------------- runs

  /** One step of a run. A lookup is two calls, `DoList` for the device set and `DoFetch` for the session keys, and
      `DoCleanup` is the removal that it leaves to run later. */
  datatype Op =
    | Tick(seconds: nat)
    | DoRegister(user: Id, device: Id, instance: Id)
    | DoUnregister(user: Id, device: Id)
    | DoRefresh(user: Id, device: Id)
    | DoList(user: Id)
    | DoFetch(user: Id)
    | DoCleanup(user: Id, gone: set<Id>)

  function Apply(s: State, op: Op): State {
    match op
    case Tick(n) => s.(now := s.now + n)
    case DoRegister(u, d, i) => Register(s, u, d, i)
    case DoUnregister(u, d) => Unregister(s, u, d)
    case DoRefresh(u, d) => Refresh(s, u, d)
    case DoList(u) => s
    case DoFetch(u) => s
    case DoCleanup(u, gone) => SRem(s, u, gone)
  }

  function Run(ops: seq<Op>): State {
    if ops == [] then INIT else Apply(Run(ops[..|ops| - 1]), ops[|ops| - 1])
  }

  /** The devices that a lookup finds stale: listed by its first call, and without a session key at its second. */
  function FoundStale(first: State, second: State, user: Id): set<Id> {
    set d | d in SMembers(first, user) && !LiveKey(second, user, d)
  }

  /** The cleanup at `i` removes what the lookup with its calls at `j` and `k` found stale. */
  ghost predicate CleanupOf(ops: seq<Op>, j: nat, k: nat, i: nat) {
    && j < k < i < |ops|
    && ops[i].DoCleanup? && ops[j] == DoList(ops[i].user) && ops[k] == DoFetch(ops[i].user)
    && ops[i].gone == FoundStale(Run(ops[..j]), Run(ops[..k]), ops[i].user)
  }

  /** Every cleanup follows the lookup that started it. */
  ghost predicate Legal(ops: seq<Op>) {
    forall i: nat | i < |ops| && ops[i].DoCleanup? :: exists j: nat, k: nat :: CleanupOf(ops, j, k, i)
  }

  /** Every cleanup runs at once: nothing comes between it and the second call of its lookup. */
  ghost predicate Atomic(ops: seq<Op>) {
    forall i: nat | i < |ops| && ops[i].DoCleanup? :: exists j: nat, k: nat :: CleanupOf(ops, j, k, i) && k + 1 == i
  }

  // ---------------------------------------------------------------- what each step does

  /** Whose keys and sets a step of a user's device leaves alone. */
  ghost predicate OthersSame(s: State, t: State, user: Id, device: Id) {
    && t.now == s.now
    && (forall k | k != (user, device) :: k in t.keys <==> k in s.keys)
    && (forall k | k in s.keys && k != (user, device) :: t.keys[k] == s.keys[k])
    && (forall u: Id | u != user :: SMembers(t, u) == SMembers(s, u) && (u in t.sets <==> u in s.sets))
    && (forall u: Id | u in s.sets && u != user :: t.sets[u] == s.sets[u])
  }

  /** Registering: the device has a key for the instance that lasts 60 seconds, and is in the user's set, which lasts an
      hour more. */
  lemma RegistrationIs(s: State, user: Id, device: Id, instance: Id)
    ensures var t := Register(s, user, device, instance);
            && OthersSame(s, t, user, device)
            && (user, device) in t.keys && t.keys[(user, device)] == SessionKey(instance, s.now + 60)
            && SMembers(t, user) == SMembers(s, user) + {device}
            && user in t.sets && t.sets[user].expiry == s.now + 3660
  {
  }

  /** Unregistering: the key and the member go, and the set stays as long as it would have. */
  lemma UnregistrationIs(s: State, user: Id, device: Id)
    ensures var t := Unregister(s, user, device);
            && OthersSame(s, t, user, device) && (user, device) !in t.keys
            && SMembers(t, user) == SMembers(s, user) - {device}
            && (SMembers(t, user) != {} ==> user in s.sets && t.sets[user].expiry == s.sets[user].expiry)
  {
    var gone := s.(keys := s.keys - {(user, device)});
    forall u: Id ensures SMembers(gone, u) == SMembers(s, u) {
    }
  }

  /** Refreshing: a key that is there lasts 60 seconds from now, a set that is there 3660, and nothing appears. */
  lemma RefreshIs(s: State, user: Id, device: Id)
    ensures var t := Refresh(s, user, device);
            && OthersSame(s, t, user, device) && t.keys.Keys == s.keys.Keys && SMembers(t, user) == SMembers(s, user)
            && (LiveKey(s, user, device) ==>
                  t.keys[(user, device)] == SessionKey(s.keys[(user, device)].instance, s.now + 60))
            && (!LiveKey(s, user, device) ==> t.keys == s.keys)
            && (SMembers(s, user) != {} ==> user in t.sets && t.sets[user].expiry == s.now + 3660)
  {
  }

  // ---------------------------------------------------------------- what clients did, read off the run alone

  /** The seconds since the device last registered or refreshed in time; none if it is not kept up. */
  function Idle(ops: seq<Op>, user: Id, device: Id): Option<nat> {
    if ops == [] then None
    else
      var before := Idle(ops[..|ops| - 1], user, device);
      match ops[|ops| - 1]
      case Tick(n) => if before.Some? then Some(before.value + n) else None
      case DoRegister(u, d, _) => if (u, d) == (user, device) then Some(0) else before
      case DoUnregister(u, d) => if (u, d) == (user, device) then None else before
      case DoRefresh(u, d) =>
        if (u, d) != (user, device) then before else if before.Some? && before.value < TTL then Some(0) else None
      case _ => before
  }

  /** The device is kept up: no more than 59 seconds have passed without a sign of life. */
  predicate Up(ops: seq<Op>, user: Id, device: Id) {
    var idle := Idle(ops, user, device);
    idle.Some? && idle.value < TTL
  }

  /** The instance that the device registered with last. */
  function LastInstance(ops: seq<Op>, user: Id, device: Id): Option<Id> {
    if ops == [] then None
    else
      var op := ops[|ops| - 1];
      if op.DoRegister? && op.user == user && op.device == device then Some(op.instance)
      else LastInstance(ops[..|ops| - 1], user, device)
  }

  /** A cleanup took the device out of the set while it was up, and it has not registered since. */
  predicate Lost(ops: seq<Op>, user: Id, device: Id) {
    ops != [] &&
    var op, before := ops[|ops| - 1], ops[..|ops| - 1];
    if op.DoRegister? && op.user == user && op.device == device then false
    else if op.DoCleanup? && op.user == user && device in op.gone && Up(before, user, device) then true
    else Lost(before, user, device)
  }

  // ---------------------------------------------------------------- the invariant

  /** The session key is there exactly while the device is up, and says where it registered last. */
  ghost predicate KeyExact(s: State, idle: Option<nat>, instance: Option<Id>, u: Id, d: Id) {
    && (LiveKey(s, u, d) <==> idle.Some? && idle.value < TTL)
    && (LiveKey(s, u, d) ==> s.keys[(u, d)] == SessionKey(s.keys[(u, d)].instance, s.now + TTL - idle.value)
                             && instance == Some(s.keys[(u, d)].instance))
  }

  /** A live device that is not lost is in a set that outlives its key by at least an hour; a lost one is in none. */
  ghost predicate Covered(s: State, lost: bool, u: Id, d: Id) {
    LiveKey(s, u, d) ==>
      if lost then d !in SMembers(s, u)
      else d in SMembers(s, u) && s.sets[u].expiry >= s.keys[(u, d)].expiry + 3600
  }

  ghost predicate Bounded(s: State) {
    forall u | u in s.sets :: s.sets[u].expiry <= s.now + SET_TTL
  }

  lemma SRemMembers(s: State, user: Id, gone: set<Id>, u: Id)
    ensures var t := SRem(s, user, gone);
            && t.now == s.now && t.keys == s.keys
            && SMembers(t, u) == (if u == user then SMembers(s, u) - gone else SMembers(s, u))
            && (SMembers(t, u) != {} ==> u in s.sets && t.sets[u].expiry == s.sets[u].expiry)
  {
  }

  lemma OpKeepsBounded(s: State, op: Op)
    requires Bounded(s)
    ensures Bounded(Apply(s, op))
  {
  }

  lemma OpKeepsKey(ops: seq<Op>, u: Id, d: Id)
    requires ops != []
    requires var p := ops[..|ops| - 1]; KeyExact(Run(p), Idle(p, u, d), LastInstance(p, u, d), u, d)
    ensures KeyExact(Run(ops), Idle(ops, u, d), LastInstance(ops, u, d), u, d)
  {
    var s := Run(ops[..|ops| - 1]);
    match ops[|ops| - 1]
    case DoUnregister(v, e) => SRemMembers(s.(keys := s.keys - {(v, e)}), v, {e}, u);
    case DoCleanup(v, gone) => SRemMembers(s, v, gone, u);
    case _ =>
  }

  lemma OpKeepsCovered(ops: seq<Op>, u: Id, d: Id)
    requires ops != []
    requires var p := ops[..|ops| - 1];
             && Bounded(Run(p)) && Covered(Run(p), Lost(p, u, d), u, d)
             && KeyExact(Run(p), Idle(p, u, d), LastInstance(p, u, d), u, d)
    ensures Covered(Run(ops), Lost(ops, u, d), u, d)
  {
    var s := Run(ops[..|ops| - 1]);
    match ops[|ops| - 1]
    case Tick(n) => assert LiveKey(Run(ops), u, d) ==> LiveKey(s, u, d);
    case DoRegister(v, e, i) =>
    case DoUnregister(v, e) => SRemMembers(s.(keys := s.keys - {(v, e)}), v, {e}, u);
    case DoRefresh(v, e) =>
    case DoList(v) =>
    case DoFetch(v) =>
    case DoCleanup(v, gone) => SRemMembers(s, v, gone, u);
  }

  lemma {:induction false} RunInvariant(ops: seq<Op>, u: Id, d: Id)
    ensures Bounded(Run(ops))
    ensures KeyExact(Run(ops), Idle(ops, u, d), LastInstance(ops, u, d), u, d)
    ensures Covered(Run(ops), Lost(ops, u, d), u, d)
  {
    if ops != [] {
      var p := ops[..|ops| - 1];
      RunInvariant(p, u, d);
      OpKeepsBounded(Run(p), ops[|ops| - 1]);
      OpKeepsKey(ops, u, d);
      OpKeepsCovered(ops, u, d);
    }
  }

  // ---------------------------------------------------------------- theorems

  /** After any run, with cleanups at any later time, a lookup lists exactly the devices that are up and that no
      late cleanup has taken out, each at the instance it registered with last. */
  lemma {:induction false} ListedIff(ops: seq<Op>, u: Id, d: Id)
    ensures d in UserDevices(Run(ops), u) <==> Up(ops, u, d) && !Lost(ops, u, d)
    ensures d in UserDevices(Run(ops), u) ==> LastInstance(ops, u, d) == Some(UserDevices(Run(ops), u)[d])
  {
    RunInvariant(ops, u, d);
  }

  /** While nothing was lost, the device set is there for at least an hour longer than any live session key. */
  lemma SetOutlivesKeys(ops: seq<Op>, u: Id, d: Id)
    requires LiveKey(Run(ops), u, d) && !Lost(ops, u, d)
    ensures u in Run(ops).sets && Run(ops).sets[u].expiry >= Run(ops).keys[(u, d)].expiry + 3600
  {
    RunInvariant(ops, u, d);
  }

  /** With the cleanup at the lookup, nothing is ever lost. */
  lemma {:induction false} AtomicLosesNothing(ops: seq<Op>, u: Id, d: Id)
    requires Atomic(ops)
    ensures !Lost(ops, u, d)
  {
    if ops != [] {
      var p, last := ops[..|ops| - 1], |ops| - 1;
      assert Atomic(p) by {
        forall i: nat | i < |p| && p[i].DoCleanup?
            ensures exists j: nat, k: nat :: CleanupOf(p, j, k, i) && k + 1 == i {
          assert ops[i].DoCleanup?;
          var j: nat, k: nat :| CleanupOf(ops, j, k, i) && k + 1 == i;
          assert p[..j] == ops[..j] && p[..k] == ops[..k];
          assert CleanupOf(p, j, k, i);
        }
      }
      AtomicLosesNothing(p, u, d);
      if ops[last].DoCleanup? {
        var j: nat, k: nat :| CleanupOf(ops, j, k, last) && k + 1 == last;
        assert p[..|p| - 1] == ops[..k];
        assert Run(p) == Run(ops[..k]);
        RunInvariant(p, u, d);
      }
    }
  }

  /** With the cleanup at the lookup, a lookup lists exactly the devices that are up, for every run. */
  lemma {:induction false} AtomicListing(ops: seq<Op>, u: Id, d: Id)
    requires Atomic(ops)
    ensures d in UserDevices(Run(ops), u) <==> Up(ops, u, d)
  {
    AtomicLosesNothing(ops, u, d);
    ListedIff(ops, u, d);
  }

  /** The seconds since the last sign of life of the device, or since the start. */
  function Gap(ops: seq<Op>, user: Id, device: Id): nat {
    if ops == [] then 0
    else
      match ops[|ops| - 1]
      case Tick(n) => Gap(ops[..|ops| - 1], user, device) + n
      case DoRegister(u, d, _) => if (u, d) == (user, device) then 0 else Gap(ops[..|ops| - 1], user, device)
      case DoRefresh(u, d) => if (u, d) == (user, device) then 0 else Gap(ops[..|ops| - 1], user, device)
      case _ => Gap(ops[..|ops| - 1], user, device)
  }

  /** At every moment of it, less than 60 seconds have passed since the last sign of life of the device. */
  predicate Timely(after: seq<Op>, u: Id, d: Id) {
    after == [] || (Timely(after[..|after| - 1], u, d) && Gap(after, u, d) < TTL)
  }

  lemma {:induction false} GapIsIdle(before: seq<Op>, after: seq<Op>, u: Id, d: Id)
    requires Idle(before, u, d) == Some(0) && Timely(after, u, d) && DoUnregister(u, d) !in after
    ensures Idle(before + after, u, d) == Some(Gap(after, u, d))
  {
    if after == [] {
      assert before + after == before;
    } else {
      var p := after[..|after| - 1];
      assert (before + after)[..|before + after| - 1] == before + p;
      GapIsIdle(before, p, u, d);
    }
  }

  /** Exactly when a device is up, told from its last registration: it has not unregistered since, and always refreshed
      in time. */
  lemma {:induction false} UpIffKeptUp(before: seq<Op>, after: seq<Op>, u: Id, d: Id)
    requires Idle(before, u, d) == Some(0)
    requires forall op | op in after && op.DoRegister? :: (op.user, op.device) != (u, d)
    ensures Up(before + after, u, d) <==> DoUnregister(u, d) !in after && Timely(after, u, d)
    decreases |after|
  {
    if after == [] {
      assert before + after == before;
    } else {
      var p, op := after[..|after| - 1], after[|after| - 1];
      assert (before + after)[..|before + after| - 1] == before + p;
      assert after == p + [op];
      UpIffKeptUp(before, p, u, d);
      if DoUnregister(u, d) !in p && Timely(p, u, d) {
        GapIsIdle(before, p, u, d);
      }
    }
  }

  /** With the cleanup at the lookup, a device that registered and then refreshed at gaps under 60 seconds is listed
      at every moment until it unregisters. */
  lemma {:induction false} KeptUpIsListed(before: seq<Op>, after: seq<Op>, u: Id, d: Id)
    requires before != [] && before[|before| - 1].DoRegister?
    requires before[|before| - 1].user == u && before[|before| - 1].device == d
    requires Atomic(before + after) && Timely(after, u, d) && DoUnregister(u, d) !in after
    ensures d in UserDevices(Run(before + after), u)
  {
    GapIsIdle(before, after, u, d);
    AtomicListing(before + after, u, d);
  }

  /** A device that is down at one point and up at a later one registered in between. */
  lemma {:induction false} UpNeedsRegister(ops: seq<Op>, j: nat, u: Id, d: Id) returns (k: nat)
    requires j <= |ops| && !Up(ops[..j], u, d) && Up(ops, u, d)
    ensures j <= k < |ops| && ops[k].DoRegister? && ops[k].user == u && ops[k].device == d
  {
    assert ops[..|ops|] == ops;
    var p, op := ops[..|ops| - 1], ops[|ops| - 1];
    if op.DoRegister? && op.user == u && op.device == d {
      k := |ops| - 1;
    } else {
      assert p[..j] == ops[..j];
      k := UpNeedsRegister(p, j, u, d);
    }
  }

  /** A cleanup that hits a device that is up: the device registered since the lookup's second call. */
  lemma HitByCleanup(ops: seq<Op>, j: nat, k: nat, i: nat, u: Id, d: Id) returns (r: nat)
    requires CleanupOf(ops, j, k, i) && ops[i].user == u && d in ops[i].gone && Up(ops[..i], u, d)
    ensures k < r < i && ops[r].DoRegister? && ops[r].user == u && ops[r].device == d
  {
    var p := ops[..i];
    assert p[..k] == ops[..k];
    RunInvariant(ops[..k], u, d);
    r := UpNeedsRegister(p, k, u, d);
    assert ops[k] == p[k];
  }

  /** What a device is lost to: it registered after a lookup had found it stale and before that lookup's cleanup. */
  lemma {:induction false} LostToALateCleanup(ops: seq<Op>, u: Id, d: Id) returns (j: nat, k: nat, r: nat, i: nat)
    requires Legal(ops) && Lost(ops, u, d)
    ensures CleanupOf(ops, j, k, i) && ops[i].user == u && d in ops[i].gone
    ensures k < r < i && ops[r].DoRegister? && ops[r].user == u && ops[r].device == d
  {
    var last := |ops| - 1;
    if ops[last].DoCleanup? && ops[last].user == u && d in ops[last].gone && Up(ops[..last], u, d) {
      i := last;
      j, k :| CleanupOf(ops, j, k, i);
      r := HitByCleanup(ops, j, k, i, u, d);
    } else {
      LegalPrefix(ops);
      j, k, r, i := LostToALateCleanup(ops[..last], u, d);
      CleanupInRun(ops, last, j, k, i);
    }
  }

  lemma CleanupInRun(ops: seq<Op>, n: nat, j: nat, k: nat, i: nat)
    requires n <= |ops| && CleanupOf(ops[..n], j, k, i)
    ensures CleanupOf(ops, j, k, i)
  {
    assert ops[..n][..j] == ops[..j] && ops[..n][..k] == ops[..k];
  }

  lemma LegalPrefix(ops: seq<Op>)
    requires Legal(ops) && ops != []
    ensures Legal(ops[..|ops| - 1])
  {
    var p := ops[..|ops| - 1];
    forall m: nat | m < |p| && p[m].DoCleanup? ensures exists j: nat, k: nat :: CleanupOf(p, j, k, m) {
      assert ops[m].DoCleanup?;
      var j: nat, k: nat :| CleanupOf(ops, j, k, m);
      assert p[..j] == ops[..j] && p[..k] == ops[..k];
      assert CleanupOf(p, j, k, m);
    }
  }

  /** What a lookup answers whose two calls come at `j` and `k` of a run. */
  ghost function LookupAnswer(ops: seq<Op>, j: nat, k: nat, u: Id): map<Id, Id>
    requires j <= k <= |ops|
  {
    map d | d in SMembers(Run(ops[..j]), u) && LiveKey(Run(ops[..k]), u, d) :: Run(ops[..k]).keys[(u, d)].instance
  }

  /** Whatever comes between the two calls: a device in the answer is up at the second call, at the instance it
      registered with last; and a device that is up at both calls is in the answer unless it was lost at the first. */
  lemma {:induction false} AnswerOfTwoCalls(ops: seq<Op>, j: nat, k: nat, u: Id, d: Id)
    requires j <= k <= |ops|
    ensures d in LookupAnswer(ops, j, k, u) ==>
              Up(ops[..k], u, d) && LastInstance(ops[..k], u, d) == Some(LookupAnswer(ops, j, k, u)[d])
    ensures Up(ops[..j], u, d) && Up(ops[..k], u, d) ==> (d in LookupAnswer(ops, j, k, u) <==> !Lost(ops[..j], u, d))
  {
    RunInvariant(ops[..j], u, d);
    RunInvariant(ops[..k], u, d);
  }

  /** The window is real: a run in which a connected device is not listed. */
  lemma LateCleanupHidesDevice(u: Id, d: Id, a: Id) returns (ops: seq<Op>)
    ensures Legal(ops) && Up(ops, u, d) && d !in UserDevices(Run(ops), u)
  {
    ops := [DoRegister(u, d, a), Tick(60), DoList(u), DoFetch(u), DoRegister(u, d, a), DoCleanup(u, {d})];
    assert ops[..5][..4] == ops[..4] && ops[..4][..3] == ops[..3] && ops[..3][..2] == ops[..2] &&
        ops[..2][..1] == ops[..1];
    assert ops[..1] == [DoRegister(u, d, a)];
    assert Run(ops[..1]) == Register(INIT, u, d, a);
    assert FoundStale(Run(ops[..2]), Run(ops[..3]), u) == {d};
    assert CleanupOf(ops, 2, 3, 5);
    ListedIff(ops, u, d);
  }

  // ---------------------------------------------------------------- the store

  /** The presence store, updated in place. */
  class Store {
    var now: int
    var keys: map<(Id, Id), SessionKey>
    var sets: map<Id, DeviceSet>

    function Value(): State
      reads this
    {
      State(now, keys, sets)
    }

    constructor ()
      ensures Value() == INIT
    {
      now, keys, sets := 0, map[], map[];
    }

    method RegisterDevice(user: Id, device: Id, instance: Id)
      modifies this
      ensures Value() == Register(old(Value()), user, device, instance)
    {
      keys := keys[(user, device) := SessionKey(instance, now + TTL)];
      sets := sets[user := DeviceSet(SMembers(Value(), user) + {device}, now + SET_TTL)];
    }

    /** Removes the device; the user is announced offline exactly if no live device is listed any more, or if the
        lookup that is to tell fails. */
    method UnregisterDevice(user: Id, device: Id, order: Option<seq<Id>>) returns (offline: bool, stale: set<Id>)
      requires order.Some? ==> SetOf(order.value) == SMembers(Unregister(Value(), user, device), user)
      modifies this
      ensures Value() == Unregister(old(Value()), user, device)
      ensures offline <==> order.None? || forall d: Id :: d !in UserDevices(Value(), user)
      ensures stale == if order.Some? then FoundStale(Value(), Value(), user) else {}
    {
      keys := keys - {(user, device)};
      var after := SRem(Value(), user, {device});
      sets := after.sets;
      if order.None? {
        return true, {};
      }
      var listed: map<Id, Id>;
      listed, stale := GetUserDevices(user, order.value);
      offline := |listed| == 0;
    }

    method RefreshDevice(user: Id, device: Id)
      modifies this
      ensures Value() == Refresh(old(Value()), user, device)
    {
      if LiveKey(Value(), user, device) {
        keys := keys[(user, device) := keys[(user, device)].(expiry := now + TTL)];
      }
      if SMembers(Value(), user) != {} {
        sets := sets[user := sets[user].(expiry := now + SET_TTL)];
      }
    }

    /** Looks every device of the set up, in the order the set was listed; the stale ones are left to a cleanup. */
    method GetUserDevices(user: Id, order: seq<Id>) returns (result: map<Id, Id>, stale: set<Id>)
      requires SetOf(order) == SMembers(Value(), user)
      ensures result == UserDevices(Value(), user)
      ensures stale == FoundStale(Value(), Value(), user)
    {
      result, stale := map[], {};
      for i := 0 to |order|
        invariant forall d: Id :: d in result <==> d in order[..i] && LiveKey(Value(), user, d)
        invariant forall d: Id | d in result :: result[d] == keys[(user, d)].instance
        invariant forall d: Id :: d in stale <==> d in order[..i] && !LiveKey(Value(), user, d)
      {
        var d := order[i];
        assert order[..i + 1] == order[..i] + [d];
        if LiveKey(Value(), user, d) {
          result := result[d := keys[(user, d)].instance];
        } else {
          stale := stale + {d};
        }
      }
      assert order[..|order|] == order;
    }
  }
}
