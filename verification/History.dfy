/** History for a resuming client: the message query, the server's page clamp and the paging loop. */
module History {
  import opened Events

  const PAGE_SIZE: nat := 100
  const MAX_PAGE_SIZE: nat := 500

  /** The table's UNIQUE (conversation_id, sequence) constraint. */
  ghost predicate UniqueSequences(store: set<Message>) {
    forall a, b | a in store && b in store && a.conv == b.conv && a.sequence == b.sequence :: a == b
  }

  function Matching(store: set<Message>, conv: Id, after: int): set<Message> {
    set m | m in store && m.conv == conv && m.sequence > after
  }

  predicate StrictlyAscending(s: seq<Message>) {
    forall i, j | 0 <= i < j < |s| :: s[i].sequence < s[j].sequence
  }

  lemma {:induction false} LeastExists(ms: set<Message>)
    requires ms != {}
    ensures exists m :: m in ms && forall x | x in ms :: m.sequence <= x.sequence
    decreases |ms|
  {
    var m :| m in ms;
    var rest := ms - {m};
    if rest != {} {
      LeastExists(rest);
      var l :| l in rest && forall x | x in rest :: l.sequence <= x.sequence;
      var best := if l.sequence < m.sequence then l else m;
      assert forall x | x in ms :: x == m || x in rest;
      assert best in ms && forall x | x in ms :: best.sequence <= x.sequence;
    } else {
      assert ms == {m};
    }
  }

  /** The message of a conversation that follows position `after`. */
  function Following(store: set<Message>, conv: Id, after: int): (m: Message)
    requires UniqueSequences(store) && Matching(store, conv, after) != {}
    ensures m in Matching(store, conv, after)
    ensures forall x | x in Matching(store, conv, after) :: m.sequence <= x.sequence
  {
    var ms := Matching(store, conv, after);
    LeastExists(ms);
    var m :| m in ms && forall x | x in ms :: m.sequence <= x.sequence;
    m
  }

  /** The unpaged query: every message of the conversation above `after`, ORDER BY sequence ASC. */
  function Above(store: set<Message>, conv: Id, after: int): seq<Message>
    requires UniqueSequences(store)
    decreases |Matching(store, conv, after)|
  {
    if Matching(store, conv, after) == {} then []
    else
      var m := Following(store, conv, after);
      MatchingShrinks(store, conv, after, m);
      [m] + Above(store, conv, m.sequence)
  }

  lemma MatchingShrinks(store: set<Message>, conv: Id, after: int, m: Message)
    requires m in Matching(store, conv, after)
    ensures Matching(store, conv, m.sequence) < Matching(store, conv, after)
    ensures |Matching(store, conv, m.sequence)| < |Matching(store, conv, after)|
  {
    var rest := Matching(store, conv, after) - Matching(store, conv, m.sequence);
    assert m in rest;
    assert Matching(store, conv, after) == Matching(store, conv, m.sequence) + rest;
  }

  function Take<T>(s: seq<T>, n: nat): seq<T> {
    if |s| <= n then s else s[..n]
  }

  function FetchMessages(store: set<Message>, conv: Id, after: int, limit: nat): seq<Message>
    requires UniqueSequences(store)
  {
    Take(Above(store, conv, after), limit)
  }

  function ClampPageSize(pageSize: int): nat {
    if pageSize <= 0 || pageSize > MAX_PAGE_SIZE then PAGE_SIZE else pageSize
  }

  /** The server side of a page request; None is the not-a-participant error. */
  function SyncMessages(store: set<Message>, members: set<Id>, conv: Id, user: Id, after: int, pageSize: int)
      : Option<seq<Message>>
    requires UniqueSequences(store)
  {
    if user in members then Some(FetchMessages(store, conv, after, ClampPageSize(pageSize))) else None
  }

  lemma {:induction false} AboveSound(store: set<Message>, conv: Id, after: int)
    requires UniqueSequences(store)
    ensures var h := Above(store, conv, after);
            && (forall i | 0 <= i < |h| :: h[i] in Matching(store, conv, after))
            && StrictlyAscending(h)
    decreases |Matching(store, conv, after)|
  {
    if Matching(store, conv, after) != {} {
      var m := Following(store, conv, after);
      MatchingShrinks(store, conv, after, m);
      AboveSound(store, conv, m.sequence);
    }
  }

  lemma {:induction false} AboveComplete(store: set<Message>, conv: Id, after: int, m: Message)
    requires UniqueSequences(store) && m in Matching(store, conv, after)
    ensures m in Above(store, conv, after)
    decreases |Matching(store, conv, after)|
  {
    var first := Following(store, conv, after);
    MatchingShrinks(store, conv, after, first);
    if m != first {
      assert m.sequence != first.sequence;
      AboveComplete(store, conv, first.sequence, m);
    }
  }

  /** Asking again above the last message of a page continues where the page ended. */
  lemma {:induction false} AboveContinues(store: set<Message>, conv: Id, after: int, k: nat)
    requires UniqueSequences(store)
    requires 0 < k <= |Above(store, conv, after)|
    ensures var all := Above(store, conv, after);
            Above(store, conv, all[k - 1].sequence) == all[k..]
    decreases k
  {
    var m := Following(store, conv, after);
    if k > 1 {
      AboveContinues(store, conv, m.sequence, k - 1);
    }
  }

  /** The position a client starts from: what it named, and 0 for a conversation it does not know. */
  function LastOf(last: map<Id, int>, conv: Id): int {
    if conv in last then last[conv] else 0
  }

  function ToSync(last: map<Id, int>, listed: set<Id>): map<Id, int> {
    map c | c in last.Keys + listed :: LastOf(last, c)
  }

  /** Collects what a resume has to sync: the client's positions, then the listed conversations it did not name. */
  method BuildToSync(last: map<Id, int>, listed: seq<Id>) returns (toSync: map<Id, int>)
    ensures toSync == ToSync(last, SetOf(listed))
  {
    toSync := last;
    var i := 0;
    while i < |listed|
      invariant 0 <= i <= |listed|
      invariant toSync == ToSync(last, SetOf(listed[..i]))
    {
      assert SetOf(listed[..i + 1]) == SetOf(listed[..i]) + {listed[i]};
      if listed[i] !in toSync {
        toSync := toSync[listed[i] := 0];
      }
      i := i + 1;
    }
    assert listed[..i] == listed;
  }

  /** Sends a page message by message, moving the position up to the largest sequence seen. */
  method EmitPage(page: seq<Message>, start: int) returns (sent: seq<Message>, position: int)
    ensures sent == page
    ensures position >= start && forall m | m in page :: m.sequence <= position
    ensures position == start || exists m | m in page :: m.sequence == position
  {
    sent, position := [], start;
    var i := 0;
    while i < |page|
      invariant 0 <= i <= |page| && sent == page[..i]
      invariant position >= start && forall k | 0 <= k < i :: page[k].sequence <= position
      invariant position == start || exists m | m in page :: m.sequence == position
    {
      sent := sent + [page[i]];
      if page[i].sequence > position {
        position := page[i].sequence;
      }
      i := i + 1;
    }
  }

  /** After a page has been sent, the query from the new position is what the page left over. */
  lemma PageAdvances(store: set<Message>, conv: Id, asked: int, page: seq<Message>, position: int)
    requires UniqueSequences(store)
    requires page == FetchMessages(store, conv, asked, PAGE_SIZE) && page != []
    requires position >= asked && (forall m | m in page :: m.sequence <= position)
    requires position == asked || exists m | m in page :: m.sequence == position
    ensures |page| <= |Above(store, conv, asked)|
    ensures page + Above(store, conv, position) == Above(store, conv, asked)
    ensures |page| < PAGE_SIZE ==> Above(store, conv, position) == []
  {
    var all := Above(store, conv, asked);
    var k := |page|;
    AboveSound(store, conv, asked);
    assert page == all[..k] && all[..k] + all[k..] == all;
    assert page[k - 1] in page && page[k - 1] in Matching(store, conv, asked);
    assert position == page[k - 1].sequence;
    AboveContinues(store, conv, asked, k);
  }

  /** The paging loop of a resume, over a store that does not change: it stops, and for a member it
      emits the unpaged query; anybody else gets nothing. */
  method SyncConversation(store: set<Message>, members: set<Id>, conv: Id, user: Id, lastSeq: int)
    returns (emitted: seq<Message>)
    requires UniqueSequences(store)
    ensures user in members ==> emitted == Above(store, conv, lastSeq)
    ensures user !in members ==> emitted == []
  {
    emitted := [];
    var currentSeq := lastSeq;
    ghost var all := Above(store, conv, lastSeq);
    ghost var rest := all;
    while true
      invariant emitted + rest == all
      invariant rest == Above(store, conv, currentSeq)
      invariant user !in members ==> emitted == []
      decreases |rest|
    {
      var resp := SyncMessages(store, members, conv, user, currentSeq, PAGE_SIZE);
      if resp.None? {
        return;
      }
      var page := resp.value;
      if |page| == 0 {
        assert rest == [];
        return;
      }
      var sent, position := EmitPage(page, currentSeq);
      PageAdvances(store, conv, currentSeq, page, position);
      ghost var left := Above(store, conv, position);
      assert emitted + (page + left) == (emitted + page) + left;
      emitted, currentSeq, rest := emitted + sent, position, left;
      if |page| < PAGE_SIZE {
        assert rest == [];
        return;
      }
    }
  }

  /** What the emitted history is: exactly the messages of the conversation above the start, each once. */
  lemma HistoryIsExact(store: set<Message>, conv: Id, after: int)
    requires UniqueSequences(store)
    ensures var h := Above(store, conv, after);
            && (forall m :: m in h <==> m in store && m.conv == conv && m.sequence > after)
            && StrictlyAscending(h)
  {
    AboveSound(store, conv, after);
    forall m | m in Matching(store, conv, after) ensures m in Above(store, conv, after) {
      AboveComplete(store, conv, after, m);
    }
  }

  // ---------------------------------------------------------------- what a page holds

  /** The messages of the query before `m`. */
  function Lower(store: set<Message>, conv: Id, after: int, m: Message): set<Message> {
    set x | x in store && x.conv == conv && after < x.sequence < m.sequence
  }

  lemma {:induction false} PlaceInQuery(store: set<Message>, conv: Id, after: int, i: nat)
    requires UniqueSequences(store) && i < |Above(store, conv, after)|
    ensures |Lower(store, conv, after, Above(store, conv, after)[i])| == i
  {
    AboveSound(store, conv, after);
    var all := Above(store, conv, after);
    forall x ensures x in Lower(store, conv, after, all[i]) <==> x in all[..i] {
      if x in Lower(store, conv, after, all[i]) {
        AboveComplete(store, conv, after, x);
        var k :| 0 <= k < |all| && all[k] == x;
        assert k < i;
      }
    }
    assert Lower(store, conv, after, all[i]) == SetOf(all[..i]);
    DistinctCount(all[..i]);
  }

  lemma {:induction false} DistinctCount(s: seq<Message>)
    requires StrictlyAscending(s)
    ensures |SetOf(s)| == |s|
  {
    if s == [] {
      assert SetOf(s) == {};
    } else {
      var front, x := s[..|s| - 1], s[|s| - 1];
      DistinctCount(front);
      assert x !in front && SetOf(s) == SetOf(front) + {x};
    }
  }

  /** What a page request answers: nothing to anybody but participants, and to a participant the messages of the
      conversation above the position before which there are fewer than the page holds: as many as asked for, if that is
      1 to 500, and 100 otherwise. */
  lemma PageIs(store: set<Message>, members: set<Id>, conv: Id, user: Id, after: int, pageSize: int, m: Message)
    requires UniqueSequences(store)
    ensures var page := SyncMessages(store, members, conv, user, after, pageSize);
            && (page.Some? <==> user in members)
            && (page.Some? ==> StrictlyAscending(page.value))
            && (page.Some? ==>
                  (m in page.value <==>
                   && m in store && m.conv == conv && m.sequence > after
                   && |Lower(store, conv, after, m)| < if 1 <= pageSize <= 500 then pageSize else 100))
  {
    AboveSound(store, conv, after);
    var n := if 1 <= pageSize <= 500 then pageSize else 100;
    PageHolds(store, conv, after, n, m);
  }

  lemma PageHolds(store: set<Message>, conv: Id, after: int, n: nat, m: Message)
    requires UniqueSequences(store)
    ensures m in FetchMessages(store, conv, after, n) <==>
            m in store && m.conv == conv && m.sequence > after && |Lower(store, conv, after, m)| < n
  {
    AboveSound(store, conv, after);
    var all, page := Above(store, conv, after), FetchMessages(store, conv, after, n);
    if m in page {
      var i :| 0 <= i < |page| && page[i] == m;
      PlaceInQuery(store, conv, after, i);
      assert all[i] == m && m in Matching(store, conv, after);
    }
    if m in Matching(store, conv, after) {
      AboveComplete(store, conv, after, m);
      var i :| 0 <= i < |all| && all[i] == m;
      PlaceInQuery(store, conv, after, i);
      if i < n {
        assert page[i] == m;
      }
    }
  }
}
