/** Every interleaving of one session's threads: the read loop, which sends history and
    then flushes the buffer, the dispatchers that offer events, the write loop and closers.
    A send is two steps, the test of the closed flag and the enqueue, so that a close may
    fall between them. The flush holds the buffer's lock from its first step to its last. */
module SessionProtocol {
  import opened Events
  import opened Session

  datatype Phase = Resuming | Flushing(todo: seq<Envelope>) | Live

  datatype State = State(
    core: Core,
    phase: Phase,
    reader: Option<Envelope>,      // the read loop, between its closed test and its enqueue
    atBuffer: multiset<Envelope>,  // dispatchers waiting for the buffer's lock
    atSend: multiset<Envelope>,    // dispatchers that the buffer refused
    atSelect: multiset<Envelope>,  // dispatchers between the closed test and the enqueue
    sent: seq<Envelope>,           // taken from the queue by the write loop
    // history variables
    arrived: multiset<Envelope>,   // every event a dispatcher brought
    offered: seq<Envelope>,        // every history event the read loop tried to send
    buffered: seq<Envelope>,       // every event the buffer took, in order
    order: seq<Envelope>,          // the order the flush chose
    history: seq<Envelope>,        // accepted by the queue, by origin
    flushed: seq<Envelope>,
    live: seq<Envelope>,
    dropped: multiset<Envelope>)

  datatype Step =
    | Arrive(e: Envelope)
    | BufferCall(e: Envelope)
    | LoadClosed(e: Envelope)
    | Select(e: Envelope)
    | HistoryLoad(e: Envelope)
    | HistorySelect
    | BeginFlush(order: seq<Envelope>)
    | FlushLoad
    | FlushSelect
    | EndFlush
    | Drain
    | Close

  const INIT := State(FRESH, Resuming, None, multiset{}, multiset{}, multiset{}, [],
                      multiset{}, [], [], [], [], [], [], multiset{})

  ghost predicate Enabled(s: State, st: Step) {
    match st
    case Arrive(_) => true
    case BufferCall(e) => e in s.atBuffer && !s.phase.Flushing?
    case LoadClosed(e) => e in s.atSend
    case Select(e) => e in s.atSelect
    case HistoryLoad(_) => s.phase.Resuming? && s.reader.None?
    case HistorySelect => s.phase.Resuming? && s.reader.Some?
    case BeginFlush(order) => s.phase.Resuming? && s.reader.None? && SortResult(s.core.buffer, order)
    case FlushLoad => s.phase.Flushing? && s.phase.todo != [] && s.reader.None?
    case FlushSelect => s.phase.Flushing? && s.reader.Some?
    case EndFlush => s.phase.Flushing? && s.phase.todo == [] && s.reader.None?
    case Drain => s.core.queue != []
    case Close => true
  }

  /** The queue took the event offered to it. */
  predicate Accepts(c: Core) {
    |c.queue| < SEND_QUEUE_SIZE
  }

  function Apply(s: State, st: Step): State
    requires Enabled(s, st)
  {
    match st
    case Arrive(e) =>
      s.(atBuffer := s.atBuffer + multiset{e}, arrived := s.arrived + multiset{e})
    case BufferCall(e) =>
      if s.core.ready then
        s.(atBuffer := s.atBuffer - multiset{e}, atSend := s.atSend + multiset{e})
      else
        s.(atBuffer := s.atBuffer - multiset{e},
           core := s.core.(buffer := s.core.buffer + [e]), buffered := s.buffered + [e])
    case LoadClosed(e) =>
      if s.core.closed then
        s.(atSend := s.atSend - multiset{e}, dropped := s.dropped + multiset{e})
      else
        s.(atSend := s.atSend - multiset{e}, atSelect := s.atSelect + multiset{e})
    case Select(e) =>
      var t := s.(atSelect := s.atSelect - multiset{e}, core := Enqueue(s.core, e));
      if Accepts(s.core) then t.(live := s.live + [e]) else t.(dropped := s.dropped + multiset{e})
    case HistoryLoad(e) =>
      var t := s.(offered := s.offered + [e]);
      if s.core.closed then t.(dropped := s.dropped + multiset{e}) else t.(reader := Some(e))
    case HistorySelect =>
      var e := s.reader.value;
      var t := s.(reader := None, core := Enqueue(s.core, e));
      if Accepts(s.core) then t.(history := s.history + [e]) else t.(dropped := s.dropped + multiset{e})
    case BeginFlush(order) =>
      s.(core := s.core.(ready := true, buffer := order), phase := Flushing(order), order := order)
    case FlushLoad =>
      var e := s.phase.todo[0];
      var t := s.(phase := Flushing(s.phase.todo[1..]));
      if s.core.closed then t.(dropped := s.dropped + multiset{e}) else t.(reader := Some(e))
    case FlushSelect =>
      var e := s.reader.value;
      var t := s.(reader := None, core := Enqueue(s.core, e));
      if Accepts(s.core) then t.(flushed := s.flushed + [e]) else t.(dropped := s.dropped + multiset{e})
    case EndFlush =>
      s.(phase := Live, core := s.core.(buffer := []))
    case Drain =>
      s.(sent := s.sent + [s.core.queue[0]], core := s.core.(queue := s.core.queue[1..]))
    case Close =>
      s.(core := s.core.(closed := true))
  }

  ghost predicate Next(s: State, t: State) {
    exists st: Step :: Enabled(s, st) && t == Apply(s, st)
  }

  ghost predicate StepAt(run: seq<State>, i: nat)
    requires i + 1 < |run|
  {
    Next(run[i], run[i + 1])
  }

  ghost predicate IsRun(run: seq<State>) {
    && |run| > 0 && run[0] == INIT
    && forall i: nat {:trigger StepAt(run, i)} | i + 1 < |run| :: StepAt(run, i)
  }

  // ---------------------------------------------------------------- invariant

  function Reading(s: State): seq<Envelope> {
    if s.reader.Some? then [s.reader.value] else []
  }

  /** Events that the buffer holds and the flush has not yet taken up. */
  function Waiting(s: State): seq<Envelope> {
    match s.phase
    case Resuming => s.core.buffer
    case Flushing(todo) => todo
    case Live => []
  }

  /** The client receives history, then the flushed buffer, then live events. */
  ghost predicate Ordered(s: State) {
    && s.sent + s.core.queue == s.history + s.flushed + s.live
    && |s.core.queue| <= SEND_QUEUE_SIZE
    && (s.phase.Resuming? ==> s.flushed == [] && s.order == [])
    && (!s.phase.Live? ==> s.live == [] && s.atSend == multiset{} && s.atSelect == multiset{})
    && (s.phase.Live? ==> s.reader.None? && s.core.buffer == [])
    && s.core.ready == !s.phase.Resuming?
    && (s.phase.Resuming? ==> s.core.buffer == s.buffered)
    && (!s.phase.Resuming? ==> SortResult(s.buffered, s.order))
  }

  function Given(s: State, e: Envelope): nat {
    s.arrived[e] + multiset(s.offered)[e]
  }

  function Placed(s: State, e: Envelope): nat {
    s.atBuffer[e] + s.atSend[e] + s.atSelect[e] + multiset(Waiting(s))[e] + multiset(Reading(s))[e]
    + multiset(s.history)[e] + multiset(s.flushed)[e] + multiset(s.live)[e] + s.dropped[e]
  }

  /** Every event brought or offered is in exactly one place, counted with repetitions. */
  ghost predicate Conserved(s: State) {
    forall e: Envelope {:trigger Given(s, e)} {:trigger Placed(s, e)} :: Given(s, e) == Placed(s, e)
  }

  /** While the session is open nothing is dropped, and history and flush are complete so far. */
  ghost predicate Lossless(s: State) {
    !s.core.closed ==>
      && s.dropped == multiset{}
      && s.offered == s.history + (if s.phase.Resuming? then Reading(s) else [])
      && (s.phase.Flushing? ==> s.order == s.flushed + Reading(s) + s.phase.todo)
      && (s.phase.Live? ==> s.order == s.flushed)
  }

  ghost predicate Shape(s: State) {
    Ordered(s) && Lossless(s)
  }

  ghost predicate Inv(s: State) {
    Shape(s) && Conserved(s)
  }

  lemma EnqueueKeeps(s: State, e: Envelope)
    requires |s.core.queue| <= SEND_QUEUE_SIZE
    ensures Accepts(s.core) ==> s.sent + Enqueue(s.core, e).queue == (s.sent + s.core.queue) + [e]
    ensures !Accepts(s.core) ==> Enqueue(s.core, e) == s.core.(closed := true)
    ensures |Enqueue(s.core, e).queue| <= SEND_QUEUE_SIZE
  {
  }

  lemma ArriveStep(s: State, e: Envelope)
    requires Shape(s)
    ensures Shape(Apply(s, Arrive(e)))
  {
  }

  lemma BufferCallStep(s: State, e: Envelope)
    requires Shape(s) && Enabled(s, BufferCall(e))
    ensures Shape(Apply(s, BufferCall(e)))
  {
  }

  lemma LoadClosedStep(s: State, e: Envelope)
    requires Shape(s) && Enabled(s, LoadClosed(e))
    ensures Shape(Apply(s, LoadClosed(e)))
  {
  }

  lemma SelectStep(s: State, e: Envelope)
    requires Shape(s) && Enabled(s, Select(e))
    ensures Shape(Apply(s, Select(e)))
  {
    EnqueueKeeps(s, e);
    assert (s.history + s.flushed + s.live) + [e] == s.history + s.flushed + (s.live + [e]);
  }

  lemma HistoryLoadStep(s: State, e: Envelope)
    requires Shape(s) && Enabled(s, HistoryLoad(e))
    ensures Shape(Apply(s, HistoryLoad(e)))
  {
  }

  lemma HistorySelectStep(s: State)
    requires Shape(s) && Enabled(s, HistorySelect)
    ensures Shape(Apply(s, HistorySelect))
  {
    var e := s.reader.value;
    EnqueueKeeps(s, e);
    assert s.history + s.flushed + s.live == s.history;
    assert (s.history + [e]) + s.flushed + s.live == s.history + [e];
  }

  lemma BeginFlushStep(s: State, order: seq<Envelope>)
    requires Shape(s) && Enabled(s, BeginFlush(order))
    ensures Shape(Apply(s, BeginFlush(order)))
  {
  }

  lemma FlushLoadStep(s: State)
    requires Shape(s) && Enabled(s, FlushLoad)
    ensures Shape(Apply(s, FlushLoad))
  {
    assert s.phase.todo == [s.phase.todo[0]] + s.phase.todo[1..];
  }

  lemma FlushSelectStep(s: State)
    requires Shape(s) && Enabled(s, FlushSelect)
    ensures Shape(Apply(s, FlushSelect))
  {
    var e := s.reader.value;
    EnqueueKeeps(s, e);
    assert (s.history + s.flushed + s.live) + [e] == s.history + (s.flushed + [e]) + s.live;
  }

  lemma EndFlushStep(s: State)
    requires Shape(s) && Enabled(s, EndFlush)
    ensures Shape(Apply(s, EndFlush))
  {
  }

  lemma DrainStep(s: State)
    requires Shape(s) && Enabled(s, Drain)
    ensures Shape(Apply(s, Drain))
  {
    assert s.core.queue == [s.core.queue[0]] + s.core.queue[1..];
  }

  lemma ShapeStep(s: State, st: Step)
    requires Shape(s) && Enabled(s, st)
    ensures Shape(Apply(s, st))
  {
    match st {
      case Arrive(e) => ArriveStep(s, e);
      case BufferCall(e) => BufferCallStep(s, e);
      case LoadClosed(e) => LoadClosedStep(s, e);
      case Select(e) => SelectStep(s, e);
      case HistoryLoad(e) => HistoryLoadStep(s, e);
      case HistorySelect => HistorySelectStep(s);
      case BeginFlush(order) => BeginFlushStep(s, order);
      case FlushLoad => FlushLoadStep(s);
      case FlushSelect => FlushSelectStep(s);
      case EndFlush => EndFlushStep(s);
      case Drain => DrainStep(s);
      case Close =>
    }
  }

  function One(x: Envelope, e: Envelope): nat {
    if x == e then 1 else 0
  }

  lemma AppendCount(s: seq<Envelope>, x: Envelope, e: Envelope)
    ensures multiset(s + [x])[e] == multiset(s)[e] + One(x, e)
  {
  }

  lemma RemoveCount(m: multiset<Envelope>, x: Envelope, e: Envelope)
    requires x in m
    ensures (m - multiset{x})[e] == m[e] - One(x, e)
  {
  }

  lemma AddCount(m: multiset<Envelope>, x: Envelope, e: Envelope)
    ensures (m + multiset{x})[e] == m[e] + One(x, e)
  {
  }

  lemma BufferBalance(s: State, st: Step, e: Envelope, t: State)
    requires st.Arrive? || st.BufferCall?
    requires s.core.ready == !s.phase.Resuming? && Enabled(s, st) && t == Apply(s, st) && Given(s, e) == Placed(s, e)
    ensures Given(t, e) == Placed(t, e)
  {
  }

  lemma LoadBalance(s: State, st: Step, e: Envelope, t: State)
    requires st.LoadClosed?
    requires s.core.ready == !s.phase.Resuming? && Enabled(s, st) && t == Apply(s, st) && Given(s, e) == Placed(s, e)
    ensures Given(t, e) == Placed(t, e)
  {
    RemoveCount(s.atSend, st.e, e);
    AddCount(s.dropped, st.e, e);
    AddCount(s.atSelect, st.e, e);
  }

  lemma SelectBalance(s: State, st: Step, e: Envelope, t: State)
    requires st.Select?
    requires s.core.ready == !s.phase.Resuming? && Enabled(s, st) && t == Apply(s, st) && Given(s, e) == Placed(s, e)
    ensures Given(t, e) == Placed(t, e)
  {
    assert Waiting(t) == Waiting(s) && Reading(t) == Reading(s);
    RemoveCount(s.atSelect, st.e, e);
    if Accepts(s.core) {
      AppendCount(s.live, st.e, e);
    } else {
      AddCount(s.dropped, st.e, e);
    }
  }

  lemma HistoryLoadBalance(s: State, st: Step, e: Envelope, t: State)
    requires st.HistoryLoad?
    requires s.core.ready == !s.phase.Resuming? && Enabled(s, st) && t == Apply(s, st) && Given(s, e) == Placed(s, e)
    ensures Given(t, e) == Placed(t, e)
  {
    AddCount(s.dropped, st.e, e);
    AppendCount(s.offered, st.e, e);
  }

  lemma HistorySelectBalance(s: State, st: Step, e: Envelope, t: State)
    requires st.HistorySelect?
    requires s.core.ready == !s.phase.Resuming? && Enabled(s, st) && t == Apply(s, st) && Given(s, e) == Placed(s, e)
    ensures Given(t, e) == Placed(t, e)
  {
    assert Waiting(t) == Waiting(s) && multiset(Reading(s))[e] == One(s.reader.value, e);
    if Accepts(s.core) {
      AppendCount(s.history, s.reader.value, e);
    } else {
      AddCount(s.dropped, s.reader.value, e);
    }
  }

  lemma FlushBalance(s: State, st: Step, e: Envelope, t: State)
    requires st.BeginFlush? || st.EndFlush?
    requires s.core.ready == !s.phase.Resuming? && Enabled(s, st) && t == Apply(s, st) && Given(s, e) == Placed(s, e)
    ensures Given(t, e) == Placed(t, e)
  {
  }

  lemma FlushSelectBalance(s: State, st: Step, e: Envelope, t: State)
    requires st.FlushSelect?
    requires s.core.ready == !s.phase.Resuming? && Enabled(s, st) && t == Apply(s, st) && Given(s, e) == Placed(s, e)
    ensures Given(t, e) == Placed(t, e)
  {
    assert Waiting(t) == Waiting(s) && multiset(Reading(s))[e] == One(s.reader.value, e);
    if Accepts(s.core) {
      AppendCount(s.flushed, s.reader.value, e);
    } else {
      AddCount(s.dropped, s.reader.value, e);
    }
  }

  lemma FlushLoadBalance(s: State, st: Step, e: Envelope, t: State)
    requires st.FlushLoad?
    requires s.core.ready == !s.phase.Resuming? && Enabled(s, st) && t == Apply(s, st) && Given(s, e) == Placed(s, e)
    ensures Given(t, e) == Placed(t, e)
  {
    assert s.phase.todo == [s.phase.todo[0]] + s.phase.todo[1..];
    AddCount(s.dropped, s.phase.todo[0], e);
  }

  /** A step moves an event from one place to another, or brings a new one. */
  lemma Balance(s: State, st: Step, e: Envelope, t: State)
    requires s.core.ready == !s.phase.Resuming? && Enabled(s, st) && t == Apply(s, st) && Given(s, e) == Placed(s, e)
    ensures Given(t, e) == Placed(t, e)
  {
    if st.Arrive? || st.BufferCall? {
      BufferBalance(s, st, e, t);
    } else if st.BeginFlush? || st.EndFlush? {
      FlushBalance(s, st, e, t);
    } else {
      match st
      case LoadClosed(_) => LoadBalance(s, st, e, t);
      case Select(_) => SelectBalance(s, st, e, t);
      case HistoryLoad(_) => HistoryLoadBalance(s, st, e, t);
      case HistorySelect => HistorySelectBalance(s, st, e, t);
      case FlushLoad => FlushLoadBalance(s, st, e, t);
      case FlushSelect => FlushSelectBalance(s, st, e, t);
      case _ =>
    }
  }

  lemma ConservedStep(s: State, st: Step)
    requires s.core.ready == !s.phase.Resuming? && Conserved(s) && Enabled(s, st)
    ensures Conserved(Apply(s, st))
  {
    forall e: Envelope ensures Given(Apply(s, st), e) == Placed(Apply(s, st), e) {
      Balance(s, st, e, Apply(s, st));
    }
  }

  lemma InvStep(s: State, st: Step)
    requires Inv(s) && Enabled(s, st)
    ensures Inv(Apply(s, st))
  {
    ShapeStep(s, st);
    ConservedStep(s, st);
  }

  lemma {:induction false} Invariant(run: seq<State>, i: nat)
    requires IsRun(run) && i < |run|
    ensures Inv(run[i])
  {
    if i > 0 {
      Invariant(run, i - 1);
      assert StepAt(run, i - 1);
      var st :| Enabled(run[i - 1], st) && run[i] == Apply(run[i - 1], st);
      InvStep(run[i - 1], st);
    }
  }

  // ---------------------------------------------------------------- theorems

  function Accepted(s: State): seq<Envelope> {
    s.sent + s.core.queue
  }

  /** No thread is inside a call on the session. */
  ghost predicate Quiet(s: State) {
    s.atBuffer == multiset{} && s.atSend == multiset{} && s.atSelect == multiset{} && s.reader.None?
  }

  /** At every moment of every run the queue is bounded and what it accepted is history, then
      flushed, then live events. Once live, the buffer is empty, and in an open session the
      history is complete and the flushed part is a sort result of everything buffered. */
  lemma AcceptedInOrder(run: seq<State>, i: nat)
    requires IsRun(run) && i < |run|
    ensures var s := run[i];
            && Accepted(s) == s.history + s.flushed + s.live
            && |s.core.queue| <= SEND_QUEUE_SIZE
            && (s.live != [] ==> s.phase.Live?)
            && (s.phase.Live? ==> s.core.buffer == [] && SortResult(s.buffered, s.order))
            && (s.phase.Live? && !s.core.closed ==> s.history == s.offered && s.flushed == s.order)
  {
    Invariant(run, i);
  }

  /** In an open, live and quiet session every event brought by a dispatcher and every
      history event was accepted exactly as often as it was offered. */
  lemma NothingLostOrDoubled(run: seq<State>, i: nat)
    requires IsRun(run) && i < |run|
    requires run[i].phase.Live? && !run[i].core.closed && Quiet(run[i])
    ensures multiset(Accepted(run[i])) == run[i].arrived + multiset(run[i].offered)
  {
    Invariant(run, i);
    QuietIsLossless(run[i]);
  }

  lemma QuietIsLossless(s: State)
    requires Inv(s) && s.phase.Live? && !s.core.closed && Quiet(s)
    ensures multiset(Accepted(s)) == s.arrived + multiset(s.offered)
  {
    forall e: Envelope ensures multiset(Accepted(s))[e] == (s.arrived + multiset(s.offered))[e] {
      assert Given(s, e) == Placed(s, e);
    }
  }

  /** What the queue accepted was brought by a dispatcher or sent as history. */
  lemma AcceptedWasGiven(s: State, e: Envelope)
    requires Inv(s) && e in Accepted(s)
    ensures e in s.arrived || e in s.offered
  {
    assert e in s.history || e in s.flushed || e in s.live;
    assert Given(s, e) == Placed(s, e);
  }

  lemma StepProgress(s: State, st: Step)
    requires Enabled(s, st)
    ensures s.core.closed ==> Apply(s, st).core.closed
    ensures s.core.ready ==> Apply(s, st).core.ready
    ensures Accepted(s) <= Accepted(Apply(s, st))
  {
    match st {
      case Drain => assert Accepted(Apply(s, st)) == Accepted(s);
      case Select(e) => assert s.sent + (s.core.queue + [e]) == Accepted(s) + [e];
      case HistorySelect => assert s.sent + (s.core.queue + [s.reader.value]) == Accepted(s) + [s.reader.value];
      case FlushSelect => assert s.sent + (s.core.queue + [s.reader.value]) == Accepted(s) + [s.reader.value];
      case _ =>
    }
  }

  /** An open session closes exactly if it is told to, or if an event meets a queue that holds 128. */
  lemma ClosesIff(s: State, st: Step)
    requires Enabled(s, st) && !s.core.closed
    ensures Apply(s, st).core.closed <==>
              st.Close? || ((st.Select? || st.HistorySelect? || st.FlushSelect?) && |s.core.queue| >= 128)
  {
  }

  /** No call is between its look at the closed flag and the queue. */
  ghost predicate NonePastTheFlag(s: State) {
    s.atSelect == multiset{} && s.reader.None?
  }

  lemma ClosedStep(s: State, st: Step)
    requires Enabled(s, st) && s.core.closed && NonePastTheFlag(s)
    ensures Apply(s, st).core.closed && NonePastTheFlag(Apply(s, st)) && Accepted(Apply(s, st)) == Accepted(s)
  {
  }

  /** A closed session accepts nothing more, once the calls that saw it open are through. */
  lemma {:induction false} ClosedAcceptsNoMore(run: seq<State>, i: nat, j: nat)
    requires IsRun(run) && i <= j < |run| && run[i].core.closed && NonePastTheFlag(run[i])
    ensures Accepted(run[j]) == Accepted(run[i])
    decreases j - i
  {
    if i < j {
      assert StepAt(run, i);
      var st :| Enabled(run[i], st) && run[i + 1] == Apply(run[i], st);
      ClosedStep(run[i], st);
      ClosedAcceptsNoMore(run, i + 1, j);
    }
  }

  /** Between any two moments of a run: a closed session stays closed, a ready one stays ready, what
      was accepted stays accepted in its place, and whoever lost an event finds the session closed. */
  lemma {:induction false} ClosesForGood(run: seq<State>, i: nat, j: nat)
    requires IsRun(run) && i <= j < |run|
    ensures run[i].core.closed ==> run[j].core.closed
    ensures run[i].core.ready ==> run[j].core.ready
    ensures Accepted(run[i]) <= Accepted(run[j])
    ensures run[i].dropped != multiset{} ==> run[j].core.closed
    decreases j - i
  {
    Invariant(run, i);
    if i < j {
      assert StepAt(run, i);
      var st :| Enabled(run[i], st) && run[i + 1] == Apply(run[i], st);
      StepProgress(run[i], st);
      ClosesForGood(run, i + 1, j);
    }
  }
}
