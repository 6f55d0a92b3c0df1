/** The asynchronous log sink: a bounded channel, one worker goroutine, and a reader-writer lock that
    orders sends against the closing of the channel.

    The model is an interleaved step system. Every thread (goroutine) carries a program counter; each
    action is one indivisible step of one thread or of the worker. A run is any sequence of actions, an
    action that is not enabled being a stutter, so every interleaving is a run. */
module LogSink {
  import opened Options

  type Thread = nat
  type Record = string

  /** Where a thread stands inside Handle or Close. */
  datatype Pc =
    | Idle
    | Arriving(r: Record)          // in Handle, wants the read lock
    | Testing(r: Record)           // holds the read lock, about to test `closed`
    | Sending(r: Record)           // holds the read lock, saw closed == false
    | Unlocking                    // holds the read lock, has sent or dropped
    | Falling(r: Record)           // saw closed == true, still holds the read lock
    | Writing(r: Record)           // lock released, writes through the inner handler itself
    | Closing                      // in Close, wants the write lock
    | CloseTesting                 // holds the write lock, about to test `closed`
    | CloseMarked                  // holds the write lock, set closed, channel still open
    | CloseSealed                  // holds the write lock, channel closed
    | CloseRefused                 // holds the write lock, somebody else closed before
    | Waiting                      // in wg.Wait()

  datatype Worker = Receiving | Busy(r: Record) | Exited

  /** sync.RWMutex. */
  datatype RWMutex = RWMutex(readers: set<Thread>, writer: Option<Thread>)

  /** asyncSink: the channel (capacity, buffer, closed or not), the `closed` flag and the worker. */
  datatype Sink = Sink(cap: nat, queue: seq<Record>, sealed: bool, closed: bool, worker: Worker)

  /** What has happened so far. */
  datatype History = History(
    calls: nat,                    // Handle calls started
    open: set<Thread>,             // Handle calls whose record has no fate yet
    enqueued: seq<Record>,
    handled: seq<Record>,
    dropped: nat,
    direct: nat)                   // records written synchronously after closing

  datatype Faults = Faults(
    seals: nat,                    // times close(ch) was executed
    flushed: bool,                 // the Close that sealed the channel has returned
    panicked: bool)                // send on closed channel, or close of closed channel

  datatype State = State(sink: Sink, mu: RWMutex, pcs: map<Thread, Pc>, h: History, f: Faults)

  function PcOf(pcs: map<Thread, Pc>, t: Thread): Pc { if t in pcs then pcs[t] else Idle }

  datatype Action =
    | CallHandle(t: Thread, r: Record)
    | RLock(t: Thread)
    | TestClosed(t: Thread)
    | TrySend(t: Thread)
    | RUnlock(t: Thread)
    | WriteDirect(t: Thread)
    | CallClose(t: Thread)
    | Lock(t: Thread)
    | TestFlag(t: Thread)
    | CloseChannel(t: Thread)
    | Unlock(t: Thread)
    | WaitDone(t: Thread)
    | WorkerReceive
    | WorkerHandle
    | WorkerExit

  /** A reader may enter while nobody writes, a writer while nobody holds the lock at all. */
  predicate Enabled(s: State, a: Action) {
    match a
    case CallHandle(t, r) => PcOf(s.pcs, t).Idle?
    case RLock(t) => PcOf(s.pcs, t).Arriving? && s.mu.writer.None?
    case TestClosed(t) => PcOf(s.pcs, t).Testing?
    case TrySend(t) => PcOf(s.pcs, t).Sending?
    case RUnlock(t) => PcOf(s.pcs, t).Unlocking? || PcOf(s.pcs, t).Falling?
    case WriteDirect(t) => PcOf(s.pcs, t).Writing?
    case CallClose(t) => PcOf(s.pcs, t).Idle?
    case Lock(t) => PcOf(s.pcs, t).Closing? && s.mu == RWMutex({}, None)
    case TestFlag(t) => PcOf(s.pcs, t).CloseTesting?
    case CloseChannel(t) => PcOf(s.pcs, t).CloseMarked?
    case Unlock(t) => PcOf(s.pcs, t).CloseSealed? || PcOf(s.pcs, t).CloseRefused?
    case WaitDone(t) => PcOf(s.pcs, t).Waiting? && s.sink.worker.Exited?
    case WorkerReceive => s.sink.worker.Receiving? && s.sink.queue != []
    case WorkerHandle => s.sink.worker.Busy?
    case WorkerExit => s.sink.worker.Receiving? && s.sink.queue == [] && s.sink.sealed
  }

  predicate HasRoom(k: Sink) { |k.queue| < k.cap || (k.queue == [] && k.worker.Receiving?) }

  /** The non-blocking send: straight to a worker blocked on an empty channel, else into the buffer. */
  function Push(k: Sink, r: Record): Sink {
    if k.queue == [] && k.worker.Receiving? then k.(worker := Busy(r)) else k.(queue := k.queue + [r])
  }

  function Send(s: State, t: Thread, r: Record): State {
    var (pcs, open) := (s.pcs[t := Unlocking], s.h.open - {t});
    if s.sink.sealed then
      s.(pcs := pcs, h := s.h.(open := open), f := s.f.(panicked := true))
    else if HasRoom(s.sink) then
      s.(sink := Push(s.sink, r), pcs := pcs, h := s.h.(open := open, enqueued := s.h.enqueued + [r]))
    else
      s.(pcs := pcs, h := s.h.(open := open, dropped := s.h.dropped + 1))
  }

  function Do(s: State, a: Action): State
    requires Enabled(s, a)
  {
    match a
    case CallHandle(t, r) =>
      s.(pcs := s.pcs[t := Arriving(r)], h := s.h.(calls := s.h.calls + 1, open := s.h.open + {t}))
    case RLock(t) =>
      s.(pcs := s.pcs[t := Testing(PcOf(s.pcs, t).r)], mu := s.mu.(readers := s.mu.readers + {t}))
    case TestClosed(t) =>
      var r := PcOf(s.pcs, t).r;
      s.(pcs := s.pcs[t := if s.sink.closed then Falling(r) else Sending(r)])
    case TrySend(t) => Send(s, t, PcOf(s.pcs, t).r)
    case RUnlock(t) =>
      var p := PcOf(s.pcs, t);
      s.(pcs := s.pcs[t := if p.Falling? then Writing(p.r) else Idle], mu := s.mu.(readers := s.mu.readers - {t}))
    case WriteDirect(t) =>
      s.(pcs := s.pcs[t := Idle], h := s.h.(direct := s.h.direct + 1, open := s.h.open - {t}))
    case CallClose(t) => s.(pcs := s.pcs[t := Closing])
    case Lock(t) => s.(pcs := s.pcs[t := CloseTesting], mu := RWMutex({}, Some(t)))
    case TestFlag(t) =>
      if s.sink.closed then s.(pcs := s.pcs[t := CloseRefused])
      else s.(pcs := s.pcs[t := CloseMarked], sink := s.sink.(closed := true))
    case CloseChannel(t) =>
      s.(pcs := s.pcs[t := CloseSealed], sink := s.sink.(sealed := true),
         f := s.f.(seals := s.f.seals + 1, panicked := s.f.panicked || s.sink.sealed))
    case Unlock(t) =>
      s.(pcs := s.pcs[t := if PcOf(s.pcs, t).CloseSealed? then Waiting else Idle], mu := s.mu.(writer := None))
    case WaitDone(t) => s.(pcs := s.pcs[t := Idle], f := s.f.(flushed := true))
    case WorkerReceive => s.(sink := s.sink.(worker := Busy(s.sink.queue[0]), queue := s.sink.queue[1..]))
    case WorkerHandle =>
      s.(sink := s.sink.(worker := Receiving), h := s.h.(handled := s.h.handled + [s.sink.worker.r]))
    case WorkerExit => s.(sink := s.sink.(worker := Exited))
  }

  function Step(s: State, a: Action): State { if Enabled(s, a) then Do(s, a) else s }

  function Init(cap: nat): State {
    State(Sink(cap, [], false, false, Receiving), RWMutex({}, None), map[],
          History(0, {}, [], [], 0, 0), Faults(0, false, false))
  }

  function Run(cap: nat, actions: seq<Action>): State {
    if actions == [] then Init(cap) else Step(Run(cap, actions[..|actions| - 1]), actions[|actions| - 1])
  }

  // ---------- the invariant ----------

  predicate HoldsRead(p: Pc) { p.Testing? || p.Sending? || p.Unlocking? || p.Falling? }

  predicate HoldsWrite(p: Pc) { p.CloseTesting? || p.CloseMarked? || p.CloseSealed? || p.CloseRefused? }

  predicate HasRecord(p: Pc) { p.Arriving? || p.Testing? || p.Sending? || p.Falling? || p.Writing? }

  /** The lock state is where the threads stand, and readers exclude the writer. */
  ghost predicate LockKept(mu: RWMutex, pcs: map<Thread, Pc>) {
    && (forall t: Thread :: HoldsRead(PcOf(pcs, t)) <==> t in mu.readers)
    && (forall t: Thread :: HoldsWrite(PcOf(pcs, t)) <==> mu.writer == Some(t))
    && (mu.writer.Some? ==> mu.readers == {})
  }

  /** What a thread's position says about the two flags. */
  predicate PositionFits(p: Pc, k: Sink) {
    && (p.Sending? ==> !k.closed)
    && (p.CloseMarked? ==> k.closed && !k.sealed)
    && (p.CloseSealed? || p.Waiting? ==> k.sealed)
  }

  ghost predicate FlagsKept(k: Sink, f: Faults, pcs: map<Thread, Pc>) {
    && (forall t: Thread :: PositionFits(PcOf(pcs, t), k))
    && (k.sealed ==> k.closed)
    && f.seals == (if k.sealed then 1 else 0)
    && (k.worker.Exited? ==> k.sealed && k.queue == [])
    && (f.flushed ==> k.worker.Exited?)
    && !f.panicked
  }

  function InHand(w: Worker): seq<Record> { if w.Busy? then [w.r] else [] }

  /** Where every record is, in order. */
  ghost predicate InOrder(k: Sink, h: History) {
    |k.queue| <= k.cap && h.enqueued == h.handled + InHand(k.worker) + k.queue
  }

  /** What became of every call. */
  ghost predicate Counted(h: History) {
    h.calls == |h.open| + |h.enqueued| + h.dropped + h.direct
  }

  ghost predicate OpenFits(open: set<Thread>, pcs: map<Thread, Pc>) {
    forall t: Thread :: t in open <==> HasRecord(PcOf(pcs, t))
  }

  ghost predicate Inv(s: State) {
    LockKept(s.mu, s.pcs) && FlagsKept(s.sink, s.f, s.pcs)
    && InOrder(s.sink, s.h) && Counted(s.h) && OpenFits(s.h.open, s.pcs)
  }

  lemma LocksAreKept(s: State, a: Action)
    requires LockKept(s.mu, s.pcs) && Enabled(s, a)
    ensures LockKept(Do(s, a).mu, Do(s, a).pcs)
  {
  }

  lemma FlagsAreKept(s: State, a: Action)
    requires FlagsKept(s.sink, s.f, s.pcs) && Enabled(s, a)
    requires a.TestFlag? ==> forall t: Thread :: !PcOf(s.pcs, t).Sending?
    requires a.CloseChannel? ==> forall t: Thread :: PcOf(s.pcs, t).CloseMarked? ==> t == a.t
    ensures FlagsKept(Do(s, a).sink, Do(s, a).f, Do(s, a).pcs)
  {
    var s' := Do(s, a);
    forall t: Thread ensures PositionFits(PcOf(s'.pcs, t), s'.sink) {
      assert PositionFits(PcOf(s.pcs, t), s.sink);
    }
    if a.CloseChannel? || a.TrySend? || a.WaitDone? {
      assert PositionFits(PcOf(s.pcs, a.t), s.sink);
    }
  }

  lemma OrderIsKept(s: State, a: Action)
    requires InOrder(s.sink, s.h) && Enabled(s, a)
    requires a.TrySend? ==> !s.sink.sealed
    ensures InOrder(Do(s, a).sink, Do(s, a).h)
  {
    if a.WorkerReceive? {
      assert s.sink.queue == [s.sink.queue[0]] + s.sink.queue[1..];
    }
  }

  lemma CountsAreKept(s: State, a: Action)
    requires Counted(s.h) && OpenFits(s.h.open, s.pcs) && Enabled(s, a)
    requires a.TrySend? ==> !s.sink.sealed
    ensures Counted(Do(s, a).h)
  {
    if a.TrySend? || a.WriteDirect? || a.CallHandle? {
      assert a.t in s.h.open <==> HasRecord(PcOf(s.pcs, a.t));
    }
  }

  lemma OpenIsKept(s: State, a: Action)
    requires OpenFits(s.h.open, s.pcs) && Enabled(s, a)
    ensures OpenFits(Do(s, a).h.open, Do(s, a).pcs)
  {
  }

  lemma {:induction false} RunsKeepInv(cap: nat, actions: seq<Action>)
    ensures Inv(Run(cap, actions)) && Run(cap, actions).sink.cap == cap
  {
    if actions != [] {
      var (before, a) := (actions[..|actions| - 1], actions[|actions| - 1]);
      RunsKeepInv(cap, before);
      var s := Run(cap, before);
      if Enabled(s, a) {
        LocksAreKept(s, a);
        // a thread about to send holds the read lock, so none is there while the flag is set
        assert forall t: Thread :: HoldsRead(PcOf(s.pcs, t)) <==> t in s.mu.readers;
        assert forall t: Thread :: HoldsWrite(PcOf(s.pcs, t)) <==> s.mu.writer == Some(t);
        assert a.TestFlag? || a.CloseChannel? ==> HoldsWrite(PcOf(s.pcs, a.t));
        FlagsAreKept(s, a);
        assert a.TrySend? ==> PositionFits(PcOf(s.pcs, a.t), s.sink);
        OrderIsKept(s, a);
        CountsAreKept(s, a);
        OpenIsKept(s, a);
      }
    }
  }

  // ---------- what every interleaving guarantees ----------

  /** No send ever reaches the closed channel and the channel is closed at most once, in every interleaving
      of any number of Handle calls, Close calls and the worker. */
  lemma NeverPanics(cap: nat, actions: seq<Action>)
    ensures var s := Run(cap, actions); !s.f.panicked && s.f.seals <= 1 && |s.sink.queue| <= cap
    ensures var s := Run(cap, actions);
            forall t: Thread | PcOf(s.pcs, t).Sending? || PcOf(s.pcs, t).CloseMarked? :: !s.sink.sealed
  {
    RunsKeepInv(cap, actions);
  }

  /** Records come out in the order they went in, none twice and none lost: enqueued = handled ++ in hand ++
      queued. And calls = undecided + handled + in hand + queued + dropped + direct. */
  lemma NothingIsLost(cap: nat, actions: seq<Action>)
    ensures var (k, h) := (Run(cap, actions).sink, Run(cap, actions).h);
            && h.enqueued == h.handled + InHand(k.worker) + k.queue
            && h.calls == |h.open| + |h.handled| + |InHand(k.worker)| + |k.queue| + h.dropped + h.direct
  {
    RunsKeepInv(cap, actions);
  }

  /** Once the Close that closed the channel has returned, every record ever enqueued has been handled. */
  lemma CloseFlushes(cap: nat, actions: seq<Action>)
    requires Run(cap, actions).f.flushed
    ensures var s := Run(cap, actions); s.h.handled == s.h.enqueued && s.sink.queue == []
  {
    RunsKeepInv(cap, actions);
    var h := Run(cap, actions).h;
    assert h.handled + [] + [] == h.handled;
  }

  /** A record is dropped only while the sink is open, its buffer full and the worker not waiting for it. */
  lemma DropsOnlyWhenFull(cap: nat, actions: seq<Action>, a: Action)
    requires Step(Run(cap, actions), a).h.dropped != Run(cap, actions).h.dropped
    ensures var k := Run(cap, actions).sink; |k.queue| == cap && !HasRoom(k) && !k.closed
  {
    RunsKeepInv(cap, actions);
    assert PositionFits(PcOf(Run(cap, actions).pcs, a.t), Run(cap, actions).sink);
  }

  // ---------- what a Close promises when it returns ----------

  /** Between setting the flag and closing the channel some thread is at exactly that point. */
  ghost predicate MarkHasOwner(k: Sink, pcs: map<Thread, Pc>) {
    k.closed && !k.sealed ==> exists t: Thread :: PcOf(pcs, t).CloseMarked?
  }

  lemma {:induction false} MarkKeepsOwner(cap: nat, actions: seq<Action>)
    ensures MarkHasOwner(Run(cap, actions).sink, Run(cap, actions).pcs)
  {
    if actions != [] {
      var (before, a) := (actions[..|actions| - 1], actions[|actions| - 1]);
      MarkKeepsOwner(cap, before);
      var (s, s') := (Run(cap, before), Run(cap, actions));
      if s.sink.closed && !s.sink.sealed {
        var t: Thread :| PcOf(s.pcs, t).CloseMarked?;
        assert PcOf(s'.pcs, t).CloseMarked? || s'.sink.sealed;
      } else if s'.sink.closed && !s'.sink.sealed {
        assert PcOf(s'.pcs, a.t).CloseMarked?;
      }
    }
  }

  /** A Close that finds the flag set returns at once; the channel is closed by then, but what was enqueued has all
      been handled if and only if the queue happens to be empty and the worker idle. */
  lemma RefusedClosePromisesNothing(cap: nat, actions: seq<Action>, t: Thread)
    requires PcOf(Run(cap, actions).pcs, t).CloseTesting? && Run(cap, actions).sink.closed
    ensures var (s, s') := (Run(cap, actions), Step(Step(Run(cap, actions), TestFlag(t)), Unlock(t)));
            && PcOf(s'.pcs, t) == Idle && s'.sink.sealed && s'.sink == s.sink && s'.h == s.h
            && (s'.h.handled == s'.h.enqueued <==> s.sink.queue == [] && !s.sink.worker.Busy?)
  {
    RunsKeepInv(cap, actions);
    MarkKeepsOwner(cap, actions);
    var s := Run(cap, actions);
    assert HoldsWrite(PcOf(s.pcs, t));
    assert forall u: Thread | PcOf(s.pcs, u).CloseMarked? :: HoldsWrite(PcOf(s.pcs, u)) && u == t;
    PrefixIsAll(s.h.handled, InHand(s.sink.worker), s.sink.queue);
  }

  lemma PrefixIsAll(a: seq<Record>, b: seq<Record>, c: seq<Record>)
    ensures a == a + b + c <==> b == [] && c == []
  {
    assert |a + b + c| == |a| + |b| + |c|;
    assert a + [] + [] == a;
  }

  /** The step with which a call of Close returns. */
  predicate Returns(s: State, a: Action) {
    Enabled(s, a) && (a.WaitDone? || (a.Unlock? && PcOf(s.pcs, a.t).CloseRefused?))
  }

  predicate InClose(p: Pc) {
    p.Closing? || p.CloseTesting? || p.CloseRefused? || p.CloseMarked? || p.CloseSealed? || p.Waiting?
  }

  /** No other step ends a call of Close, and that step ends it. */
  lemma CloseEndsSo(s: State, a: Action, t: Thread)
    requires Enabled(s, a) && InClose(PcOf(s.pcs, t)) && PcOf(Do(s, a).pcs, t) != PcOf(s.pcs, t)
    ensures PcOf(Do(s, a).pcs, t).Idle? <==> Returns(s, a)
  {
  }

  /** In every interleaving, a Close returns with everything flushed exactly when it is the one that closed the
      channel, or the worker had already caught up. */
  lemma CloseReturnsFlushed(cap: nat, actions: seq<Action>, a: Action)
    requires Returns(Run(cap, actions), a)
    ensures var (s, s') := (Run(cap, actions), Step(Run(cap, actions), a));
            && PcOf(s'.pcs, a.t).Idle?
            && (s'.h.handled == s'.h.enqueued <==> a.WaitDone? || (s.sink.queue == [] && !s.sink.worker.Busy?))
  {
    RunsKeepInv(cap, actions);
    var s := Run(cap, actions);
    PrefixIsAll(s.h.handled, InHand(s.sink.worker), s.sink.queue);
  }

  // ---------- a second Close promises nothing ----------

  lemma Extend(cap: nat, actions: seq<Action>, a: Action)
    ensures Run(cap, actions + [a]) == Step(Run(cap, actions), a)
  {
    assert (actions + [a])[..|actions|] == actions;
  }

  /** A thread logs r into the empty sink and returns. */
  lemma LogOnce(r: Record) returns (actions: seq<Action>)
    ensures Run(1, actions) == State(Sink(1, [], false, false, Busy(r)), RWMutex({}, None), map[0 := Idle],
                                     History(1, {}, [r], [], 0, 0), Faults(0, false, false))
  {
    Extend(1, [], CallHandle(0, r));
    Extend(1, [CallHandle(0, r)], RLock(0));
    Extend(1, [CallHandle(0, r)] + [RLock(0)], TestClosed(0));
    actions := [CallHandle(0, r)] + [RLock(0)] + [TestClosed(0)];
    assert Run(1, actions) == State(Sink(1, [], false, false, Receiving), RWMutex({0}, None),
      map[0 := Sending(r)], History(1, {0}, [], [], 0, 0), Faults(0, false, false));
    Extend(1, actions, TrySend(0));
    Extend(1, actions + [TrySend(0)], RUnlock(0));
    actions := actions + [TrySend(0)] + [RUnlock(0)];
  }

  /** Only the Close that closed the channel promises a flush: a second, concurrent Close can return while
      an enqueued record is still unwritten. */
  lemma SecondCloseMayReturnEarly(r: Record) returns (actions: seq<Action>)
    ensures PcOf(Run(1, actions).pcs, 2) == Closing
    ensures var s := Run(1, actions + [Lock(2)] + [TestFlag(2)] + [Unlock(2)]);
            s.sink.sealed && PcOf(s.pcs, 2) == Idle && s.h.enqueued == [r] && s.h.handled == []
  {
    hide Run;
    var h := History(1, {}, [r], [], 0, 0);
    actions := LogOnce(r);
    Extend(1, actions, CallClose(1));
    actions := actions + [CallClose(1)];
    Extend(1, actions, Lock(1));
    actions := actions + [Lock(1)];
    assert Run(1, actions) == State(Sink(1, [], false, false, Busy(r)), RWMutex({}, Some(1)),
      map[0 := Idle, 1 := CloseTesting], h, Faults(0, false, false));
    actions := FirstCloseWaits(actions, r);
    Extend(1, actions, CallClose(2));
    actions := actions + [CallClose(2)];
    assert Run(1, actions) == State(Sink(1, [], true, true, Busy(r)), RWMutex({}, None),
      map[0 := Idle, 1 := Waiting, 2 := Closing], h, Faults(1, false, false));
    SecondCloseReturns(actions, r);
  }

  /** The Close of thread 1 closes the channel and waits. */
  lemma FirstCloseWaits(before: seq<Action>, r: Record) returns (actions: seq<Action>)
    requires Run(1, before) == State(Sink(1, [], false, false, Busy(r)), RWMutex({}, Some(1)),
      map[0 := Idle, 1 := CloseTesting], History(1, {}, [r], [], 0, 0), Faults(0, false, false))
    ensures Run(1, actions) == State(Sink(1, [], true, true, Busy(r)), RWMutex({}, None),
      map[0 := Idle, 1 := Waiting], History(1, {}, [r], [], 0, 0), Faults(1, false, false))
  {
    hide Run;
    Extend(1, before, TestFlag(1));
    actions := before + [TestFlag(1)];
    Extend(1, actions, CloseChannel(1));
    actions := actions + [CloseChannel(1)];
    assert Run(1, actions) == State(Sink(1, [], true, true, Busy(r)), RWMutex({}, Some(1)),
      map[0 := Idle, 1 := CloseSealed], History(1, {}, [r], [], 0, 0), Faults(1, false, false));
    Extend(1, actions, Unlock(1));
    actions := actions + [Unlock(1)];
  }

  lemma SecondCloseReturns(before: seq<Action>, r: Record)
    requires Run(1, before) == State(Sink(1, [], true, true, Busy(r)), RWMutex({}, None),
      map[0 := Idle, 1 := Waiting, 2 := Closing], History(1, {}, [r], [], 0, 0), Faults(1, false, false))
    ensures var s := Run(1, before + [Lock(2)] + [TestFlag(2)] + [Unlock(2)]);
            s.sink.sealed && PcOf(s.pcs, 2) == Idle && s.h.enqueued == [r] && s.h.handled == []
  {
    hide Run;
    Extend(1, before, Lock(2));
    Extend(1, before + [Lock(2)], TestFlag(2));
    Extend(1, before + [Lock(2)] + [TestFlag(2)], Unlock(2));
  }

  // ---------- the code of the critical sections ----------

  /** The fields the code shares, and the three pieces of code that run while they are locked or owned: the
      body of Handle under the read lock, the body of Close under the write lock, one round of the worker. */
  class AsyncSink {
    const cap: nat
    var queue: seq<Record>
    var sealed: bool
    var closed: bool
    var worker: Worker
    var dropped: nat

    function View(): Sink
      reads this
    {
      Sink(cap, queue, sealed, closed, worker)
    }

    constructor (bufSize: nat)
      ensures View() == Init(bufSize).sink && dropped == 0
    {
      cap, queue, sealed, closed, worker, dropped := bufSize, [], false, false, Receiving, 0;
    }

    /** From RLock to RUnlock. Tied to the step system: the two steps TestClosed, TrySend. */
    method HandleLocked(r: Record, ghost s: State, ghost t: Thread) returns (direct: bool)
      requires Inv(s) && s.sink == View() && s.h.dropped == dropped && PcOf(s.pcs, t) == Testing(r)
      modifies this
      ensures var s' := Step(Step(s, TestClosed(t)), TrySend(t));
              View() == s'.sink && dropped == s'.h.dropped && direct == PcOf(s'.pcs, t).Falling?
    {
      assert PositionFits(PcOf(s.pcs, t), s.sink);
      if closed {
        return true;
      }
      if queue == [] && worker.Receiving? {
        worker := Busy(r);
      } else if |queue| < cap {
        queue := queue + [r];
      } else {
        dropped := dropped + 1;
      }
      direct := false;
    }

    /** From Lock to Unlock. Tied to the step system: the two steps TestFlag, CloseChannel. */
    method CloseLocked(ghost s: State, ghost t: Thread) returns (waits: bool)
      requires Inv(s) && s.sink == View() && PcOf(s.pcs, t) == CloseTesting
      modifies `closed, `sealed
      ensures var s' := Step(Step(s, TestFlag(t)), CloseChannel(t));
              View() == s'.sink && waits == PcOf(s'.pcs, t).CloseSealed?
    {
      if closed {
        return false;
      }
      closed := true;
      sealed := true;
      waits := true;
    }

    /** One round of the worker's range loop: receive, hand to the inner handler; or leave the loop. */
    method WorkerRound(ghost s: State) returns (written: Option<Record>)
      requires s.sink == View() && worker.Receiving? && (queue != [] || sealed)
      modifies `queue, `worker
      ensures var s' := Step(Step(s, WorkerReceive), WorkerHandle);
              written.Some? ==> View() == s'.sink && s'.h.handled == s.h.handled + [written.value]
      ensures written.None? ==> View() == Step(s, WorkerExit).sink && worker.Exited?
    {
      if queue == [] {
        worker := Exited;
        return None;
      }
      written := Some(queue[0]);
      queue := queue[1..];
    }
  }
}
