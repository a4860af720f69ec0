/**
 * The condition-variable queue of internal/util/blocking_queue.go.
 *
 * Every stretch of code that runs with the mutex held is one atomic section: from `Lock` (or from the return of
 * `Wait`) to the next `Wait` or to the end of the method. `Put` and `Get` therefore are one section each, run once by
 * a fresh caller and once more each time the caller is woken. A thread is idle, parked in `Wait`, or woken and not
 * yet running again.
 */
module Monitor {
  import opened Basics

  type Tid = nat

  /** A `sync.Cond`: the threads parked in `Wait`, and those that were woken and have not re-taken the mutex yet. */
  datatype Cond = Cond(parked: set<Tid>, woken: set<Tid>) {
    function Wait(t: Tid): Cond { Cond(parked + {t}, woken) }

    /** `Signal` wakes one parked thread, `w`, if there is any. */
    function Signal(w: Tid): Cond {
      if w in parked then Cond(parked - {w}, woken + {w}) else this
    }

    function Broadcast(): Cond { Cond({}, woken + parked) }

    /** The thread runs again with the mutex held. */
    function Resume(t: Tid): Cond { Cond(parked, woken - {t}) }

    /** `w` is a possible beneficiary of a `Signal`. */
    predicate Wakes(w: Tid) { parked != {} ==> w in parked }

    predicate Involves(t: Tid) { t in parked || t in woken }
  }

  datatype Queue<T> = Queue(maxSize: int, closed: bool, elems: seq<T>, full: Cond, empty: Cond) {
    predicate IsFull() { maxSize > 0 && |elems| >= maxSize }

    predicate Idle(t: Tid) { !full.Involves(t) && !empty.Involves(t) }
  }

  function NewQueue<T>(maxSize: int): Queue<T> {
    Queue(maxSize, false, [], Cond({}, {}), Cond({}, {}))
  }

  datatype PutResult = PutParked | Accepted | Rejected
  datatype GetResult<T> = GetParked | Returned(item: Option<T>)

  /** One section of `Put`; `w` is the consumer that `Signal` picks. */
  function PutSection<T>(q: Queue<T>, t: Tid, el: T, w: Tid): (Queue<T>, PutResult) {
    var q0 := q.(full := q.full.Resume(t));
    if !q0.closed && q0.IsFull() then (q0.(full := q0.full.Wait(t)), PutParked)
    else if q0.closed then (q0, Rejected)
    else (q0.(elems := q0.elems + [el], empty := q0.empty.Signal(w)), Accepted)
  }

  /** One section of `Get`; `w` is the producer that `Signal` picks. */
  function GetSection<T>(q: Queue<T>, t: Tid, w: Tid): (Queue<T>, GetResult<T>) {
    var q0 := q.(empty := q.empty.Resume(t));
    if !q0.closed && |q0.elems| == 0 then (q0.(empty := q0.empty.Wait(t)), GetParked)
    else if |q0.elems| != 0 then
      (q0.(elems := q0.elems[1..], full := q0.full.Signal(w)), Returned(Some(q0.elems[0])))
    else (q0, Returned(None))
  }

  /** `Close`: only the waiters on `empty` are woken. */
  function CloseSection<T>(q: Queue<T>, clear: bool): Queue<T> {
    q.(closed := true, elems := if clear then [] else q.elems, empty := q.empty.Broadcast())
  }

  // ----- the invariant of the monitor -----

  ghost predicate WaitSetsApart<T>(q: Queue<T>) {
    && (forall t :: t in q.full.parked ==> t !in q.full.woken && !q.empty.Involves(t))
    && (forall t :: t in q.full.woken ==> !q.empty.Involves(t))
    && (forall t :: t in q.empty.parked ==> t !in q.empty.woken)
  }

  /** No lost wakeup: a parked consumer means an open queue with a woken consumer on its way for every element. */
  ghost predicate ConsumersServed<T>(q: Queue<T>) {
    q.empty.parked != {} ==> !q.closed && |q.empty.woken| >= |q.elems|
  }

  /** The same for producers and free slots; `Close` does not wake producers, so only while the queue is open. */
  ghost predicate ProducersServed<T>(q: Queue<T>) {
    q.full.parked != {} && !q.closed ==> |q.full.woken| >= q.maxSize - |q.elems|
  }

  ghost predicate Bounded<T>(q: Queue<T>) {
    && (q.maxSize > 0 ==> |q.elems| <= q.maxSize)
    && (q.maxSize <= 0 ==> q.full == Cond({}, {}))
  }

  ghost predicate MonitorInv<T>(q: Queue<T>) {
    WaitSetsApart(q) && ConsumersServed(q) && ProducersServed(q) && Bounded(q)
  }

  /** A thread may run a section of `Put`: it is a fresh caller, or it was woken from `full`. */
  predicate MayPut<T>(q: Queue<T>, t: Tid) { q.Idle(t) || t in q.full.woken }

  predicate MayGet<T>(q: Queue<T>, t: Tid) { q.Idle(t) || t in q.empty.woken }

  lemma SignalCounts(c: Cond, w: Tid)
    requires c.Wakes(w) && w !in c.woken
    ensures c.parked == {} ==> c.Signal(w) == c
    ensures c.parked != {} ==>
              && |c.Signal(w).woken| == |c.woken| + 1
              && |c.Signal(w).parked| == |c.parked| - 1
  {
  }

  lemma ResumeCounts(c: Cond, t: Tid)
    ensures |c.Resume(t).woken| == if t in c.woken then |c.woken| - 1 else |c.woken|
  {
    if t !in c.woken { assert c.woken - {t} == c.woken; }
  }

  lemma PutKeepsApart<T>(q: Queue<T>, t: Tid, el: T, w: Tid)
    requires WaitSetsApart(q) && MayPut(q, t) && q.empty.Wakes(w)
    ensures WaitSetsApart(PutSection(q, t, el, w).0)
  {
  }

  lemma PutKeepsMonitor<T>(q: Queue<T>, t: Tid, el: T, w: Tid)
    requires MonitorInv(q) && MayPut(q, t) && q.empty.Wakes(w)
    ensures MonitorInv(PutSection(q, t, el, w).0)
  {
    PutKeepsApart(q, t, el, w);
    var (q', r) := PutSection(q, t, el, w);
    ResumeCounts(q.full, t);
    if r.Accepted? && q.empty.parked != {} {
      SignalCounts(q.empty, w);
    }
  }

  lemma GetKeepsApart<T>(q: Queue<T>, t: Tid, w: Tid)
    requires WaitSetsApart(q) && MayGet(q, t) && q.full.Wakes(w)
    ensures WaitSetsApart(GetSection(q, t, w).0)
  {
  }

  lemma GetKeepsMonitor<T>(q: Queue<T>, t: Tid, w: Tid)
    requires MonitorInv(q) && MayGet(q, t) && q.full.Wakes(w)
    ensures MonitorInv(GetSection(q, t, w).0)
  {
    GetKeepsApart(q, t, w);
    ResumeCounts(q.empty, t);
    if q.elems != [] && q.full.parked != {} {
      SignalCounts(q.full, w);
    }
  }

  lemma CloseKeepsMonitor<T>(q: Queue<T>, clear: bool)
    requires MonitorInv(q)
    ensures MonitorInv(CloseSection(q, clear))
  {
  }

  /**
   * When nobody is on its way, everybody who is parked has a reason to be: consumers only on an open empty queue,
   * producers only on a full one (or on a closed one).
   */
  lemma QuiescentWaitersAreJustified<T>(q: Queue<T>)
    requires MonitorInv(q) && q.empty.woken == {} && q.full.woken == {}
    ensures q.empty.parked != {} ==> !q.closed && q.elems == []
    ensures q.full.parked != {} && !q.closed ==> q.IsFull()
    ensures q.empty.parked == {} || q.full.parked == {} || q.closed
  {
  }
}

/** Runs of the queue with any number of producers and consumers, and what callers observe along them. */
module QueueRuns {
  import opened Basics
  import opened Monitor

  /**
   * The queue, the element every parked or woken producer carries, and three history variables: the elements whose
   * `Put` returned true, the results of finished `Get` calls, and the elements dropped by `Close(true)`.
   */
  datatype World<T> = World(q: Queue<T>, carried: map<Tid, T>,
                            accepted: seq<T>, results: seq<Option<T>>, cleared: seq<T>)

  datatype Event<T> =
    | CallPut(t: Tid, el: T, w: Tid)
    | ResumePut(t: Tid, w: Tid)
    | RunGet(t: Tid, w: Tid)
    | CallClose(clear: bool)

  predicate Enabled<T>(s: World<T>, e: Event<T>) {
    match e
    case CallPut(t, _, w) => s.q.Idle(t) && s.q.empty.Wakes(w)
    case ResumePut(t, w) => t in s.q.full.woken && t in s.carried && s.q.empty.Wakes(w)
    case RunGet(t, w) => MayGet(s.q, t) && s.q.full.Wakes(w)
    case CallClose(_) => true
  }

  function AfterPut<T>(s: World<T>, t: Tid, el: T, w: Tid): World<T> {
    var (q', r) := PutSection(s.q, t, el, w);
    s.(q := q',
       carried := if r.PutParked? then s.carried[t := el] else s.carried - {t},
       accepted := if r.Accepted? then s.accepted + [el] else s.accepted)
  }

  function Apply<T>(s: World<T>, e: Event<T>): World<T>
    requires Enabled(s, e)
  {
    match e
    case CallPut(t, el, w) => AfterPut(s, t, el, w)
    case ResumePut(t, w) => AfterPut(s, t, s.carried[t], w)
    case RunGet(t, w) =>
      var (q', r) := GetSection(s.q, t, w);
      s.(q := q', results := if r.Returned? then s.results + [r.item] else s.results)
    case CallClose(clear) =>
      s.(q := CloseSection(s.q, clear), cleared := if clear then s.q.elems + s.cleared else s.cleared)
  }

  ghost predicate Executes<T>(s: World<T>, es: seq<Event<T>>, s': World<T>)
    decreases |es|
  {
    if es == [] then s' == s else Enabled(s, es[0]) && Executes(Apply(s, es[0]), es[1..], s')
  }

  function Start<T>(maxSize: int): World<T> { World(NewQueue(maxSize), map[], [], [], []) }

  // ----- FIFO: the queue seen by its callers -----

  /** How many `Get` calls returned an element. */
  function Delivered<T>(s: World<T>): int { |s.accepted| - |s.q.elems| - |s.cleared| }

  /**
   * Accepted elements are, in order, those handed out, those queued, and those cleared; the calls that returned an
   * element all came before those that returned None, and handed out a prefix of what was accepted.
   */
  ghost predicate Fifo<T>(s: World<T>) {
    var n := Delivered(s);
    && 0 <= n <= |s.results|
    && s.accepted[n..] == s.q.elems + s.cleared
    && (forall i :: 0 <= i < n ==> s.results[i] == Some(s.accepted[i]))
    && (forall i :: n <= i < |s.results| ==> s.results[i] == None)
    && (s.cleared != [] ==> s.q.closed)
    && (n < |s.results| ==> s.q.closed && s.q.elems == [])
  }

  /** Exactly the producers waiting on `full` carry an element. */
  ghost predicate CarriedByWaiters<T>(s: World<T>) {
    forall t :: t in s.carried <==> s.q.full.Involves(t)
  }

  ghost predicate WorldInv<T>(s: World<T>) {
    MonitorInv(s.q) && Fifo(s) && CarriedByWaiters(s)
  }

  lemma PutKeepsFifo<T>(s: World<T>, t: Tid, el: T, w: Tid)
    requires Fifo(s)
    ensures Fifo(AfterPut(s, t, el, w))
  {
    var s' := AfterPut(s, t, el, w);
    var n := Delivered(s);
    if s'.accepted != s.accepted {
      assert s.cleared == [];
      assert s'.accepted[n..] == s.accepted[n..] + [el];
    }
  }

  lemma GetKeepsFifo<T>(s: World<T>, t: Tid, w: Tid)
    requires Fifo(s) && Enabled(s, RunGet(t, w))
    ensures Fifo(Apply(s, RunGet(t, w)))
  {
    var s' := Apply(s, RunGet(t, w));
    var n := Delivered(s);
    if s.q.elems != [] {
      assert s.accepted[n] == s.accepted[n..][0] == s.q.elems[0];
      assert s'.accepted[n + 1..] == s.accepted[n..][1..];
      assert (s.q.elems + s.cleared)[1..] == s.q.elems[1..] + s.cleared;
    }
  }

  lemma StepKeepsFifo<T>(s: World<T>, e: Event<T>)
    requires Fifo(s) && Enabled(s, e)
    ensures Fifo(Apply(s, e))
  {
    match e {
      case CallPut(t, el, w) => PutKeepsFifo(s, t, el, w);
      case ResumePut(t, w) => PutKeepsFifo(s, t, s.carried[t], w);
      case RunGet(t, w) => GetKeepsFifo(s, t, w);
      case CallClose(clear) =>
    }
  }

  lemma StepKeepsMonitor<T>(s: World<T>, e: Event<T>)
    requires MonitorInv(s.q) && Enabled(s, e)
    ensures MonitorInv(Apply(s, e).q)
  {
    match e {
      case CallPut(t, el, w) => PutKeepsMonitor(s.q, t, el, w);
      case ResumePut(t, w) => PutKeepsMonitor(s.q, t, s.carried[t], w);
      case RunGet(t, w) => GetKeepsMonitor(s.q, t, w);
      case CallClose(clear) => CloseKeepsMonitor(s.q, clear);
    }
  }

  lemma StepKeepsCarried<T>(s: World<T>, e: Event<T>)
    requires CarriedByWaiters(s) && WaitSetsApart(s.q) && Enabled(s, e)
    ensures CarriedByWaiters(Apply(s, e))
  {
  }

  lemma StepKeepsWorld<T>(s: World<T>, e: Event<T>)
    requires WorldInv(s) && Enabled(s, e)
    ensures WorldInv(Apply(s, e))
  {
    StepKeepsMonitor(s, e);
    StepKeepsFifo(s, e);
    StepKeepsCarried(s, e);
  }

  lemma {:induction false} RunKeepsWorld<T>(s: World<T>, es: seq<Event<T>>, s': World<T>)
    requires WorldInv(s) && Executes(s, es, s')
    ensures WorldInv(s')
    decreases |es|
  {
    if es != [] {
      StepKeepsWorld(s, es[0]);
      RunKeepsWorld(Apply(s, es[0]), es[1..], s');
    }
  }

  /** In every reachable state, for any number of producers and consumers, no wakeup has been lost. */
  lemma NoLostWakeup<T>(maxSize: int, es: seq<Event<T>>, s: World<T>)
    requires Executes(Start(maxSize), es, s)
    ensures s.q.empty.parked != {} ==> !s.q.closed && |s.q.empty.woken| >= |s.q.elems|
    ensures s.q.full.parked != {} && !s.q.closed ==> |s.q.full.woken| >= s.q.maxSize - |s.q.elems|
  {
    RunKeepsWorld(Start(maxSize), es, s);
  }

  lemma NothingCleared<T>(s: World<T>)
    requires Fifo(s) && s.cleared == []
    ensures s.accepted == s.accepted[..Delivered(s)] + s.q.elems
  {
    assert s.q.elems + s.cleared == s.q.elems;
  }

  /** Every history of accepted puts and finished gets is that of a FIFO buffer within its bound. */
  lemma RefinesFifo<T>(maxSize: int, es: seq<Event<T>>, s: World<T>)
    requires Executes(Start(maxSize), es, s)
    ensures Fifo(s)
    ensures s.cleared == [] ==> s.accepted == s.accepted[..Delivered(s)] + s.q.elems
    ensures maxSize > 0 ==> |s.q.elems| <= maxSize
  {
    RunKeepsWorld(Start(maxSize), es, s);
    SizeIsFixed(Start(maxSize), es, s);
    if s.cleared == [] { NothingCleared(s); }
  }

  lemma {:induction false} SizeIsFixed<T>(s: World<T>, es: seq<Event<T>>, s': World<T>)
    requires Executes(s, es, s')
    ensures s'.q.maxSize == s.q.maxSize
    decreases |es|
  {
    if es != [] { SizeIsFixed(Apply(s, es[0]), es[1..], s'); }
  }

  /** A `Get` that answers None means the queue is closed and empty, and it stays that way. */
  lemma {:induction false} NoneIsFinal<T>(s: World<T>, es: seq<Event<T>>, s': World<T>)
    requires WorldInv(s) && Executes(s, es, s') && None in s.results
    ensures s'.q.closed && s'.q.elems == [] && s'.accepted == s.accepted
    decreases |es|
  {
    if es != [] {
      StepKeepsWorld(s, es[0]);
      NoneIsFinal(Apply(s, es[0]), es[1..], s');
    }
  }

  // ----- Close and the producers parked on a full queue -----

  lemma ClosedStep<T>(s: World<T>, e: Event<T>)
    requires WorldInv(s) && s.q.closed && Enabled(s, e)
    ensures var s', taken := Apply(s, e), Delivered(Apply(s, e)) - Delivered(s);
            && s'.q.closed && 0 <= taken <= 1 && s'.q.full.parked <= s.q.full.parked
            && |s'.q.full.parked| == if s.q.full.parked == {} then 0 else |s.q.full.parked| - taken
  {
    if e.RunGet? && s.q.full.parked != {} && s.q.elems != [] { SignalCounts(s.q.full, e.w); }
  }

  /**
   * Once the queue is closed, a parked producer is woken only by a `Get` that takes an element, one producer an
   * element: whoever exceeds the number of elements still taken is never woken, not even by another `Close`.
   */
  lemma {:induction false} ClosedQueueWakesOneProducerPerElement<T>(s: World<T>, es: seq<Event<T>>, s': World<T>)
    requires WorldInv(s) && s.q.closed && Executes(s, es, s')
    ensures s'.q.closed && s'.q.full.parked <= s.q.full.parked
    ensures var taken := Delivered(s') - Delivered(s);
            && 0 <= taken
            && |s'.q.full.parked| == if taken <= |s.q.full.parked| then |s.q.full.parked| - taken else 0
    decreases |es|
  {
    if es != [] {
      StepKeepsWorld(s, es[0]);
      ClosedStep(s, es[0]);
      ClosedQueueWakesOneProducerPerElement(Apply(s, es[0]), es[1..], s');
    }
  }

  /**
   * The exact condition under which closing strands nobody: every producer has been released if and only if at most
   * as many were parked as elements were taken since. After a clearing `Close` that is none.
   */
  lemma DrainingReleasesEveryProducerIff<T>(s: World<T>, clear: bool, es: seq<Event<T>>, s': World<T>)
    requires WorldInv(s) && Executes(Apply(s, CallClose(clear)), es, s')
    ensures s'.q.full.parked == {} <==> |s.q.full.parked| <= Delivered(s') - Delivered(s)
    ensures Delivered(s') - Delivered(s) <= if clear then 0 else |s.q.elems|
  {
    StepKeepsWorld(s, CallClose(clear));
    var m := Apply(s, CallClose(clear));
    ClosedQueueWakesOneProducerPerElement(m, es, s');
    ClosedAcceptsNothing(m, es, s');
    RunKeepsWorld(m, es, s');
  }

  lemma {:induction false} ClosedAcceptsNothing<T>(s: World<T>, es: seq<Event<T>>, s': World<T>)
    requires s.q.closed && Executes(s, es, s')
    ensures s'.accepted == s.accepted && |s'.q.elems| + |s'.cleared| <= |s.q.elems| + |s.cleared|
    ensures |s'.cleared| >= |s.cleared|
    decreases |es|
  {
    if es != [] { ClosedAcceptsNothing(Apply(s, es[0]), es[1..], s'); }
  }

  /** On a closed queue with nothing left no event, not even another `Close`, wakes a producer. */
  lemma {:induction false} ClearedQueueNeverWakesProducers<T>(s: World<T>, es: seq<Event<T>>, s': World<T>)
    requires WorldInv(s) && s.q.closed && s.q.elems == [] && Executes(s, es, s')
    ensures s'.q.full.parked == s.q.full.parked
    decreases |es|
  {
    if es != [] {
      StepKeepsWorld(s, es[0]);
      ClearedQueueNeverWakesProducers(Apply(s, es[0]), es[1..], s');
    }
  }

  /** One slot, taken by element 7, and thread 1 parked in `Put(8)`. */
  function Crowded(): World<int> {
    World(Queue(1, false, [7], Cond({1}, {}), Cond({}, {})), map[1 := 8], [7], [], [])
  }

  lemma CrowdedIsReachable()
    ensures Executes(Start(1), [CallPut(0, 7, 0), CallPut(1, 8, 0)], Crowded())
  {
    var es := [CallPut(0, 7, 0), CallPut(1, 8, 0)];
    var s := Apply(Start<int>(1), es[0]);
    assert s.carried == map[] && Apply(s, es[1]) == Crowded();
    assert es[1..] == [es[1]] && Executes(s, [es[1]], Crowded());
  }

  /** A clearing `Close` then leaves thread 1 parked for ever, whatever happens next. */
  lemma CloseCanStrandAProducer(es: seq<Event<int>>, s: World<int>)
    requires Executes(Apply(Crowded(), CallClose(true)), es, s)
    ensures 1 in s.q.full.parked
  {
    assert WorldInv(Crowded());
    StepKeepsWorld(Crowded(), CallClose(true));
    ClearedQueueNeverWakesProducers(Apply(Crowded(), CallClose(true)), es, s);
  }
}

/** The queue as the mutable object of the source; each method is one section run with the mutex held. */
module QueueObject {
  import opened Basics
  import opened Monitor

  class BlockingQueue<T> {
    const maxSize: int
    var closed: bool
    var elems: seq<T>
    var full: Cond
    var empty: Cond

    ghost function Value(): Queue<T>
      reads this
    {
      Queue(maxSize, closed, elems, full, empty)
    }

    constructor Bounded(maxSize: int)
      ensures Value() == NewQueue(maxSize)
    {
      this.maxSize := maxSize;
      closed, elems := false, [];
      full, empty := Cond({}, {}), Cond({}, {});
    }

    constructor Unbounded()
      ensures Value() == NewQueue(-1)
    {
      maxSize := -1;
      closed, elems := false, [];
      full, empty := Cond({}, {}), Cond({}, {});
    }

    predicate IsFull()
      reads this
    {
      maxSize > 0 && |elems| >= maxSize
    }

    method Put(t: Tid, el: T) returns (r: PutResult, ghost w: Tid)
      requires MonitorInv(Value()) && MayPut(Value(), t)
      modifies this
      ensures old(Value()).empty.Wakes(w) && (Value(), r) == PutSection(old(Value()), t, el, w)
      ensures MonitorInv(Value())
      ensures r.PutParked? <==> !old(closed) && old(IsFull())
      ensures r.Accepted? <==> !old(closed) && !old(IsFull())
      ensures elems == if r.Accepted? then old(elems) + [el] else old(elems)
      ensures t in full.parked <==> r.PutParked?
    {
      ghost var q := Value();
      var lucky := 0;  // the consumer a `Signal` would pick
      if empty.parked != {} { lucky :| lucky in empty.parked; }
      w := lucky;
      full := full.Resume(t);
      if !closed && IsFull() {
        full := full.Wait(t);
        r := PutParked;
      } else if closed {
        r := Rejected;
      } else {
        elems := elems + [el];
        empty := empty.Signal(lucky);
        r := Accepted;
      }
      assert Value() == PutSection(q, t, el, w).0;
      PutKeepsMonitor(q, t, el, w);
    }

    method Get(t: Tid) returns (r: GetResult<T>, ghost w: Tid)
      requires MonitorInv(Value()) && MayGet(Value(), t)
      modifies this
      ensures old(Value()).full.Wakes(w) && (Value(), r) == GetSection(old(Value()), t, w)
      ensures MonitorInv(Value())
      ensures r.GetParked? <==> !old(closed) && old(elems) == []
      ensures old(elems) != [] ==> r == Returned(Some(old(elems)[0])) && old(elems) == [old(elems)[0]] + elems
      ensures old(closed) && old(elems) == [] ==> r == Returned(None) && elems == []
      ensures t in empty.parked <==> r.GetParked?
    {
      ghost var q := Value();
      var lucky := 0;  // the producer a `Signal` would pick
      if full.parked != {} { lucky :| lucky in full.parked; }
      w := lucky;
      empty := empty.Resume(t);
      if !closed && |elems| == 0 {
        empty := empty.Wait(t);
        r := GetParked;
      } else if |elems| != 0 {
        r := Returned(Some(elems[0]));
        elems := elems[1..];
        full := full.Signal(lucky);
      } else {
        r := Returned(None);
      }
      assert Value() == GetSection(q, t, w).0;
      GetKeepsMonitor(q, t, w);
    }

    method Close(clear: bool)
      requires MonitorInv(Value())
      modifies this
      ensures Value() == CloseSection(old(Value()), clear) && MonitorInv(Value())
      ensures closed && empty.parked == {} && full == old(full)
      ensures elems == if clear then [] else old(elems)
    {
      closed := true;
      if clear { elems := []; }
      empty := empty.Broadcast();
      CloseKeepsMonitor(old(Value()), clear);
    }

    method IsClosed() returns (b: bool)
      ensures b == closed
    {
      b := closed;
    }
  }
}
