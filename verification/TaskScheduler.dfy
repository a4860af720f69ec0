/**
 * The broker task scheduler of internal/brokers/mp_task_scheduler.go as a machine over its lock-protected sections.
 * Any number of submitters, read workers and write workers run interleaved; both queues are unbounded.
 */
module TaskScheduler {
  import opened Basics
  import opened Monitor

  type TaskId = string

  const MAX_ERRORS := 128

  /** Where a worker routine is: in `Get`, in qread/qwrite, in submitError, in Remove, or returned. */
  datatype Phase<X> = Getting | Busy(x: X) | Failing(x: X) | Releasing(x: X) | Exited

  /** `submitting`: ids inserted whose `Put` has not run; `stranded`: ids whose task will never be run. */
  datatype ReadSide = ReadSide(q: Queue<TaskId>, running: set<TaskId>, submitting: multiset<TaskId>,
                               workers: map<Tid, Phase<TaskId>>, stranded: multiset<TaskId>)

  datatype WriteSide<W> = WriteSide(q: Queue<W>, workers: map<Tid, Phase<W>>)

  /** How far `Stop` has come. */
  datatype Stage = Up | ReadsClosed | WritesClosed | ErrorsClosed | Joined {
    function Rank(): nat {
      match this case Up => 0 case ReadsClosed => 1 case WritesClosed => 2 case ErrorsClosed => 3 case Joined => 4
    }
  }

  datatype Control = Control(errors: nat, panicked: bool, wg: int, stage: Stage)

  datatype Sched<W> = Sched(r: ReadSide, w: WriteSide<W>, c: Control)

  datatype Event<W> =
    | SpawnReader(t: Tid)
    | SpawnWriter(t: Tid)
    | InsertRead(id: TaskId)
    | PutRead(id: TaskId, t: Tid, k: Tid)
    | PutWrite(task: W, t: Tid, k: Tid)
    | ReaderGets(t: Tid, k: Tid)
    | ReaderReturns(t: Tid, failed: bool)
    | ReaderReports(t: Tid)
    | ReaderReleases(t: Tid)
    | WriterGets(t: Tid, k: Tid)
    | WriterReturns(t: Tid, failed: bool)
    | WriterReports(t: Tid)
    | DrainError
    | StopReads
    | StopWrites
    | StopErrors
    | StopJoins

  function Fresh<W>(): Sched<W> {
    Sched(ReadSide(NewQueue(-1), {}, multiset{}, map[], multiset{}), WriteSide(NewQueue(-1), map[]),
          Control(0, false, 0, Up))
  }

  // ----- the sections -----

  /** `submitReadTask`, first section: `Insert` succeeds only for an id that is not running. */
  function Insert(r: ReadSide, id: TaskId): ReadSide {
    if id in r.running then r
    else r.(running := r.running + {id}, submitting := r.submitting + multiset{id})
  }

  /** `submitReadTask`, second section: the result of `Put` is ignored. */
  function Enqueue(r: ReadSide, id: TaskId, t: Tid, k: Tid): ReadSide {
    var (q', res) := PutSection(r.q, t, id, k);
    r.(q := q', submitting := r.submitting - multiset{id},
       stranded := if res.Accepted? then r.stranded else r.stranded + multiset{id})
  }

  function PhaseAfterGet<X>(res: GetResult<X>): Phase<X> {
    match res
    case GetParked => Getting
    case Returned(Some(x)) => Busy(x)
    case Returned(None) => Exited
  }

  function ReaderTakes(r: ReadSide, t: Tid, k: Tid): ReadSide {
    var (q', res) := GetSection(r.q, t, k);
    r.(q := q', workers := r.workers[t := PhaseAfterGet(res)])
  }

  function CloseReads(r: ReadSide): ReadSide {
    r.(q := CloseSection(r.q, true), stranded := r.stranded + multiset(r.q.elems))
  }

  function WriterTakes<W>(w: WriteSide<W>, t: Tid, k: Tid): WriteSide<W> {
    var (q', res) := GetSection(w.q, t, k);
    w.(q := q', workers := w.workers[t := PhaseAfterGet(res)])
  }

  function CountExit<X>(c: Control, p: Phase<X>): Control {
    if p.Exited? then c.(wg := c.wg - 1) else c
  }

  /** `submitError`: a full buffer drops the error, a closed channel panics. */
  function Report(c: Control): Control {
    if c.stage.Rank() >= 3 then c.(panicked := true)
    else if c.errors < MAX_ERRORS then c.(errors := c.errors + 1)
    else c
  }

  predicate Enabled<W>(s: Sched<W>, e: Event<W>) {
    && !s.c.panicked
    && match e {
      case SpawnReader(t) => s.c.stage.Up? && t !in s.r.workers && s.r.q.Idle(t)
      case SpawnWriter(t) => s.c.stage.Up? && t !in s.w.workers && s.w.q.Idle(t)
      case InsertRead(_) => true
      case PutRead(id, t, k) => id in s.r.submitting && s.r.q.Idle(t) && s.r.q.empty.Wakes(k)
      case PutWrite(_, t, k) => s.w.q.Idle(t) && s.w.q.empty.Wakes(k)
      case ReaderGets(t, k) =>
        t in s.r.workers && s.r.workers[t].Getting? && t !in s.r.q.empty.parked && s.r.q.full.Wakes(k)
      case ReaderReturns(t, _) => t in s.r.workers && s.r.workers[t].Busy?
      case ReaderReports(t) => t in s.r.workers && s.r.workers[t].Failing?
      case ReaderReleases(t) => t in s.r.workers && s.r.workers[t].Releasing?
      case WriterGets(t, k) =>
        t in s.w.workers && s.w.workers[t].Getting? && t !in s.w.q.empty.parked && s.w.q.full.Wakes(k)
      case WriterReturns(t, _) => t in s.w.workers && s.w.workers[t].Busy?
      case WriterReports(t) => t in s.w.workers && s.w.workers[t].Failing?
      case DrainError => s.c.errors > 0
      case StopReads => s.c.stage.Up?
      case StopWrites => s.c.stage.ReadsClosed?
      case StopErrors => s.c.stage.WritesClosed?
      case StopJoins => s.c.stage.ErrorsClosed? && s.c.wg == 0
    }
  }

  function Apply<W>(s: Sched<W>, e: Event<W>): Sched<W>
    requires Enabled(s, e)
  {
    match e
    case SpawnReader(t) => s.(r := s.r.(workers := s.r.workers[t := Getting]), c := s.c.(wg := s.c.wg + 1))
    case SpawnWriter(t) => s.(w := s.w.(workers := s.w.workers[t := Getting]), c := s.c.(wg := s.c.wg + 1))
    case InsertRead(id) => s.(r := Insert(s.r, id))
    case PutRead(id, t, k) => s.(r := Enqueue(s.r, id, t, k))
    case PutWrite(task, t, k) => s.(w := s.w.(q := PutSection(s.w.q, t, task, k).0))
    case ReaderGets(t, k) =>
      var r' := ReaderTakes(s.r, t, k);
      s.(r := r', c := CountExit(s.c, r'.workers[t]))
    case ReaderReturns(t, failed) =>
      var x := s.r.workers[t].x;
      s.(r := s.r.(workers := s.r.workers[t := if failed then Failing(x) else Releasing(x)]))
    case ReaderReports(t) =>
      s.(r := s.r.(workers := s.r.workers[t := Releasing(s.r.workers[t].x)]), c := Report(s.c))
    case ReaderReleases(t) =>
      s.(r := s.r.(running := s.r.running - {s.r.workers[t].x}, workers := s.r.workers[t := Getting]))
    case WriterGets(t, k) =>
      var w' := WriterTakes(s.w, t, k);
      s.(w := w', c := CountExit(s.c, w'.workers[t]))
    case WriterReturns(t, failed) =>
      s.(w := s.w.(workers := s.w.workers[t := if failed then Failing(s.w.workers[t].x) else Getting]))
    case WriterReports(t) =>
      s.(w := s.w.(workers := s.w.workers[t := Getting]), c := Report(s.c))
    case DrainError => s.(c := s.c.(errors := s.c.errors - 1))
    case StopReads =>
      s.(r := CloseReads(s.r), c := s.c.(stage := ReadsClosed))
    case StopWrites => s.(w := s.w.(q := CloseSection(s.w.q, true)), c := s.c.(stage := WritesClosed))
    case StopErrors => s.(c := s.c.(stage := ErrorsClosed))
    case StopJoins => s.(c := s.c.(stage := Joined))
  }

  ghost predicate Executes<W>(s: Sched<W>, es: seq<Event<W>>, s': Sched<W>)
    decreases |es|
  {
    if es == [] then s' == s else Enabled(s, es[0]) && Executes(Apply(s, es[0]), es[1..], s')
  }

  lemma {:induction false} ExecutesSnoc<W>(s: Sched<W>, es: seq<Event<W>>, m: Sched<W>, e: Event<W>)
    requires Executes(s, es, m) && Enabled(m, e)
    ensures Executes(s, es + [e], Apply(m, e))
    decreases |es|
  {
    if es == [] {
      assert es + [e] == [e];
    } else {
      ExecutesSnoc(Apply(s, es[0]), es[1..], m, e);
      assert (es + [e])[0] == es[0] && (es + [e])[1..] == es[1..] + [e];
    }
  }

  lemma {:induction false} ExecutesConcat<W>(s: Sched<W>, es: seq<Event<W>>, m: Sched<W>, bs: seq<Event<W>>,
                                             s': Sched<W>)
    requires Executes(s, es, m) && Executes(m, bs, s')
    ensures Executes(s, es + bs, s')
    decreases |es|
  {
    if es == [] {
      assert es + bs == bs;
    } else {
      ExecutesConcat(Apply(s, es[0]), es[1..], m, bs, s');
      assert (es + bs)[0] == es[0] && (es + bs)[1..] == es[1..] + bs;
    }
  }

  // ----- invariants -----

  function HeldId(p: Phase<TaskId>): multiset<TaskId> {
    if p.Busy? || p.Failing? || p.Releasing? then multiset{p.x} else multiset{}
  }

  /**
   * The running ids are exactly, and without overlap, those inserted but not yet put, those queued, those held by a
   * read worker, and the stranded ones.
   */
  ghost predicate IdsAccounted(r: ReadSide) {
    multiset(r.running) == r.submitting + multiset(r.q.elems) + Collect(r.workers, HeldId) + r.stranded
  }

  /** The queue is unbounded, and whoever waits on it is a worker in `Get`. */
  ghost predicate WaitersGetting<X>(q: Queue<X>, workers: map<Tid, Phase<X>>) {
    MonitorInv(q) && q.maxSize == -1 && OnlyGettersWait(q.empty, workers)
  }

  ghost predicate OnlyGettersWait<X>(c: Cond, workers: map<Tid, Phase<X>>) {
    forall t :: c.Involves(t) ==> t in workers && workers[t].Getting?
  }

  ghost predicate ReadInv(r: ReadSide) {
    && WaitersGetting(r.q, r.workers)
    && IdsAccounted(r)
    && (r.stranded != multiset{} ==> r.q.closed)
  }

  lemma InsertAccounts(r: ReadSide, id: TaskId)
    requires ReadInv(r)
    ensures ReadInv(Insert(r, id))
  {
    if id !in r.running {
      assert multiset(r.running + {id}) == multiset(r.running) + multiset{id};
    }
  }

  lemma EnqueueAccounts(r: ReadSide, id: TaskId, t: Tid, k: Tid)
    requires ReadInv(r) && id in r.submitting && r.q.Idle(t) && r.q.empty.Wakes(k)
    ensures ReadInv(Enqueue(r, id, t, k))
  {
    PutKeepsMonitor(r.q, t, id, k);
    assert r.submitting == (r.submitting - multiset{id}) + multiset{id};
  }

  lemma TakeKeepsWaiters<X>(q: Queue<X>, workers: map<Tid, Phase<X>>, t: Tid, k: Tid)
    requires WaitersGetting(q, workers) && t in workers && workers[t].Getting?
    requires t !in q.empty.parked && q.full.Wakes(k)
    ensures WaitersGetting(GetSection(q, t, k).0, workers[t := PhaseAfterGet(GetSection(q, t, k).1)])
  {
    GetKeepsMonitor(q, t, k);
    var (q', res) := GetSection(q, t, k);
    assert OnlyGettersWait(q'.empty, workers[t := PhaseAfterGet(res)]);
  }

  /** What the worker gets is what the queue gives up. */
  lemma TakeMoves(r: ReadSide, t: Tid, k: Tid)
    requires t in r.workers && r.workers[t].Getting?
    ensures var r' := ReaderTakes(r, t, k);
            multiset(r'.q.elems) + Collect(r'.workers, HeldId) == multiset(r.q.elems) + Collect(r.workers, HeldId)
  {
    var (q', res) := GetSection(r.q, t, k);
    CollectPut(r.workers, HeldId, t, PhaseAfterGet(res));
    if r.q.elems != [] { HeadTail(r.q.elems); }
  }

  lemma TakeAccounts(r: ReadSide, t: Tid, k: Tid)
    requires ReadInv(r) && t in r.workers && r.workers[t].Getting? && t !in r.q.empty.parked && r.q.full.Wakes(k)
    ensures ReadInv(ReaderTakes(r, t, k))
  {
    TakeKeepsWaiters(r.q, r.workers, t, k);
    TakeMoves(r, t, k);
    var r' := ReaderTakes(r, t, k);
    assert r'.submitting + (multiset(r'.q.elems) + Collect(r'.workers, HeldId)) + r'.stranded == multiset(r.running);
  }

  lemma HoldAccounts(r: ReadSide, t: Tid, p: Phase<TaskId>)
    requires ReadInv(r) && t in r.workers && !r.workers[t].Getting? && HeldId(p) == HeldId(r.workers[t])
    ensures ReadInv(r.(workers := r.workers[t := p]))
  {
    CollectPut(r.workers, HeldId, t, p);
  }

  lemma ReleaseAccounts(r: ReadSide, t: Tid)
    requires ReadInv(r) && t in r.workers && r.workers[t].Releasing?
    ensures ReadInv(r.(running := r.running - {r.workers[t].x}, workers := r.workers[t := Getting]))
  {
    var id := r.workers[t].x;
    CollectPut(r.workers, HeldId, t, Getting);
    var rest := r.submitting + multiset(r.q.elems) + Collect(r.workers - {t}, HeldId) + r.stranded;
    RemoveOne(r.running, rest, id);
  }

  lemma SpawnAccounts(r: ReadSide, t: Tid)
    requires ReadInv(r) && t !in r.workers
    ensures ReadInv(r.(workers := r.workers[t := Getting]))
  {
    CollectPut(r.workers, HeldId, t, Getting);
  }

  lemma CloseAccounts(r: ReadSide)
    requires ReadInv(r)
    ensures ReadInv(CloseReads(r))
  {
    CloseKeepsMonitor(r.q, true);
  }

  lemma StepKeepsReads<W>(s: Sched<W>, e: Event<W>)
    requires ReadInv(s.r) && Enabled(s, e)
    ensures ReadInv(Apply(s, e).r)
  {
    match e {
      case SpawnReader(t) => SpawnAccounts(s.r, t);
      case InsertRead(id) => InsertAccounts(s.r, id);
      case PutRead(id, t, k) => EnqueueAccounts(s.r, id, t, k);
      case ReaderGets(t, k) => TakeAccounts(s.r, t, k);
      case ReaderReturns(t, failed) => HoldAccounts(s.r, t, Apply(s, e).r.workers[t]);
      case ReaderReports(t) => HoldAccounts(s.r, t, Apply(s, e).r.workers[t]);
      case ReaderReleases(t) => ReleaseAccounts(s.r, t);
      case StopReads => CloseAccounts(s.r);
      case _ => assert Apply(s, e).r == s.r;
    }
  }

  lemma {:induction false} RunKeepsReads<W>(s: Sched<W>, es: seq<Event<W>>, s': Sched<W>)
    requires ReadInv(s.r) && Executes(s, es, s')
    ensures ReadInv(s'.r)
    decreases |es|
  {
    if es != [] {
      StepKeepsReads(s, es[0]);
      RunKeepsReads(Apply(s, es[0]), es[1..], s');
    }
  }

  // ----- read-task exclusion -----

  predicate Holds(r: ReadSide, t: Tid, id: TaskId) { t in r.workers && id in HeldId(r.workers[t]) }

  /** The id is inserted and about to be queued, or queued, or held by a read worker. */
  ghost predicate Pending(r: ReadSide, id: TaskId) {
    id in r.submitting || id in r.q.elems || exists t :: Holds(r, t, id)
  }

  lemma NeverQueuedTwice(r: ReadSide, i: nat, j: nat)
    requires ReadInv(r) && i < j < |r.q.elems|
    ensures r.q.elems[i] != r.q.elems[j]
  {
    assert multiset(r.running)[r.q.elems[i]] >= multiset(r.q.elems)[r.q.elems[i]];
    if r.q.elems[i] == r.q.elems[j] {
      TwicePresent(r.q.elems, i, j);
    }
  }

  lemma NeverHeldTwice(r: ReadSide, t: Tid, u: Tid, id: TaskId)
    requires ReadInv(r) && Holds(r, t, id) && Holds(r, u, id)
    ensures t == u
  {
    assert multiset(r.running)[id] <= 1;
    if t != u {
      CollectPair(r.workers, HeldId, t, u);
    }
  }

  lemma NeverQueuedAndHeld(r: ReadSide, t: Tid, id: TaskId)
    requires ReadInv(r) && Holds(r, t, id)
    ensures id !in r.q.elems && id !in r.submitting && id in r.running
  {
    CollectSplit(r.workers, HeldId, t);
    assert id in Collect(r.workers, HeldId);
    assert multiset(r.running)[id] == 1;
    assert id in r.q.elems ==> multiset(r.q.elems)[id] >= 1;
  }

  lemma RunningIsPending(r: ReadSide, id: TaskId)
    requires ReadInv(r) && !r.q.closed
    ensures id in r.running <==> Pending(r, id)
  {
    if id in r.running {
      assert id in multiset(r.running);
      if id in Collect(r.workers, HeldId) {
        var t := CollectWitness(r.workers, HeldId, id);
        assert Holds(r, t, id);
      } else {
        assert id in r.submitting || id in multiset(r.q.elems);
      }
    }
    if Pending(r, id) {
      if id in r.submitting {
        assert id in multiset(r.running);
      } else if id in r.q.elems {
        assert id in multiset(r.q.elems);
        assert id in multiset(r.running);
      } else {
        var t :| Holds(r, t, id);
        NeverQueuedAndHeld(r, t, id);
      }
    }
  }

  /**
   * In every interleaving of any number of submitters and workers no id is queued twice, held by two read workers,
   * or queued while held; and while the queue is open the running ids are exactly the pending ones.
   */
  lemma ReadTasksExclude<W>(es: seq<Event<W>>, s: Sched<W>)
    requires Executes(Fresh(), es, s)
    ensures IdsAccounted(s.r) && (s.r.stranded != multiset{} ==> s.r.q.closed)
    ensures forall i, j :: 0 <= i < j < |s.r.q.elems| ==> s.r.q.elems[i] != s.r.q.elems[j]
    ensures forall t, u, id :: Holds(s.r, t, id) && Holds(s.r, u, id) ==> t == u
    ensures forall t, id :: Holds(s.r, t, id) ==> id !in s.r.q.elems && id !in s.r.submitting
    ensures !s.r.q.closed ==> forall id :: id in s.r.running <==> Pending(s.r, id)
  {
    FreshReads<W>();
    RunKeepsReads(Fresh(), es, s);
    forall i, j | 0 <= i < j < |s.r.q.elems| ensures s.r.q.elems[i] != s.r.q.elems[j] {
      NeverQueuedTwice(s.r, i, j);
    }
    forall t, u, id | Holds(s.r, t, id) && Holds(s.r, u, id) ensures t == u { NeverHeldTwice(s.r, t, u, id); }
    forall t, id | Holds(s.r, t, id) ensures id !in s.r.q.elems && id !in s.r.submitting {
      NeverQueuedAndHeld(s.r, t, id);
    }
    if !s.r.q.closed {
      forall id ensures id in s.r.running <==> Pending(s.r, id) { RunningIsPending(s.r, id); }
    }
  }

  lemma FreshReads<W>()
    ensures ReadInv(Fresh<W>().r)
  {
    assert Collect(Fresh<W>().r.workers, HeldId) == multiset{};
  }

  /** A submit that is suppressed while the queue is open loses nothing: the same id is still pending. */
  lemma SuppressedSubmitIsPending<W>(es: seq<Event<W>>, s: Sched<W>, id: TaskId)
    requires Executes(Fresh(), es, s) && Enabled(s, InsertRead(id)) && !s.r.q.closed
    ensures Apply(s, InsertRead(id)) == s <==> Pending(s.r, id)
  {
    FreshReads<W>();
    RunKeepsReads(Fresh(), es, s);
    RunningIsPending(s.r, id);
  }
}

/** How `Stop` ends: the wait group, the termination measure, and the late error that meets a closed channel. */
module SchedulerShutdown {
  import opened Basics
  import opened Monitor
  import opened TaskScheduler

  function Units(n: nat): (m: multiset<()>)
    ensures |m| == n
  {
    multiset{}[() := n]
  }

  predicate WorkerStep<W>(e: Event<W>) {
    || e.ReaderGets? || e.ReaderReturns? || e.ReaderReports? || e.ReaderReleases?
    || e.WriterGets? || e.WriterReturns? || e.WriterReports?
  }

  // ----- the wait group counts the workers that have not returned -----

  function Alive<X>(p: Phase<X>): (m: multiset<()>)
    ensures |m| == if p.Exited? then 0 else 1
  {
    Units(if p.Exited? then 0 else 1)
  }

  ghost function Live<W>(s: Sched<W>): nat { |Collect(s.r.workers, Alive)| + |Collect(s.w.workers, Alive)| }

  lemma SizePut<X>(m: map<Tid, Phase<X>>, f: Phase<X> -> multiset<()>, t: Tid, p: Phase<X>)
    ensures t in m ==> |Collect(m[t := p], f)| + |f(m[t])| == |Collect(m, f)| + |f(p)|
    ensures t !in m ==> |Collect(m[t := p], f)| == |Collect(m, f)| + |f(p)|
  {
    CollectPut(m, f, t, p);
  }

  ghost predicate StopInv<W>(s: Sched<W>) {
    ReadInv(s.r) && WriteInv(s.w) && s.c.wg == Live(s) && Stages(s)
  }

  /** A write worker has no id to release. */
  ghost predicate WriteInv<W>(w: WriteSide<W>) {
    WaitersGetting(w.q, w.workers) && forall t :: t in w.workers ==> !w.workers[t].Releasing?
  }

  ghost predicate Stages<W>(s: Sched<W>) {
    && ClosedAt(s.r.q, s.c.stage.Rank() >= 1)
    && ClosedAt(s.w.q, s.c.stage.Rank() >= 2)
    && 0 <= s.c.errors <= MAX_ERRORS
    && (s.c.panicked ==> s.c.stage.Rank() >= 3)
    && (s.c.stage.Joined? ==> s.c.wg == 0)
  }

  /** The queue is closed exactly when `Stop` has reached it, and a closed queue holds nothing. */
  predicate ClosedAt<X>(q: Queue<X>, b: bool) { (q.closed <==> b) && (q.closed ==> |q.elems| == 0) }

  lemma StepKeepsWriterWaits<W>(s: Sched<W>, e: Event<W>)
    requires WaitersGetting(s.w.q, s.w.workers) && Enabled(s, e)
    ensures WaitersGetting(Apply(s, e).w.q, Apply(s, e).w.workers)
  {
    match e {
      case PutWrite(task, t, k) => PutKeepsMonitor(s.w.q, t, task, k);
      case WriterGets(t, k) => TakeKeepsWaiters(s.w.q, s.w.workers, t, k);
      case StopWrites => CloseKeepsMonitor(s.w.q, true);
      case WriterReturns(t, failed) => assert Apply(s, e).w.q == s.w.q;
      case WriterReports(t) => assert Apply(s, e).w.q == s.w.q;
      case SpawnWriter(t) => assert Apply(s, e).w.q == s.w.q;
      case _ => assert Apply(s, e).w == s.w;
    }
  }

  lemma StepKeepsWriters<W>(s: Sched<W>, e: Event<W>)
    requires WriteInv(s.w) && Enabled(s, e)
    ensures WriteInv(Apply(s, e).w)
  {
    StepKeepsWriterWaits(s, e);
  }

  function Share<X>(m: map<Tid, Phase<X>>, t: Tid): nat { if t in m then |Alive(m[t])| else 0 }

  lemma ReaderMoves<W>(s: Sched<W>, s': Sched<W>, t: Tid, p: Phase<TaskId>)
    requires s.c.wg == Live(s) && s'.r.workers == s.r.workers[t := p] && s'.w.workers == s.w.workers
    requires s'.c.wg == s.c.wg - Share(s.r.workers, t) + |Alive(p)|
    ensures s'.c.wg == Live(s')
  {
    SizePut(s.r.workers, Alive, t, p);
  }

  lemma WriterMoves<W>(s: Sched<W>, s': Sched<W>, t: Tid, p: Phase<W>)
    requires s.c.wg == Live(s) && s'.w.workers == s.w.workers[t := p] && s'.r.workers == s.r.workers
    requires s'.c.wg == s.c.wg - Share(s.w.workers, t) + |Alive(p)|
    ensures s'.c.wg == Live(s')
  {
    SizePut(s.w.workers, Alive, t, p);
  }

  predicate ReaderEvent<W>(e: Event<W>) {
    e.SpawnReader? || e.ReaderGets? || e.ReaderReturns? || e.ReaderReports? || e.ReaderReleases?
  }

  predicate WriterEvent<W>(e: Event<W>) { e.SpawnWriter? || e.WriterGets? || e.WriterReturns? || e.WriterReports? }

  lemma ReaderStepKeepsWaitGroup<W>(s: Sched<W>, e: Event<W>)
    requires s.c.wg == Live(s) && Enabled(s, e) && ReaderEvent(e)
    ensures Apply(s, e).c.wg == Live(Apply(s, e))
  {
    ReaderMoves(s, Apply(s, e), e.t, Apply(s, e).r.workers[e.t]);
  }

  lemma WriterStepKeepsWaitGroup<W>(s: Sched<W>, e: Event<W>)
    requires s.c.wg == Live(s) && Enabled(s, e) && WriterEvent(e)
    ensures Apply(s, e).c.wg == Live(Apply(s, e))
  {
    WriterMoves(s, Apply(s, e), e.t, Apply(s, e).w.workers[e.t]);
  }

  lemma OtherStepKeepsWaitGroup<W>(s: Sched<W>, e: Event<W>)
    requires s.c.wg == Live(s) && Enabled(s, e) && !ReaderEvent(e) && !WriterEvent(e)
    ensures Apply(s, e).c.wg == Live(Apply(s, e))
  {
    assert Apply(s, e).r.workers == s.r.workers && Apply(s, e).w.workers == s.w.workers && Apply(s, e).c.wg == s.c.wg;
  }

  lemma StepKeepsWaitGroup<W>(s: Sched<W>, e: Event<W>)
    requires s.c.wg == Live(s) && Enabled(s, e)
    ensures Apply(s, e).c.wg == Live(Apply(s, e))
  {
    if ReaderEvent(e) {
      ReaderStepKeepsWaitGroup(s, e);
    } else if WriterEvent(e) {
      WriterStepKeepsWaitGroup(s, e);
    } else {
      OtherStepKeepsWaitGroup(s, e);
    }
  }

  /** Once everyone has returned nobody moves. */
  lemma JoinedIsQuiet<W>(s: Sched<W>, t: Tid)
    requires s.c.wg == Live(s) && s.c.wg == 0
    ensures t in s.r.workers ==> s.r.workers[t].Exited?
    ensures t in s.w.workers ==> s.w.workers[t].Exited?
  {
    if t in s.r.workers { CollectSplit(s.r.workers, Alive, t); }
    if t in s.w.workers { CollectSplit(s.w.workers, Alive, t); }
  }

  lemma StepKeepsReadsClosed<W>(s: Sched<W>, e: Event<W>)
    requires Stages(s) && Enabled(s, e)
    ensures ClosedAt(Apply(s, e).r.q, Apply(s, e).c.stage.Rank() >= 1)
  {
  }

  lemma StepKeepsWritesClosed<W>(s: Sched<W>, e: Event<W>)
    requires Stages(s) && Enabled(s, e)
    ensures ClosedAt(Apply(s, e).w.q, Apply(s, e).c.stage.Rank() >= 2)
  {
  }

  lemma StepKeepsStages<W>(s: Sched<W>, e: Event<W>)
    requires Stages(s) && s.c.wg == Live(s) && Enabled(s, e)
    ensures Stages(Apply(s, e))
  {
    StepKeepsReadsClosed(s, e);
    StepKeepsWritesClosed(s, e);
    if s.c.stage.Joined? && WorkerStep(e) {
      JoinedIsQuiet(s, e.t);
    }
  }

  lemma StepKeepsStop<W>(s: Sched<W>, e: Event<W>)
    requires StopInv(s) && Enabled(s, e)
    ensures StopInv(Apply(s, e))
  {
    StepKeepsReads(s, e);
    StepKeepsWriters(s, e);
    StepKeepsWaitGroup(s, e);
    StepKeepsStages(s, e);
  }

  lemma {:induction false} RunKeepsStop<W>(s: Sched<W>, es: seq<Event<W>>, s': Sched<W>)
    requires StopInv(s) && Executes(s, es, s')
    ensures StopInv(s')
    decreases |es|
  {
    if es != [] {
      StepKeepsStop(s, es[0]);
      RunKeepsStop(Apply(s, es[0]), es[1..], s');
    }
  }

  lemma FreshStop<W>()
    ensures StopInv(Fresh<W>())
  {
    FreshReads<W>();
    assert Collect(Fresh<W>().w.workers, Alive) == multiset{};
    assert Collect(Fresh<W>().r.workers, Alive) == multiset{};
  }

  /** In every reachable state the wait group's counter is zero exactly when every worker routine has returned. */
  lemma WaitGroupCountsWorkers<W>(es: seq<Event<W>>, s: Sched<W>)
    requires Executes(Fresh(), es, s)
    ensures s.c.wg >= 0
    ensures s.c.wg == 0 <==> && (forall t :: t in s.r.workers ==> s.r.workers[t].Exited?)
                             && (forall t :: t in s.w.workers ==> s.w.workers[t].Exited?)
  {
    FreshStop<W>();
    RunKeepsStop(Fresh(), es, s);
    CollectEmpty(s.r.workers, Alive);
    CollectEmpty(s.w.workers, Alive);
    forall t | t in s.r.workers ensures s.r.workers[t].Exited? <==> Alive(s.r.workers[t]) == multiset{} {
      assert |Alive(s.r.workers[t])| == if s.r.workers[t].Exited? then 0 else 1;
    }
    forall t | t in s.w.workers ensures s.w.workers[t].Exited? <==> Alive(s.w.workers[t]) == multiset{} {
      assert |Alive(s.w.workers[t])| == if s.w.workers[t].Exited? then 0 else 1;
    }
  }

  // ----- termination -----

  /** Steps still to come for a worker whose queue is closed and empty. */
  function ReaderWork(p: Phase<TaskId>): multiset<()> {
    Units(match p case Busy(_) => 4 case Failing(_) => 3 case Releasing(_) => 2 case Getting => 1 case Exited => 0)
  }

  function WriterWork<W>(p: Phase<W>): multiset<()> {
    Units(match p case Busy(_) => 3 case Failing(_) => 2 case Releasing(_) => 2 case Getting => 1 case Exited => 0)
  }

  ghost function Work<W>(s: Sched<W>): nat {
    |Collect(s.r.workers, ReaderWork)| + |Collect(s.w.workers, WriterWork)|
  }

  function WorkerSteps<W>(es: seq<Event<W>>): nat {
    if es == [] then 0 else (if WorkerStep(es[0]) then 1 else 0) + WorkerSteps(es[1..])
  }

  lemma ReaderStepReducesWork(r: ReadSide, t: Tid, p: Phase<TaskId>)
    requires t in r.workers && |ReaderWork(p)| < |ReaderWork(r.workers[t])|
    ensures |Collect(r.workers[t := p], ReaderWork)| < |Collect(r.workers, ReaderWork)|
  {
    SizePut(r.workers, ReaderWork, t, p);
  }

  lemma WriterStepReducesWork<W>(w: WriteSide<W>, t: Tid, p: Phase<W>)
    requires t in w.workers && |WriterWork(p)| < |WriterWork(w.workers[t])|
    ensures |Collect(w.workers[t := p], WriterWork)| < |Collect(w.workers, WriterWork)|
  {
    SizePut(w.workers, WriterWork, t, p);
  }

  lemma StepReducesWork<W>(s: Sched<W>, e: Event<W>)
    requires Stages(s) && s.c.stage.Rank() >= 2 && Enabled(s, e)
    ensures Work(Apply(s, e)) + (if WorkerStep(e) then 1 else 0) <= Work(s)
  {
    var s' := Apply(s, e);
    if e.ReaderGets? || e.ReaderReturns? || e.ReaderReports? || e.ReaderReleases? {
      ReaderStepReducesWork(s.r, e.t, s'.r.workers[e.t]);
    } else if WorkerStep(e) {
      WriterStepReducesWork(s.w, e.t, s'.w.workers[e.t]);
    } else {
      assert s'.r.workers == s.r.workers && s'.w.workers == s.w.workers;
    }
  }

  /** After both queues are closed the workers can take only as many more steps as the measure says. */
  lemma {:induction false} ShutdownIsBounded<W>(s: Sched<W>, es: seq<Event<W>>, s': Sched<W>)
    requires StopInv(s) && s.c.stage.Rank() >= 2 && Executes(s, es, s')
    ensures Work(s') + WorkerSteps(es) <= Work(s) && s'.c.stage.Rank() >= 2
    decreases |es|
  {
    if es != [] {
      StepKeepsStop(s, es[0]);
      StepReducesWork(s, es[0]);
      ShutdownIsBounded(Apply(s, es[0]), es[1..], s');
    }
  }

  /** A worker that has not returned can move: nobody is left parked on a closed queue. */
  lemma ReaderCanMove<W>(s: Sched<W>, t: Tid) returns (e: Event<W>)
    requires StopInv(s) && s.c.stage.Rank() >= 2 && !s.c.panicked
    requires t in s.r.workers && !s.r.workers[t].Exited?
    ensures WorkerStep(e) && Enabled(s, e)
  {
    match s.r.workers[t] {
      case Getting => e := ReaderGets(t, 0);
      case Busy(_) => e := ReaderReturns(t, false);
      case Failing(_) => e := ReaderReports(t);
      case Releasing(_) => e := ReaderReleases(t);
    }
  }

  lemma WriterCanMove<W>(s: Sched<W>, t: Tid) returns (e: Event<W>)
    requires StopInv(s) && s.c.stage.Rank() >= 2 && !s.c.panicked
    requires t in s.w.workers && !s.w.workers[t].Exited?
    ensures WorkerStep(e) && Enabled(s, e)
  {
    match s.w.workers[t] {
      case Getting => e := WriterGets(t, 0);
      case Busy(_) => e := WriterReturns(t, false);
      case Failing(_) => e := WriterReports(t);
    }
  }

  lemma SomeoneCanMove<W>(s: Sched<W>) returns (e: Event<W>)
    requires StopInv(s) && s.c.stage.Rank() >= 2 && !s.c.panicked && s.c.wg > 0
    ensures WorkerStep(e) && Enabled(s, e)
  {
    if t :| t in s.r.workers && !s.r.workers[t].Exited? {
      e := ReaderCanMove(s, t);
    } else if t :| t in s.w.workers && !s.w.workers[t].Exited? {
      e := WriterCanMove(s, t);
    } else {
      AllExited(s.r.workers);
      AllExited(s.w.workers);
    }
  }

  lemma AllExited<X>(m: map<Tid, Phase<X>>)
    requires forall t :: t in m ==> m[t].Exited?
    ensures |Collect(m, Alive)| == 0
  {
    forall t | t in m ensures Alive(m[t]) == multiset{} { assert |Alive(m[t])| == 0; }
    CollectEmpty(m, Alive);
  }

  /** A run that can go no further, without a late error, has joined every worker: `Stop` returns. */
  lemma StalledShutdownHasJoined<W>(s: Sched<W>, es: seq<Event<W>>, s': Sched<W>)
    requires StopInv(s) && s.c.stage.Rank() >= 2 && Executes(s, es, s') && !s'.c.panicked
    requires forall e :: WorkerStep(e) ==> !Enabled(s', e)
    ensures s'.c.wg == 0 && WorkerSteps(es) <= Work(s)
    ensures s'.c.stage.ErrorsClosed? ==> Enabled(s', StopJoins)
  {
    RunKeepsStop(s, es, s');
    ShutdownIsBounded(s, es, s');
    if s'.c.wg > 0 {
      var e := SomeoneCanMove(s');
    }
  }

  /** Whoever is busy in `s'` was busy with the same task in `s`. */
  ghost predicate OnlyOldTasks<X>(m: map<Tid, Phase<X>>, m': map<Tid, Phase<X>>) {
    forall t :: t in m' && m'[t].Busy? ==> t in m && m[t] == m'[t]
  }

  lemma StepStartsNoTask<W>(s: Sched<W>, e: Event<W>)
    requires Stages(s) && s.c.stage.Rank() >= 2 && Enabled(s, e)
    ensures OnlyOldTasks(s.r.workers, Apply(s, e).r.workers)
    ensures OnlyOldTasks(s.w.workers, Apply(s, e).w.workers)
  {
  }

  /** Once both queues are closed they stay empty and no worker ever starts a task. */
  lemma {:induction false} NoTaskStarts<W>(s: Sched<W>, es: seq<Event<W>>, s': Sched<W>)
    requires StopInv(s) && s.c.stage.Rank() >= 2 && Executes(s, es, s')
    ensures s'.r.q.elems == [] && s'.w.q.elems == []
    ensures OnlyOldTasks(s.r.workers, s'.r.workers)
    ensures OnlyOldTasks(s.w.workers, s'.w.workers)
    decreases |es|
  {
    if es != [] {
      var m := Apply(s, es[0]);
      StepKeepsStop(s, es[0]);
      StepStartsNoTask(s, es[0]);
      NoTaskStarts(m, es[1..], s');
    }
  }

  // ----- the late error -----

  predicate Unsettled<X>(m: map<Tid, Phase<X>>, t: Tid) { t in m && (m[t].Busy? || m[t].Failing?) }

  /** Some worker still has a task whose error it may have to report. */
  ghost predicate TaskOutstanding<W>(s: Sched<W>) {
    (exists t :: Unsettled(s.r.workers, t)) || (exists t :: Unsettled(s.w.workers, t))
  }

  lemma {:induction false} SettledNeverPanics<W>(s: Sched<W>, es: seq<Event<W>>, s': Sched<W>)
    requires StopInv(s) && s.c.stage.Rank() >= 2 && !s.c.panicked && !TaskOutstanding(s) && Executes(s, es, s')
    ensures !s'.c.panicked && !TaskOutstanding(s')
    decreases |es|
  {
    if es != [] {
      StepKeepsStop(s, es[0]);
      StepStaysSettled(s, es[0]);
      SettledNeverPanics(Apply(s, es[0]), es[1..], s');
    }
  }

  lemma ReadersStaySettled<W>(s: Sched<W>, e: Event<W>)
    requires Stages(s) && s.c.stage.Rank() >= 2 && (forall t :: !Unsettled(s.r.workers, t)) && Enabled(s, e)
    ensures forall t :: !Unsettled(Apply(s, e).r.workers, t)
  {
    forall t ensures !Unsettled(Apply(s, e).r.workers, t) { assert !Unsettled(s.r.workers, t); }
  }

  lemma WritersStaySettled<W>(s: Sched<W>, e: Event<W>)
    requires Stages(s) && s.c.stage.Rank() >= 2 && (forall t :: !Unsettled(s.w.workers, t)) && Enabled(s, e)
    ensures forall t :: !Unsettled(Apply(s, e).w.workers, t)
  {
    forall t ensures !Unsettled(Apply(s, e).w.workers, t) { assert !Unsettled(s.w.workers, t); }
  }

  lemma StepStaysSettled<W>(s: Sched<W>, e: Event<W>)
    requires StopInv(s) && s.c.stage.Rank() >= 2 && !TaskOutstanding(s) && Enabled(s, e)
    ensures !Apply(s, e).c.panicked && !TaskOutstanding(Apply(s, e)) && Apply(s, e).c.stage.Rank() >= 2
  {
    ReadersStaySettled(s, e);
    WritersStaySettled(s, e);
    if WorkerStep(e) {
      assert !Unsettled(s.r.workers, e.t) && !Unsettled(s.w.workers, e.t);
    }
  }

  lemma ReaderCanPanic<W>(s: Sched<W>, t: Tid) returns (es: seq<Event<W>>, s': Sched<W>)
    requires s.c.stage.Rank() >= 3 && !s.c.panicked && Unsettled(s.r.workers, t)
    ensures Executes(s, es, s') && s'.c.panicked
  {
    var m := s;
    es := [ReaderReports(t)];
    if s.r.workers[t].Busy? {
      m := Apply(s, ReaderReturns(t, true));
      es := [ReaderReturns(t, true), ReaderReports(t)];
    }
    s' := Apply(m, ReaderReports(t));
    assert Executes(s', [], s') && Executes(m, [ReaderReports(t)], s');
    assert s.r.workers[t].Busy? ==> es[1..] == [ReaderReports(t)];
  }

  lemma WriterCanPanic<W>(s: Sched<W>, t: Tid) returns (es: seq<Event<W>>, s': Sched<W>)
    requires s.c.stage.Rank() >= 3 && !s.c.panicked && Unsettled(s.w.workers, t)
    ensures Executes(s, es, s') && s'.c.panicked
  {
    var m := s;
    es := [WriterReports(t)];
    if s.w.workers[t].Busy? {
      m := Apply(s, WriterReturns(t, true));
      es := [WriterReturns(t, true), WriterReports(t)];
    }
    s' := Apply(m, WriterReports(t));
    assert Executes(s', [], s') && Executes(m, [WriterReports(t)], s');
    assert s.w.workers[t].Busy? ==> es[1..] == [WriterReports(t)];
  }

  /** The scheduler can get to a send on the closed channel. */
  ghost predicate CanPanic<W(!new)>(s: Sched<W>) {
    exists es, s' :: Executes(s, es, s') && s'.c.panicked
  }

  /**
   * `Stop` closes the error channel before it waits for the workers. A send on the closed channel can still happen
   * if and only if some worker has a task in hand at that moment.
   */
  lemma ClosedChannelPanicIff<W(!new)>(s: Sched<W>)
    requires StopInv(s) && s.c.stage.Rank() >= 3 && !s.c.panicked
    ensures CanPanic(s) <==> TaskOutstanding(s)
  {
    if t :| Unsettled(s.r.workers, t) {
      var es, s' := ReaderCanPanic(s, t);
      assert TaskOutstanding(s) && CanPanic(s);
    } else if t :| Unsettled(s.w.workers, t) {
      var es, s' := WriterCanPanic(s, t);
      assert TaskOutstanding(s) && CanPanic(s);
    } else {
      forall es, s' | Executes(s, es, s') ensures !s'.c.panicked { SettledNeverPanics(s, es, s'); }
    }
  }

  /** One read worker, in the given phase of its task, and the stage `Stop` has reached. */
  function OneWorker<W>(id: TaskId, phase: Phase<TaskId>, stage: Stage): Sched<W> {
    var q := NewQueue<TaskId>(-1).(closed := stage.Rank() >= 1);
    var w := NewQueue<W>(-1).(closed := stage.Rank() >= 2);
    Sched(ReadSide(q, {id}, multiset{}, map[0 := phase], multiset{}), WriteSide(w, map[]), Control(0, false, 1, stage))
  }

  /** A worker starts and takes a task: the four events, and the states before and after them. */
  function StartEvent<W>(id: TaskId, n: nat): Event<W> {
    match n
    case 0 => SpawnReader(0)
    case 1 => InsertRead(id)
    case 2 => PutRead(id, 1, 0)
    case _ => ReaderGets(0, 0)
  }

  function Starting<W>(id: TaskId, n: nat): Sched<W> {
    var s := OneWorker<W>(id, Getting, Up);
    match n
    case 0 => Fresh()
    case 1 => s.(r := s.r.(running := {}))
    case 2 => s.(r := s.r.(submitting := multiset{id}))
    case 3 => s.(r := s.r.(q := s.r.q.(elems := [id])))
    case _ => OneWorker(id, Busy(id), Up)
  }

  lemma StartStep<W>(id: TaskId, n: nat)
    requires n < 4
    ensures Enabled(Starting<W>(id, n), StartEvent(id, n))
    ensures Apply(Starting<W>(id, n), StartEvent(id, n)) == Starting(id, n + 1)
  {
    var s, s' := Starting<W>(id, n), Apply(Starting<W>(id, n), StartEvent(id, n));
    match n {
      case 0 => assert s'.r.workers == map[0 := Getting];
      case 1 => assert s'.r.running == {id} && s'.r.submitting == multiset{id};
      case 2 => assert s'.r.q.elems == [id] && s'.r.submitting == multiset{};
      case _ => assert s'.r.q.elems == [] && s'.r.workers == map[0 := Busy(id)];
    }
  }

  lemma TaskStarts<W>(id: TaskId) returns (es: seq<Event<W>>)
    ensures Executes(Fresh<W>(), es, OneWorker(id, Busy(id), Up))
  {
    es := [];
    for n := 0 to 4
      invariant Executes(Fresh<W>(), es, Starting(id, n))
    {
      StartStep<W>(id, n);
      ExecutesSnoc(Fresh<W>(), es, Starting(id, n), StartEvent(id, n));
      es := es + [StartEvent(id, n)];
    }
  }

  /** `Stop` closes both queues and the error channel while the task runs. */
  lemma StopCloses<W>(id: TaskId) returns (es: seq<Event<W>>)
    ensures Executes(OneWorker<W>(id, Busy(id), Up), es, OneWorker(id, Busy(id), ErrorsClosed))
  {
    var s := OneWorker<W>(id, Busy(id), Up);
    ExecutesSnoc(s, [], s, StopReads);
    assert Apply(s, StopReads) == OneWorker(id, Busy(id), ReadsClosed);
    ExecutesSnoc(s, [] + [StopReads], OneWorker(id, Busy(id), ReadsClosed), StopWrites);
    assert Apply(OneWorker<W>(id, Busy(id), ReadsClosed), StopWrites) == OneWorker(id, Busy(id), WritesClosed);
    es := [] + [StopReads] + [StopWrites];
    ExecutesSnoc(s, es, OneWorker(id, Busy(id), WritesClosed), StopErrors);
    es := es + [StopErrors];
  }

  /** The failing input: a task that fails after `Stop` has closed the channel brings the process down. */
  lemma LateErrorPanics<W>(id: TaskId) returns (es: seq<Event<W>>, s: Sched<W>)
    ensures Executes(Fresh<W>(), es, s) && s.c.panicked
  {
    es := TaskStarts(id);
    var stop := StopCloses<W>(id);
    ExecutesConcat(Fresh<W>(), es, OneWorker(id, Busy(id), Up), stop, OneWorker(id, Busy(id), ErrorsClosed));
    var late;
    late, s := ReaderCanPanic(OneWorker<W>(id, Busy(id), ErrorsClosed), 0);
    ExecutesConcat(Fresh<W>(), es + stop, OneWorker(id, Busy(id), ErrorsClosed), late, s);
    es := es + stop + late;
  }
}
