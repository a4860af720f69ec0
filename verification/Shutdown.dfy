/**
 * The order in which internal/control/components.go stops the HTTP server, the scheduler and the worker pool, over
 * the whole of the scheduler and the pool. Borrowers of pool workers are request handlers and read workers (through
 * the mapper); both return what they borrowed before they finish.
 */
module Shutdown {
  import opened Basics
  import S = TaskScheduler
  import X = SchedulerShutdown
  import P = WorkerPool

  datatype Stage = Serving | Cancelled | Draining | ServerStopped | SchedulerStopped {
    function Rank(): nat {
      match this
      case Serving => 0 case Cancelled => 1 case Draining => 2 case ServerStopped => 3 case SchedulerStopped => 4
    }
  }

  datatype System<W> = System(s: S.Sched<W>, p: P.Pool, handlers: set<nat>, stage: Stage)

  /** Request handler `h` borrows as thread `2h`, read worker `t` as thread `2t + 1`. */
  function HandlerThread(h: nat): P.Tid { 2 * h }

  function ReaderThread(t: nat): P.Tid { 2 * t + 1 }

  datatype Event<W> =
    | RequestArrives(h: nat)
    | RequestDone(h: nat)
    | Sched(se: S.Event<W>)
    | Pool(pe: P.Event)
    | CancelContext
    | BeginServerStop
    | ServerIsDown
    | SchedulerIsDown

  /** A caller of `BorrowWorker` is a live handler or a read worker in the middle of its task. */
  predicate MayCall<W>(y: System<W>, t: P.Tid) {
    if t % 2 == 0 then t / 2 in y.handlers
    else t / 2 in y.s.r.workers && y.s.r.workers[t / 2].Busy?
  }

  predicate StopEvent<W>(e: S.Event<W>) { e.StopReads? || e.StopWrites? || e.StopErrors? || e.StopJoins? }

  predicate Enabled<W>(y: System<W>, e: Event<W>) {
    match e
    case RequestArrives(h) => y.stage.Rank() < 2 && h !in y.handlers
    case RequestDone(h) => h in y.handlers && HandlerThread(h) !in y.p.borrowers
    case Sched(se) =>
      && S.Enabled(y.s, se)
      && (StopEvent(se) ==> y.stage.ServerStopped?)
      && (se.ReaderReturns? ==> ReaderThread(se.t) !in y.p.borrowers)
    case Pool(pe) =>
      && P.Enabled(y.p, pe)
      && (pe.Call? ==> MayCall(y, pe.t))
      && !pe.Cancel?
      && (pe.CloseChannels? ==> y.stage.SchedulerStopped?)
    case CancelContext => y.stage.Serving?
    case BeginServerStop => y.stage.Cancelled?
    case ServerIsDown => y.stage.Draining? && y.handlers == {}
    case SchedulerIsDown => y.stage.ServerStopped? && y.s.c.stage.Joined?
  }

  function Apply<W>(y: System<W>, e: Event<W>): System<W>
    requires Enabled(y, e)
  {
    match e
    case RequestArrives(h) => y.(handlers := y.handlers + {h})
    case RequestDone(h) => y.(handlers := y.handlers - {h})
    case Sched(se) => y.(s := S.Apply(y.s, se))
    case Pool(pe) => y.(p := P.Apply(y.p, pe))
    case CancelContext => y.(stage := Cancelled, p := P.Apply(y.p, P.Cancel))
    case BeginServerStop => y.(stage := Draining)
    case ServerIsDown => y.(stage := ServerStopped)
    case SchedulerIsDown => y.(stage := SchedulerStopped)
  }

  ghost predicate Executes<W>(y: System<W>, es: seq<Event<W>>, y': System<W>)
    decreases |es|
  {
    if es == [] then y' == y else Enabled(y, es[0]) && Executes(Apply(y, es[0]), es[1..], y')
  }

  function Start<W>(cap: nat): System<W> { System(S.Fresh(), P.Initial(cap), {}, Serving) }

  // ----- invariant -----

  /** Whoever borrows is a live handler or a busy read worker. */
  ghost predicate Owned<W>(y: System<W>) { forall t :: t in y.p.borrowers ==> MayCall(y, t) }

  ghost predicate StagesInOrder<W>(y: System<W>) {
    && (y.stage.Rank() >= 3 ==> y.handlers == {})
    && (y.stage.Rank() >= 4 ==> y.s.c.stage.Joined?)
    && (y.p.closed ==> y.stage.Rank() >= 4 && y.p.fixer.Stopped?)
  }

  ghost predicate Inv<W>(y: System<W>) { X.StopInv(y.s) && Owned(y) && StagesInOrder(y) }

  lemma PoolStepKeepsOwned<W>(y: System<W>, e: P.Event)
    requires Owned(y) && Enabled(y, Pool(e))
    ensures Owned(Apply(y, Pool(e)))
  {
  }

  lemma SchedStepKeepsOwned<W>(y: System<W>, e: S.Event<W>)
    requires Owned(y) && Enabled(y, Sched(e))
    ensures Owned(Apply(y, Sched(e)))
  {
    var y' := Apply(y, Sched(e));
    forall t | t in y.p.borrowers && t % 2 == 1 ensures MayCall(y', t) {
      assert t == ReaderThread(t / 2) && MayCall(y, t);
      BusyReaderStays(y.s, e, t / 2);
    }
    forall t | t in y.p.borrowers && t % 2 == 0 ensures MayCall(y', t) { assert MayCall(y, t); }
  }

  /** Only its own return takes a read worker out of its task. */
  lemma BusyReaderStays<W>(s: S.Sched<W>, e: S.Event<W>, t: nat)
    requires S.Enabled(s, e) && t in s.r.workers && s.r.workers[t].Busy? && !(e.ReaderReturns? && e.t == t)
    ensures t in S.Apply(s, e).r.workers && S.Apply(s, e).r.workers[t].Busy?
  {
  }

  lemma StepKeepsOwned<W>(y: System<W>, e: Event<W>)
    requires Owned(y) && Enabled(y, e)
    ensures Owned(Apply(y, e))
  {
    match e {
      case Pool(pe) => PoolStepKeepsOwned(y, pe);
      case Sched(se) => SchedStepKeepsOwned(y, se);
      case RequestDone(h) =>
        forall t | t in y.p.borrowers ensures MayCall(Apply(y, e), t) {
          assert MayCall(y, t);
          if t % 2 == 0 { assert t == HandlerThread(t / 2); }
        }
      case _ => assert Apply(y, e).p.borrowers == y.p.borrowers && Apply(y, e).s == y.s;
    }
  }

  /** The scheduler stays joined: nothing is left to happen in it but submissions. */
  lemma JoinedStays<W>(s: S.Sched<W>, e: S.Event<W>)
    requires s.c.stage.Joined? && S.Enabled(s, e)
    ensures S.Apply(s, e).c.stage.Joined?
  {
  }

  /** A loop that has returned and channels that are closed stay so. */
  lemma ClosedStays(p: P.Pool, e: P.Event)
    requires P.Enabled(p, e)
    ensures p.fixer.Stopped? ==> P.Apply(p, e).fixer.Stopped?
    ensures P.Apply(p, e).closed <==> p.closed || e.CloseChannels?
  {
  }

  lemma StepKeepsStages<W>(y: System<W>, e: Event<W>)
    requires StagesInOrder(y) && Enabled(y, e)
    ensures StagesInOrder(Apply(y, e))
  {
    match e {
      case Pool(pe) => ClosedStays(y.p, pe);
      case Sched(se) => if y.s.c.stage.Joined? { JoinedStays(y.s, se); }
      case CancelContext => ClosedStays(y.p, P.Cancel);
      case _ =>
    }
  }

  lemma StepKeepsInv<W>(y: System<W>, e: Event<W>)
    requires Inv(y) && Enabled(y, e)
    ensures Inv(Apply(y, e))
  {
    if e.Sched? { X.StepKeepsStop(y.s, e.se); }
    StepKeepsOwned(y, e);
    StepKeepsStages(y, e);
  }

  lemma {:induction false} RunKeepsInv<W>(y: System<W>, es: seq<Event<W>>, y': System<W>)
    requires Inv(y) && Executes(y, es, y')
    ensures Inv(y')
    decreases |es|
  {
    if es != [] {
      StepKeepsInv(y, es[0]);
      RunKeepsInv(Apply(y, es[0]), es[1..], y');
    }
  }

  /** After the scheduler is down nobody borrows and nobody ever will. */
  lemma NobodyBorrows<W>(y: System<W>)
    requires Inv(y) && y.stage.SchedulerStopped?
    ensures y.p.borrowers == map[]
    ensures forall t: P.Tid :: !MayCall(y, t)
  {
    forall t: P.Tid ensures !MayCall(y, t) { X.JoinedIsQuiet(y.s, t / 2); }
  }

  predicate SendsOrReceives(e: P.Event) {
    || e.Take? || e.SendToRepair? || e.SendBack?
    || e.FixTakes? || e.FixSendsNew? || e.FixSendsWorker? || e.FixSendsRepair?
  }

  lemma NothingMoves<W>(y: System<W>)
    requires y.p.borrowers == map[] && y.p.fixer.Stopped? && forall t: P.Tid :: !MayCall(y, t)
    ensures forall e :: SendsOrReceives(e) || e.Call? ==> !Enabled(y, Pool(e))
  {
  }

  /**
   * In every run of the whole server, once the pool's channels are closed nobody holds a worker, the repair loop has
   * returned, and no operation on either channel can happen any more.
   */
  lemma ShutdownOrderIsSafe<W>(cap: nat, es: seq<Event<W>>, y: System<W>)
    requires Executes(Start(cap), es, y) && y.p.closed
    ensures y.handlers == {} && y.s.c.wg == 0
    ensures y.p.borrowers == map[] && y.p.fixer.Stopped?
    ensures forall e :: SendsOrReceives(e) || e.Call? ==> !Enabled(y, Pool(e))
  {
    X.FreshStop<W>();
    RunKeepsInv(Start(cap), es, y);
    NobodyBorrows(y);
    NothingMoves(y);
  }
}
