/**
 * The container workers of internal/coderun/watcher.go: handles circulate between two bounded channels, the callers
 * that borrow them, and the repair loop. Every channel operation and every container call is one step; what a
 * container call answers is a parameter of the step.
 */
module WorkerPool {
  import opened Basics

  type Handle = nat
  type Tid = nat

  /** A caller of `BorrowWorker`: in its `select`, inspecting, about to send to `repair`, using, about to return. */
  datatype Borrow = Waiting | Inspecting(h: Handle) | Demoting(h: Handle) | Using(h: Handle) | Returning(h: Handle)

  /**
   * The repair loop: in its `select`, inspecting, in startNewWorker before and after the container is up, at the
   * first and at the second `if` of processWorkerInfo, or returned.
   */
  datatype Fixer =
    | Idle
    | Checking(h: Handle)
    | Replacing
    | Launched(h: Handle)
    | Promoting(h: Handle, broken: bool)
    | Requeueing(h: Handle)
    | Stopped

  /** What an inspection says of a container. */
  datatype Status = Status(running: bool, paused: bool, oomKilled: bool, dead: bool) {
    predicate Broken() { paused || oomKilled || dead }
  }

  /** `made` counts the handles ever created, `lost` those nobody will see again. */
  datatype Pool = Pool(cap: nat, workers: seq<Handle>, repair: seq<Handle>, borrowers: map<Tid, Borrow>,
                       fixer: Fixer, made: nat, lost: multiset<Handle>, cancelled: bool, closed: bool)

  datatype Event =
    | Call(t: Tid)
    | GiveUp(t: Tid)
    | Take(t: Tid)
    | InspectFails(t: Tid)
    | Inspected(t: Tid, running: bool)
    | SendToRepair(t: Tid)
    | Finish(t: Tid)
    | SendBack(t: Tid)
    | FixTakes
    | FixInspectFails
    | FixStarts(up: bool)
    | FixSendsNew
    | FixInspected(st: Status)
    | FixSendsWorker
    | FixSendsRepair
    | FixStops
    | Cancel
    | CloseChannels

  /** The pool after a successful `Init`. */
  function Initial(cap: nat): Pool {
    Pool(cap, seq(cap, i => i), [], map[], Idle, cap, multiset{}, false, false)
  }

  predicate Room(p: Pool, ch: seq<Handle>) { |ch| < p.cap }

  predicate At(p: Pool, t: Tid, b: Borrow) { t in p.borrowers && p.borrowers[t] == b }

  predicate Enabled(p: Pool, e: Event) {
    match e
    case Call(t) => t !in p.borrowers
    case GiveUp(t) => At(p, t, Waiting)
    case Take(t) => At(p, t, Waiting) && p.workers != []
    case InspectFails(t) => t in p.borrowers && p.borrowers[t].Inspecting?
    case Inspected(t, _) => t in p.borrowers && p.borrowers[t].Inspecting?
    case SendToRepair(t) => t in p.borrowers && p.borrowers[t].Demoting? && Room(p, p.repair)
    case Finish(t) => t in p.borrowers && p.borrowers[t].Using?
    case SendBack(t) => t in p.borrowers && p.borrowers[t].Returning? && Room(p, p.workers)
    case FixTakes => p.fixer.Idle? && p.repair != []
    case FixInspectFails => p.fixer.Checking?
    case FixStarts(_) => p.fixer.Replacing?
    case FixSendsNew => p.fixer.Launched? && Room(p, p.workers)
    case FixInspected(_) => p.fixer.Checking?
    case FixSendsWorker => p.fixer.Promoting? && Room(p, p.workers)
    case FixSendsRepair => p.fixer.Requeueing? && Room(p, p.repair)
    case FixStops => p.fixer.Idle? && p.cancelled
    case Cancel => true
    case CloseChannels => p.fixer.Stopped? && !p.closed
  }

  function Move(p: Pool, t: Tid, b: Borrow): Pool { p.(borrowers := p.borrowers[t := b]) }

  function Leave(p: Pool, t: Tid): Pool { p.(borrowers := p.borrowers - {t}) }

  function Apply(p: Pool, e: Event): Pool
    requires Enabled(p, e)
  {
    match e
    case Call(t) => Move(p, t, Waiting)
    case GiveUp(t) => Leave(p, t)
    case Take(t) => Move(p, t, Inspecting(p.workers[0])).(workers := p.workers[1..])
    case InspectFails(t) => Leave(p, t).(lost := p.lost + multiset{p.borrowers[t].h})
    case Inspected(t, running) =>
      Move(p, t, if running then Using(p.borrowers[t].h) else Demoting(p.borrowers[t].h))
    case SendToRepair(t) => Move(p, t, Waiting).(repair := p.repair + [p.borrowers[t].h])
    case Finish(t) => Move(p, t, Returning(p.borrowers[t].h))
    case SendBack(t) => Leave(p, t).(workers := p.workers + [p.borrowers[t].h])
    case FixTakes => p.(fixer := Checking(p.repair[0]), repair := p.repair[1..])
    case FixInspectFails => p.(fixer := Replacing, lost := p.lost + multiset{p.fixer.h})
    case FixStarts(up) => if up then p.(fixer := Launched(p.made), made := p.made + 1) else p.(fixer := Idle)
    case FixSendsNew => p.(fixer := Idle, workers := p.workers + [p.fixer.h])
    case FixInspected(st) =>
      if st.running then p.(fixer := Promoting(p.fixer.h, st.Broken()))
      else if st.Broken() then p.(fixer := Requeueing(p.fixer.h))
      else p.(fixer := Idle, lost := p.lost + multiset{p.fixer.h})
    case FixSendsWorker =>
      p.(workers := p.workers + [p.fixer.h], fixer := if p.fixer.broken then Requeueing(p.fixer.h) else Idle)
    case FixSendsRepair => p.(fixer := Idle, repair := p.repair + [p.fixer.h])
    case FixStops => p.(fixer := Stopped)
    case Cancel => p.(cancelled := true)
    case CloseChannels => p.(closed := true)
  }

  ghost predicate Executes(p: Pool, es: seq<Event>, p': Pool)
    decreases |es|
  {
    if es == [] then p' == p else Enabled(p, es[0]) && Executes(Apply(p, es[0]), es[1..], p')
  }

  /**
   * A step that costs the pool a worker for good: a caller's inspection fails, the repair loop meets a container
   * that is neither running nor broken, or a replacement does not come up.
   */
  function LossOf(e: Event): nat {
    match e
    case InspectFails(_) => 1
    case FixInspected(st) => if st.running || st.Broken() then 0 else 1
    case FixStarts(up) => if up then 0 else 1
    case _ => 0
  }

  function Losses(es: seq<Event>): nat { if es == [] then 0 else LossOf(es[0]) + Losses(es[1..]) }

  /** No inspection says that a container is running and also paused, killed or dead. */
  predicate SingleStatus(e: Event) { e.FixInspected? ==> !(e.st.running && e.st.Broken()) }

  ghost predicate SingleStatuses(es: seq<Event>) { forall i :: 0 <= i < |es| ==> SingleStatus(es[i]) }

  // ----- conservation of handles -----

  function Held(b: Borrow): multiset<Handle> { if b.Waiting? then multiset{} else multiset{b.h} }

  function InRepair(f: Fixer): multiset<Handle> {
    if f.Idle? || f.Replacing? || f.Stopped? then multiset{} else multiset{f.h}
  }

  /** The handles in use: in a channel, with a borrower, or with the repair loop. */
  ghost function Circulating(p: Pool): multiset<Handle> {
    multiset(p.workers) + multiset(p.repair) + Collect(p.borrowers, Held) + InRepair(p.fixer)
  }

  /** The first `n` handles, once each. */
  ghost function FirstHandles(n: nat): multiset<Handle> {
    if n == 0 then multiset{} else FirstHandles(n - 1) + multiset{n - 1}
  }

  lemma {:induction false} FirstHandlesOnce(n: nat, h: Handle)
    ensures FirstHandles(n)[h] == if h < n then 1 else 0
    ensures |FirstHandles(n)| == n
  {
    if n > 0 { FirstHandlesOnce(n - 1, h); }
  }

  /** Every handle ever created is at exactly one place, in circulation or lost. */
  ghost predicate OnePlaceEach(p: Pool) { Circulating(p) + p.lost == FirstHandles(p.made) }

  /** The handles in circulation, and the one whose container is being started. */
  ghost function Strength(p: Pool): nat { |Circulating(p)| + if p.fixer.Replacing? then 1 else 0 }

  /** Room is kept for the container that is being started. */
  ghost predicate WithinCapacity(p: Pool) {
    Strength(p) <= p.cap
  }

  ghost predicate PoolInv(p: Pool) {
    OnePlaceEach(p) && WithinCapacity(p) && (p.fixer.Promoting? ==> !p.fixer.broken)
  }

  // ----- what each step does to the handles in circulation -----

  ghost predicate Conserves(p: Pool, p': Pool) {
    Circulating(p') == Circulating(p) && p'.lost == p.lost && p'.made == p.made && p'.cap == p.cap
  }

  ghost predicate Loses(p: Pool, p': Pool, h: Handle) {
    && Circulating(p) == Circulating(p') + multiset{h}
    && p'.lost == p.lost + multiset{h} && p'.made == p.made && p'.cap == p.cap
  }

  lemma TakeConserves(p: Pool, t: Tid)
    requires Enabled(p, Take(t))
    ensures Conserves(p, Apply(p, Take(t)))
  {
    HeadTail(p.workers);
    CollectPut(p.borrowers, Held, t, Inspecting(p.workers[0]));
  }

  lemma SendToRepairConserves(p: Pool, t: Tid)
    requires Enabled(p, SendToRepair(t))
    ensures Conserves(p, Apply(p, SendToRepair(t)))
  {
    CollectPut(p.borrowers, Held, t, Waiting);
  }

  lemma GiveUpConserves(p: Pool, t: Tid)
    requires Enabled(p, GiveUp(t))
    ensures Conserves(p, Apply(p, GiveUp(t)))
  {
    CollectSplit(p.borrowers, Held, t);
  }

  lemma SendBackConserves(p: Pool, t: Tid)
    requires Enabled(p, SendBack(t))
    ensures Conserves(p, Apply(p, SendBack(t)))
  {
    CollectSplit(p.borrowers, Held, t);
  }

  /** The caller keeps what it holds. */
  lemma MoveConserves(p: Pool, t: Tid, b: Borrow)
    requires if t in p.borrowers then Held(b) == Held(p.borrowers[t]) else Held(b) == multiset{}
    ensures Conserves(p, Move(p, t, b))
  {
    CollectPut(p.borrowers, Held, t, b);
  }

  predicate BorrowStep(e: Event) {
    e.Call? || e.GiveUp? || e.Take? || e.Inspected? || e.SendToRepair? || e.Finish? || e.SendBack?
  }

  lemma BorrowStepConserves(p: Pool, e: Event)
    requires Enabled(p, e) && BorrowStep(e)
    ensures Conserves(p, Apply(p, e)) && Apply(p, e).fixer == p.fixer
  {
    match e {
      case Call(t) => MoveConserves(p, t, Waiting);
      case GiveUp(t) => GiveUpConserves(p, t);
      case Take(t) => TakeConserves(p, t);
      case Inspected(t, running) =>
        MoveConserves(p, t, if running then Using(p.borrowers[t].h) else Demoting(p.borrowers[t].h));
      case SendToRepair(t) => SendToRepairConserves(p, t);
      case Finish(t) => MoveConserves(p, t, Returning(p.borrowers[t].h));
      case SendBack(t) => SendBackConserves(p, t);
    }
  }

  lemma InspectFailsLoses(p: Pool, t: Tid)
    requires Enabled(p, InspectFails(t))
    ensures Loses(p, Apply(p, InspectFails(t)), p.borrowers[t].h)
  {
    CollectSplit(p.borrowers, Held, t);
  }

  lemma ChangesPlace(a: multiset<Handle>, b: multiset<Handle>, c: multiset<Handle>, x: multiset<Handle>)
    ensures a + (x + b) + c + multiset{} == a + b + c + x
  {
  }

  lemma FixTakesConserves(p: Pool)
    requires Enabled(p, FixTakes)
    ensures Conserves(p, Apply(p, FixTakes))
  {
    HeadTail(p.repair);
    ChangesPlace(multiset(p.workers), multiset(p.repair[1..]), Collect(p.borrowers, Held), multiset{p.repair[0]});
  }

  lemma FixSendConserves(p: Pool, e: Event)
    requires Enabled(p, e) && (e.FixSendsNew? || e.FixSendsRepair? || (e.FixSendsWorker? && !p.fixer.broken))
    ensures Conserves(p, Apply(p, e))
  {
  }

  lemma ConservingKeeps(p: Pool, p': Pool)
    requires PoolInv(p) && Conserves(p, p')
    requires p'.fixer.Replacing? ==> p.fixer.Replacing?
    requires p'.fixer.Promoting? ==> !p'.fixer.broken
    ensures PoolInv(p')
  {
  }

  lemma LosingKeeps(p: Pool, p': Pool, h: Handle)
    requires PoolInv(p) && Loses(p, p', h)
    requires p'.fixer.Promoting? ==> !p'.fixer.broken
    ensures PoolInv(p') && |Circulating(p)| == |Circulating(p')| + 1
  {
    assert |Circulating(p)| == |Circulating(p')| + 1;
  }

  /** The new handle is the next one. */
  lemma LaunchEffect(p: Pool)
    requires Enabled(p, FixStarts(true))
    ensures var p' := Apply(p, FixStarts(true));
            && Circulating(p') == Circulating(p) + multiset{p.made}
            && p'.lost == p.lost && p'.made == p.made + 1 && p'.cap == p.cap
  {
  }

  lemma MadeOneMore(circulating: multiset<Handle>, lost: multiset<Handle>, made: nat)
    requires circulating + lost == FirstHandles(made)
    ensures (circulating + multiset{made}) + lost == FirstHandles(made + 1)
    ensures |circulating + multiset{made}| == |circulating| + 1
  {
    assert (circulating + multiset{made}) + lost == (circulating + lost) + multiset{made};
  }

  /** The place kept for the new handle is enough for it. */
  lemma LaunchKeeps(p: Pool, p': Pool)
    requires OnePlaceEach(p) && |Circulating(p)| + 1 <= p.cap && !p'.fixer.Replacing? && !p'.fixer.Promoting?
    requires Circulating(p') == Circulating(p) + multiset{p.made}
    requires p'.lost == p.lost && p'.made == p.made + 1 && p'.cap == p.cap
    ensures PoolInv(p')
  {
    MadeOneMore(Circulating(p), p.lost, p.made);
  }

  /** The reserved place goes to the new container, or is given up. */
  lemma StartingKeeps(p: Pool, up: bool)
    requires PoolInv(p) && Enabled(p, FixStarts(up))
    ensures PoolInv(Apply(p, FixStarts(up)))
    ensures Strength(p) == Strength(Apply(p, FixStarts(up))) + LossOf(FixStarts(up))
  {
    if up {
      LaunchEffect(p);
      LaunchKeeps(p, Apply(p, FixStarts(true)));
      MadeOneMore(Circulating(p), p.lost, p.made);
    } else {
      ConservingKeeps(p, Apply(p, FixStarts(false)));
    }
  }

  lemma FixInspectedConserves(p: Pool, st: Status)
    requires Enabled(p, FixInspected(st)) && (st.running || st.Broken())
    ensures Conserves(p, Apply(p, FixInspected(st)))
  {
  }

  lemma FixInspectedLoses(p: Pool, st: Status)
    requires Enabled(p, FixInspected(st)) && !st.running && !st.Broken()
    ensures Loses(p, Apply(p, FixInspected(st)), p.fixer.h)
  {
  }

  lemma FixInspectedKeeps(p: Pool, st: Status)
    requires PoolInv(p) && Enabled(p, FixInspected(st)) && SingleStatus(FixInspected(st))
    ensures PoolInv(Apply(p, FixInspected(st)))
    ensures Strength(p) == Strength(Apply(p, FixInspected(st))) + LossOf(FixInspected(st))
  {
    if st.running || st.Broken() {
      FixInspectedConserves(p, st);
      ConservingKeeps(p, Apply(p, FixInspected(st)));
    } else {
      FixInspectedLoses(p, st);
      LosingKeeps(p, Apply(p, FixInspected(st)), p.fixer.h);
    }
  }

  lemma FixerStepConserves(p: Pool, e: Event)
    requires PoolInv(p) && Enabled(p, e) && !BorrowStep(e)
    requires !e.InspectFails? && !e.FixInspectFails? && !e.FixStarts? && !e.FixInspected?
    ensures Conserves(p, Apply(p, e))
    ensures Apply(p, e).fixer.Replacing? || Apply(p, e).fixer.Promoting? ==> Apply(p, e).fixer == p.fixer
    ensures p.fixer.Replacing? ==> Apply(p, e).fixer == p.fixer
  {
    if e.FixTakes? {
      FixTakesConserves(p);
    } else if e.FixSendsNew? || e.FixSendsWorker? || e.FixSendsRepair? {
      FixSendConserves(p, e);
    }
  }

  lemma QuietStepKeeps(p: Pool, e: Event)
    requires PoolInv(p) && Enabled(p, e)
    requires !e.InspectFails? && !e.FixInspectFails? && !e.FixStarts? && !e.FixInspected?
    ensures PoolInv(Apply(p, e)) && Apply(p, e).cap == p.cap
    ensures Strength(Apply(p, e)) == Strength(p)
  {
    if BorrowStep(e) {
      BorrowStepConserves(p, e);
    } else {
      FixerStepConserves(p, e);
    }
    ConservingKeeps(p, Apply(p, e));
  }

  lemma FixInspectFailsLoses(p: Pool)
    requires Enabled(p, FixInspectFails)
    ensures Loses(p, Apply(p, FixInspectFails), p.fixer.h)
  {
  }

  lemma InspectionFailureKeeps(p: Pool, e: Event)
    requires PoolInv(p) && Enabled(p, e) && (e.InspectFails? || e.FixInspectFails?)
    ensures PoolInv(Apply(p, e)) && Apply(p, e).cap == p.cap
    ensures Strength(p) == Strength(Apply(p, e)) + LossOf(e)
  {
    if e.InspectFails? {
      InspectFailsLoses(p, e.t);
      LosingKeeps(p, Apply(p, e), p.borrowers[e.t].h);
    } else {
      FixInspectFailsLoses(p);
      LosingKeeps(p, Apply(p, e), p.fixer.h);
    }
  }

  lemma StepKeepsPool(p: Pool, e: Event)
    requires PoolInv(p) && Enabled(p, e) && SingleStatus(e)
    ensures PoolInv(Apply(p, e)) && Apply(p, e).cap == p.cap
    ensures Strength(p) == Strength(Apply(p, e)) + LossOf(e)
  {
    if e.InspectFails? || e.FixInspectFails? {
      InspectionFailureKeeps(p, e);
    } else if e.FixStarts? {
      StartingKeeps(p, e.up);
    } else if e.FixInspected? {
      FixInspectedKeeps(p, e.st);
    } else {
      QuietStepKeeps(p, e);
    }
  }

  lemma {:induction false} RunKeepsPool(p: Pool, es: seq<Event>, p': Pool)
    requires PoolInv(p) && SingleStatuses(es) && Executes(p, es, p')
    ensures PoolInv(p') && p'.cap == p.cap
    ensures Strength(p) == Strength(p') + Losses(es)
    decreases |es|
  {
    if es != [] {
      assert SingleStatus(es[0]);
      assert SingleStatuses(es[1..]) by {
        forall i | 0 <= i < |es[1..]| ensures SingleStatus(es[1..][i]) { assert es[1..][i] == es[i + 1]; }
      }
      StepKeepsPool(p, es[0]);
      RunKeepsPool(Apply(p, es[0]), es[1..], p');
    }
  }

  lemma {:induction false} Upto(n: nat)
    ensures multiset(seq<Handle>(n, i => i)) == FirstHandles(n)
  {
    if n > 0 {
      Upto(n - 1);
      assert seq<Handle>(n, i => i) == seq<Handle>(n - 1, i => i) + [n - 1];
    }
  }

  lemma InitialPool(cap: nat)
    ensures PoolInv(Initial(cap)) && Strength(Initial(cap)) == cap
  {
    var p := Initial(cap);
    Upto(cap);
    FirstHandlesOnce(cap, 0);
    assert Collect(p.borrowers, Held) == multiset{};
    assert Circulating(p) == multiset(p.workers);
  }

  // ----- what conservation gives the callers -----

  predicate Lent(p: Pool, t: Tid, h: Handle) { t in p.borrowers && h in Held(p.borrowers[t]) }

  /** Nobody holds a handle that somebody else holds or that a channel holds. */
  lemma HandlesAreApart(p: Pool, t: Tid, u: Tid, h: Handle)
    requires PoolInv(p) && Lent(p, t, h)
    ensures h !in p.workers && h !in p.repair && h !in InRepair(p.fixer) && h !in p.lost
    ensures Lent(p, u, h) ==> t == u
  {
    FirstHandlesOnce(p.made, h);
    CollectSplit(p.borrowers, Held, t);
    assert (Circulating(p) + p.lost)[h] <= 1;
    assert Collect(p.borrowers, Held)[h] >= 1;
    assert h in p.workers ==> multiset(p.workers)[h] >= 1;
    assert h in p.repair ==> multiset(p.repair)[h] >= 1;
    if Lent(p, u, h) && t != u { CollectPair(p.borrowers, Held, t, u); }
  }

  lemma NeverTwiceInChannels(p: Pool, i: nat, j: nat)
    requires PoolInv(p)
    ensures i < j < |p.workers| ==> p.workers[i] != p.workers[j]
    ensures i < |p.workers| && j < |p.repair| ==> p.workers[i] != p.repair[j]
  {
    if i < j < |p.workers| && p.workers[i] == p.workers[j] {
      FirstHandlesOnce(p.made, p.workers[i]);
      TwicePresent(p.workers, i, j);
    }
    if i < |p.workers| && j < |p.repair| {
      FirstHandlesOnce(p.made, p.workers[i]);
      assert multiset(p.workers)[p.workers[i]] >= 1;
      assert p.repair[j] in multiset(p.repair);
    }
  }

  /**
   * In every reachable state every handle ever created is at exactly one place, no worker is lent to two callers or
   * waits in two places, and the pool has as many workers, counting the one being started, as were configured, less
   * one for each loss: it is at full strength exactly when nothing was ever lost.
   */
  lemma HandlesAreConserved(cap: nat, es: seq<Event>, p: Pool)
    requires Executes(Initial(cap), es, p) && SingleStatuses(es)
    ensures forall h: Handle :: (Circulating(p) + p.lost)[h] == FirstHandles(p.made)[h] <= 1
    ensures forall t, u, h :: Lent(p, t, h) && Lent(p, u, h) ==> t == u
    ensures forall t, h :: Lent(p, t, h) ==> h !in p.workers && h !in p.repair
    ensures forall i, j :: 0 <= i < j < |p.workers| ==> p.workers[i] != p.workers[j]
    ensures forall i, j :: 0 <= i < |p.workers| && 0 <= j < |p.repair| ==> p.workers[i] != p.repair[j]
    ensures |Circulating(p)| + (if p.fixer.Replacing? then 1 else 0) == cap - Losses(es)
  {
    InitialPool(cap);
    RunKeepsPool(Initial(cap), es, p);
    forall i, j | 0 <= i < j < |p.workers| ensures p.workers[i] != p.workers[j] { NeverTwiceInChannels(p, i, j); }
    forall i, j | 0 <= i < |p.workers| && 0 <= j < |p.repair| ensures p.workers[i] != p.repair[j] {
      NeverTwiceInChannels(p, i, j);
    }
    forall h: Handle ensures FirstHandles(p.made)[h] <= 1 { FirstHandlesOnce(p.made, h); }
    forall t, u, h | Lent(p, t, h) && Lent(p, u, h) ensures t == u { HandlesAreApart(p, t, u, h); }
    forall t, h | Lent(p, t, h) ensures h !in p.workers && h !in p.repair { HandlesAreApart(p, t, t, h); }
  }

  // ----- a pool that has lost all its workers -----

  /** Nothing circulates, and no container is being started. */
  ghost predicate Spent(p: Pool) {
    && p.workers == [] && p.repair == [] && (p.fixer.Idle? || p.fixer.Stopped?)
    && forall t :: t in p.borrowers ==> p.borrowers[t].Waiting?
  }

  lemma StrengthIsSpent(p: Pool)
    ensures Strength(p) == 0 ==> Spent(p)
  {
    if Strength(p) == 0 {
      assert Circulating(p) == multiset{};
      assert multiset(p.workers) == multiset{} && multiset(p.repair) == multiset{};
      assert |p.workers| == |multiset(p.workers)| && |p.repair| == |multiset(p.repair)|;
      forall t | t in p.borrowers ensures p.borrowers[t].Waiting? { CollectSplit(p.borrowers, Held, t); }
    }
  }

  lemma {:induction false} SpentForEver(p: Pool, es: seq<Event>, p': Pool)
    requires Spent(p) && Executes(p, es, p')
    ensures Spent(p')
    decreases |es|
  {
    if es != [] { SpentForEver(Apply(p, es[0]), es[1..], p'); }
  }

  /** As many losses as workers: from then on no caller ever gets one, whatever happens and for however long. */
  lemma LostPoolServesNobody(cap: nat, es: seq<Event>, p: Pool, more: seq<Event>, p': Pool)
    requires Executes(Initial(cap), es, p) && SingleStatuses(es) && Losses(es) == cap
    requires Executes(p, more, p')
    ensures forall t :: t in p'.borrowers ==> p'.borrowers[t].Waiting?
  {
    InitialPool(cap);
    RunKeepsPool(Initial(cap), es, p);
    StrengthIsSpent(p);
    SpentForEver(p, more, p');
  }

  /** The pool after its first `n` workers were lost to failed inspections. */
  ghost function LostFirst(cap: nat, n: nat): Pool
    requires n <= cap
  {
    Initial(cap).(workers := seq(cap, i => i)[n..], lost := FirstHandles(n))
  }

  /** One caller comes, takes the next worker and drops it. */
  lemma OneMoreIsLost(cap: nat, n: nat)
    requires n < cap
    ensures Executes(LostFirst(cap, n), [Call(1), Take(1), InspectFails(1)], LostFirst(cap, n + 1))
    ensures Losses([Call(1), Take(1), InspectFails(1)]) == 1
  {
    var p := LostFirst(cap, n);
    var a := p.(borrowers := map[1 := Waiting]);
    var b := p.(workers := p.workers[1..], borrowers := map[1 := Inspecting(n)]);
    assert Apply(p, Call(1)) == a && a.workers[0] == n && a.borrowers[1 := Inspecting(n)] == b.borrowers;
    assert Apply(a, Take(1)) == b && b.borrowers - {1} == map[];
    assert p.workers[1..] == seq(cap, i => i)[n + 1..];
    assert Apply(b, InspectFails(1)) == LostFirst(cap, n + 1);
    var es := [Call(1), Take(1), InspectFails(1)];
    assert es[1..] == [Take(1), InspectFails(1)] && es[1..][1..] == [InspectFails(1)] && es[1..][1..][1..] == [];
    assert Executes(b, [InspectFails(1)], LostFirst(cap, n + 1));
    assert Executes(a, [Take(1), InspectFails(1)], LostFirst(cap, n + 1));
  }

  lemma {:induction false} LossesAdd(es: seq<Event>, fs: seq<Event>)
    ensures Losses(es + fs) == Losses(es) + Losses(fs)
  {
    if es == [] {
      assert es + fs == fs;
    } else {
      LossesAdd(es[1..], fs);
      assert (es + fs)[0] == es[0] && (es + fs)[1..] == es[1..] + fs;
    }
  }

  /** A run that has cost the pool its first `n` workers. */
  ghost predicate LosesFirst(cap: nat, n: nat, es: seq<Event>)
    requires n <= cap
  {
    Executes(Initial(cap), es, LostFirst(cap, n)) && SingleStatuses(es) && Losses(es) == n
  }

  lemma LosesNext(cap: nat, n: nat, es: seq<Event>)
    requires n < cap && LosesFirst(cap, n, es)
    ensures LosesFirst(cap, n + 1, es + [Call(1), Take(1), InspectFails(1)])
  {
    var more := [Call(1), Take(1), InspectFails(1)];
    OneMoreIsLost(cap, n);
    Continue(Initial(cap), es, LostFirst(cap, n), more, LostFirst(cap, n + 1));
    LossesAdd(es, more);
  }

  /** However many workers a pool has, so many failed inspections leave it without any. */
  lemma PoolCanLoseAll(cap: nat) returns (es: seq<Event>, p: Pool)
    ensures Executes(Initial(cap), es, p) && SingleStatuses(es) && Losses(es) == cap && Spent(p)
  {
    es, p := [], LostFirst(cap, cap);
    assert seq<Handle>(cap, i => i)[0..] == seq<Handle>(cap, i => i);
    for n := 0 to cap
      invariant LosesFirst(cap, n, es)
    {
      LosesNext(cap, n, es);
      es := es + [Call(1), Take(1), InspectFails(1)];
    }
  }

  // ----- sends always find room -----

  /** Some thread stands before a send. */
  predicate BorrowerSends(p: Pool, t: Tid) {
    t in p.borrowers && (p.borrowers[t].Demoting? || p.borrowers[t].Returning?)
  }

  predicate FixerSends(p: Pool) { p.fixer.Launched? || p.fixer.Promoting? || p.fixer.Requeueing? }

  lemma FixerHasRoom(p: Pool)
    requires PoolInv(p) && FixerSends(p)
    ensures Room(p, p.workers) && Room(p, p.repair)
  {
    HolderLeavesRoom(p, InRepair(p.fixer), Collect(p.borrowers, Held));
  }

  lemma BorrowerHasRoom(p: Pool, t: Tid)
    requires PoolInv(p) && BorrowerSends(p, t)
    ensures Room(p, p.workers) && Room(p, p.repair)
  {
    CollectSplit(p.borrowers, Held, t);
    HolderLeavesRoom(p, Held(p.borrowers[t]), Collect(p.borrowers - {t}, Held) + InRepair(p.fixer));
  }

  lemma BorrowerCanSend(p: Pool, t: Tid)
    requires PoolInv(p) && t in p.borrowers
    ensures p.borrowers[t].Demoting? ==> Enabled(p, SendToRepair(t))
    ensures p.borrowers[t].Returning? ==> Enabled(p, SendBack(t))
  {
    if BorrowerSends(p, t) { BorrowerHasRoom(p, t); }
  }

  /** Whoever stands before a send finds room in the channel, so the send is enabled. */
  lemma SendersHaveRoom(cap: nat, es: seq<Event>, p: Pool)
    requires Executes(Initial(cap), es, p) && SingleStatuses(es)
    ensures FixerSends(p) ==> Room(p, p.workers) && Room(p, p.repair)
    ensures forall t :: t in p.borrowers && p.borrowers[t].Demoting? ==> Enabled(p, SendToRepair(t))
    ensures forall t :: t in p.borrowers && p.borrowers[t].Returning? ==> Enabled(p, SendBack(t))
  {
    InitialPool(cap);
    RunKeepsPool(Initial(cap), es, p);
    if FixerSends(p) { FixerHasRoom(p); }
    forall t | t in p.borrowers && p.borrowers[t].Demoting? ensures Enabled(p, SendToRepair(t)) {
      BorrowerCanSend(p, t);
    }
    forall t | t in p.borrowers && p.borrowers[t].Returning? ensures Enabled(p, SendBack(t)) {
      BorrowerCanSend(p, t);
    }
  }

  /** One handle outside the channels leaves room in both. */
  lemma HolderLeavesRoom(p: Pool, x: multiset<Handle>, rest: multiset<Handle>)
    requires PoolInv(p) && |x| == 1
    requires Circulating(p) == multiset(p.workers) + multiset(p.repair) + x + rest
    ensures Room(p, p.workers) && Room(p, p.repair) && |p.workers| + |p.repair| < p.cap
  {
    assert |Circulating(p)| == |p.workers| + |p.repair| + 1 + |rest|;
  }

  // ----- the repair loop comes back to its select -----

  /** Steps the loop is away from its `select`. */
  function Away(f: Fixer): nat {
    match f
    case Idle => 0
    case Stopped => 0
    case Checking(_) => 3
    case Replacing => 2
    case Launched(_) => 1
    case Promoting(_, b) => if b then 2 else 1
    case Requeueing(_) => 1
  }

  predicate FixStep(e: Event) {
    || e.FixInspectFails? || e.FixStarts? || e.FixSendsNew? || e.FixInspected? || e.FixSendsWorker? || e.FixSendsRepair?
  }

  lemma FixerCanMove(p: Pool) returns (e: Event)
    requires PoolInv(p) && Away(p.fixer) > 0
    ensures FixStep(e) && SingleStatus(e) && Enabled(p, e)
  {
    if FixerSends(p) { FixerHasRoom(p); }
    match p.fixer {
      case Checking(_) => e := FixInspectFails;
      case Replacing => e := FixStarts(false);
      case Launched(_) => e := FixSendsNew;
      case Promoting(_, _) => e := FixSendsWorker;
      case Requeueing(_) => e := FixSendsRepair;
    }
  }

  lemma FixStepComesNearer(p: Pool, e: Event)
    requires Enabled(p, e) && !e.FixTakes?
    ensures if FixStep(e) then Away(Apply(p, e).fixer) < Away(p.fixer) else Away(Apply(p, e).fixer) == Away(p.fixer)
  {
  }

  /** Away from its `select` the repair loop can always move, and every move brings it nearer. */
  lemma RepairLoopComesBack(cap: nat, es: seq<Event>, p: Pool)
    requires Executes(Initial(cap), es, p) && SingleStatuses(es)
    ensures Away(p.fixer) > 0 ==> exists e :: FixStep(e) && SingleStatus(e) && Enabled(p, e)
    ensures forall e :: FixStep(e) && Enabled(p, e) ==> Away(Apply(p, e).fixer) < Away(p.fixer)
    ensures forall e :: !FixStep(e) && !e.FixTakes? && Enabled(p, e) ==> Away(Apply(p, e).fixer) == Away(p.fixer)
  {
    InitialPool(cap);
    RunKeepsPool(Initial(cap), es, p);
    if Away(p.fixer) > 0 {
      var e := FixerCanMove(p);
    }
    forall e | Enabled(p, e) && !e.FixTakes?
      ensures if FixStep(e) then Away(Apply(p, e).fixer) < Away(p.fixer) else Away(Apply(p, e).fixer) == Away(p.fixer)
    {
      FixStepComesNearer(p, e);
    }
  }

  // ----- a container that is running and paused -----

  /** The channels that get the handle being checked have room for it. */
  predicate InfoFits(p: Pool, st: Status) {
    p.fixer.Checking? && (st.running ==> Room(p, p.workers)) && (st.Broken() ==> Room(p, p.repair))
  }

  /** processWorkerInfo, both `if`s of it, for the handle being checked: what each channel receives. */
  function ProcessInfo(p: Pool, st: Status): Pool
    requires InfoFits(p, st)
  {
    var a := Apply(p, FixInspected(st));
    var b := if a.fixer.Promoting? then Apply(a, FixSendsWorker) else a;
    if b.fixer.Requeueing? then Apply(b, FixSendsRepair) else b
  }

  lemma ProcessInfoOutcome(p: Pool, st: Status)
    requires InfoFits(p, st)
    ensures var p', h := ProcessInfo(p, st), p.fixer.h;
            && p'.workers == (if st.running then p.workers + [h] else p.workers)
            && p'.repair == (if st.Broken() then p.repair + [h] else p.repair)
            && p'.lost == (if st.running || st.Broken() then p.lost else p.lost + multiset{h})
            && p'.fixer == Idle && p'.borrowers == p.borrowers && p'.made == p.made
  {
  }

  /**
   * The exact condition: processing an inspection keeps every handle at one place if and only if it does not say
   * both running and broken. If it does, the handle ends up in both channels.
   */
  lemma ProcessInfoConservesIff(p: Pool, st: Status)
    requires OnePlaceEach(p) && InfoFits(p, st)
    ensures OnePlaceEach(ProcessInfo(p, st)) <==> !(st.running && st.Broken())
  {
    ProcessInfoOutcome(p, st);
    if st.running && st.Broken() {
      DoubleSendDuplicates(p, ProcessInfo(p, st), p.fixer.h);
    } else {
      SingleSendConserves(p, ProcessInfo(p, st), st);
    }
  }

  lemma DoubleSendDuplicates(p: Pool, p': Pool, h: Handle)
    requires OnePlaceEach(p) && InRepair(p.fixer) == multiset{h} && p'.fixer == Idle
    requires p'.workers == p.workers + [h] && p'.repair == p.repair + [h]
    requires p'.borrowers == p.borrowers && p'.lost == p.lost && p'.made == p.made
    ensures !OnePlaceEach(p')
  {
    assert |Circulating(p')| == |Circulating(p)| + 1;
    assert |Circulating(p') + p'.lost| == |Circulating(p) + p.lost| + 1;
  }

  lemma SingleSendConserves(p: Pool, p': Pool, st: Status)
    requires OnePlaceEach(p) && p.fixer.Checking? && p'.fixer == Idle && !(st.running && st.Broken())
    requires p'.workers == if st.running then p.workers + [p.fixer.h] else p.workers
    requires p'.repair == if st.Broken() then p.repair + [p.fixer.h] else p.repair
    requires p'.lost == if st.running || st.Broken() then p.lost else p.lost + multiset{p.fixer.h}
    requires p'.borrowers == p.borrowers && p'.made == p.made
    ensures OnePlaceEach(p')
  {
    assert Circulating(p') + p'.lost == Circulating(p) + p.lost;
  }

  lemma Prepend(p: Pool, e: Event, es: seq<Event>, p': Pool)
    requires Enabled(p, e) && Executes(Apply(p, e), es, p')
    ensures Executes(p, [e] + es, p')
  {
    assert ([e] + es)[1..] == es;
  }

  /** A pool of one worker, as the examples below visit it. */
  function One(workers: seq<Handle>, repair: seq<Handle>, borrowers: map<Tid, Borrow>, fixer: Fixer): Pool {
    Pool(1, workers, repair, borrowers, fixer, 1, multiset{}, false, false)
  }

  /** A caller finds the worker not running and hands it to the repair loop. */
  lemma RepairIsReachable() returns (es: seq<Event>)
    ensures Executes(Initial(1), es, One([], [], map[1 := Waiting], Checking(0)))
  {
    var end := One([], [], map[1 := Waiting], Checking(0));
    assert Apply(One([], [0], map[1 := Waiting], Idle), FixTakes) == end;
    Prepend(One([], [0], map[1 := Waiting], Idle), FixTakes, [], end);
    Prepend(One([], [], map[1 := Demoting(0)], Idle), SendToRepair(1), [FixTakes], end);
    es := [SendToRepair(1)] + [FixTakes];
    Prepend(One([], [], map[1 := Inspecting(0)], Idle), Inspected(1, false), es, end);
    es := [Inspected(1, false)] + es;
    assert Apply(One([0], [], map[1 := Waiting], Idle), Take(1)) == One([], [], map[1 := Inspecting(0)], Idle);
    Prepend(One([0], [], map[1 := Waiting], Idle), Take(1), es, end);
    es := [Take(1)] + es;
    assert Initial(1).workers == [0];
    Prepend(Initial(1), Call(1), es, end);
    es := [Call(1)] + es;
  }

  /** The loop sees it running and paused: the handle is in both channels. */
  lemma PausedWorkerIsSentTwice() returns (es: seq<Event>)
    ensures Executes(One([], [], map[1 := Waiting], Checking(0)), es, One([0], [0], map[1 := Waiting], Idle))
  {
    var w := map[1 := Waiting];
    var end := One([0], [0], w, Idle);
    Prepend(One([0], [], w, Requeueing(0)), FixSendsRepair, [], end);
    Prepend(One([], [], w, Promoting(0, true)), FixSendsWorker, [FixSendsRepair], end);
    es := [FixSendsWorker] + [FixSendsRepair];
    Prepend(One([], [], w, Checking(0)), FixInspected(Status(true, true, false, false)), es, end);
    es := [FixInspected(Status(true, true, false, false))] + es;
  }

  /** Caller 1 takes it from one channel, and the repair loop moves it from the other. */
  lemma HandleIsInHandAndInChannel() returns (es: seq<Event>)
    ensures Executes(One([0], [0], map[1 := Waiting], Idle), es, One([0], [], map[1 := Inspecting(0)], Idle))
  {
    var w, i := map[1 := Waiting], map[1 := Inspecting(0)];
    var end := One([0], [], i, Idle);
    Prepend(One([], [], i, Promoting(0, false)), FixSendsWorker, [], end);
    es := [FixSendsWorker];
    Prepend(One([], [], i, Checking(0)), FixInspected(Status(true, false, false, false)), es, end);
    es := [FixInspected(Status(true, false, false, false))] + es;
    assert [0][1..] == [];
    Prepend(One([], [0], i, Idle), FixTakes, es, end);
    es := [FixTakes] + es;
    assert w[1 := Inspecting(0)] == i;
    Prepend(One([0], [0], w, Idle), Take(1), es, end);
    es := [Take(1)] + es;
  }

  /** Caller 2 takes it too. */
  lemma SecondCallerTakes() returns (es: seq<Event>)
    ensures Executes(One([0], [], map[1 := Inspecting(0)], Idle), es,
                     One([], [], map[1 := Inspecting(0), 2 := Inspecting(0)], Idle))
  {
    var i := map[1 := Inspecting(0)];
    var both := map[1 := Inspecting(0), 2 := Waiting];
    var p := One([], [], map[1 := Inspecting(0), 2 := Inspecting(0)], Idle);
    assert both[2 := Inspecting(0)] == p.borrowers && [0][1..] == [];
    Prepend(One([0], [], both, Idle), Take(2), [], p);
    assert i[2 := Waiting] == both;
    Prepend(One([0], [], i, Idle), Call(2), [Take(2)], p);
    es := [Call(2)] + [Take(2)];
  }

  /** Both are told that it runs, and use it. */
  lemma BothUse() returns (es: seq<Event>, p: Pool)
    ensures Executes(One([], [], map[1 := Inspecting(0), 2 := Inspecting(0)], Idle), es, p)
    ensures At(p, 1, Using(0)) && At(p, 2, Using(0))
  {
    var a, b := map[1 := Inspecting(0), 2 := Inspecting(0)], map[1 := Using(0), 2 := Inspecting(0)];
    p := One([], [], map[1 := Using(0), 2 := Using(0)], Idle);
    assert b[2 := Using(0)] == p.borrowers && a[1 := Using(0)] == b;
    Prepend(One([], [], b, Idle), Inspected(2, true), [], p);
    Prepend(One([], [], a, Idle), Inspected(1, true), [Inspected(2, true)], p);
    es := [Inspected(1, true)] + [Inspected(2, true)];
  }

  lemma {:induction false} Continue(p: Pool, es: seq<Event>, q: Pool, fs: seq<Event>, r: Pool)
    requires Executes(p, es, q) && Executes(q, fs, r)
    ensures Executes(p, es + fs, r)
    decreases |es|
  {
    if es == [] {
      assert es + fs == fs;
    } else {
      Continue(Apply(p, es[0]), es[1..], q, fs, r);
      assert (es + fs)[0] == es[0] && (es + fs)[1..] == es[1..] + fs;
    }
  }

  /** Without the condition on statuses two callers can use the only worker of a pool at once. */
  lemma PausedWorkerIsLentTwice() returns (es: seq<Event>, p: Pool)
    ensures Executes(Initial(1), es, p) && At(p, 1, Using(0)) && At(p, 2, Using(0))
  {
    var es1 := RepairIsReachable();
    var es2 := PausedWorkerIsSentTwice();
    var es3 := HandleIsInHandAndInChannel();
    var es4 := SecondCallerTakes();
    var es5;
    es5, p := BothUse();
    var s1, s2 := One([], [], map[1 := Waiting], Checking(0)), One([0], [0], map[1 := Waiting], Idle);
    var s3 := One([0], [], map[1 := Inspecting(0)], Idle);
    var s4 := One([], [], map[1 := Inspecting(0), 2 := Inspecting(0)], Idle);
    Continue(Initial(1), es1, s1, es2, s2);
    Continue(Initial(1), es1 + es2, s2, es3, s3);
    Continue(Initial(1), es1 + es2 + es3, s3, es4, s4);
    Continue(Initial(1), es1 + es2 + es3 + es4, s4, es5, p);
    es := es1 + es2 + es3 + es4 + es5;
  }
}
