/**
 * The watcher as the mutable object of internal/coderun/watcher.go. What a caller or the repair loop has in hand is
 * kept in `borrowers` and `fixer`; every method is a run of the machine in WorkerPool, without interference.
 */
module Watcher {
  import opened Basics
  import opened WorkerPool

  /** What a caller of `BorrowWorker` meets next: the deadline, or an inspection's answer. */
  datatype Answer = DeadlinePassed | InspectionError | Container(running: bool)

  datatype BorrowError = NoRunningWorker | InspectionFailed

  /** What the repair loop's inspection answers: an error, after which a new container may come up, or a status. */
  datatype Inspection = Unknown(up: bool) | Known(st: Status) {
    predicate Single() { Known? ==> !(st.running && st.Broken()) }

    /** The round sends a handle to the workers channel. */
    predicate Sends() { match this case Unknown(up) => up case Known(st) => st.running }
  }

  ghost predicate AllSingle(found: seq<Inspection>) { forall i :: 0 <= i < |found| ==> found[i].Single() }

  lemma AllSingleSnoc(found: seq<Inspection>, n: nat)
    requires n < |found|
    ensures AllSingle(found[..n + 1]) <==> AllSingle(found[..n]) && found[n].Single()
  {
    assert found[..n + 1] == found[..n] + [found[n]];
  }

  // ----- the runs -----

  lemma OneStep(p: Pool, a: Event, p': Pool)
    requires Enabled(p, a) && p' == Apply(p, a)
    ensures Executes(p, [a], p')
  {
    assert [a][1..] == [] && Executes(p', [], p');
  }

  lemma TwoSteps(p: Pool, a: Event, m: Pool, b: Event, p': Pool)
    requires Enabled(p, a) && m == Apply(p, a) && Enabled(m, b) && p' == Apply(m, b)
    ensures Executes(p, [a, b], p')
  {
    OneStep(m, b, p');
    assert [a, b][1..] == [b];
  }

  lemma ThreeSteps(p: Pool, a: Event, m: Pool, b: Event, n: Pool, c: Event, p': Pool)
    requires Enabled(p, a) && m == Apply(p, a) && Enabled(m, b) && n == Apply(m, b)
    requires Enabled(n, c) && p' == Apply(n, c)
    ensures Executes(p, [a, b, c], p')
  {
    TwoSteps(m, b, n, c, p');
    assert [a, b, c][1..] == [b, c];
  }

  /** A waiting caller takes the first handle. */
  lemma TakeEffect(p: Pool, t: Tid)
    requires At(p, t, Waiting) && p.workers != []
    ensures Enabled(p, Take(t))
    ensures Apply(p, Take(t))
         == p.(workers := p.workers[1..], borrowers := p.borrowers[t := Inspecting(p.workers[0])])
  {
  }

  /** It finds that the container does not run, and sends the handle on. */
  function DemoteEvents(t: Tid): seq<Event> { [Take(t), Inspected(t, false), SendToRepair(t)] }

  lemma Demotes(p: Pool, t: Tid)
    requires At(p, t, Waiting) && p.workers != [] && |p.workers| + |p.repair| <= p.cap
    ensures Executes(p, DemoteEvents(t), p.(workers := p.workers[1..], repair := p.repair + [p.workers[0]]))
  {
    var h := p.workers[0];
    TakeEffect(p, t);
    var a := p.(workers := p.workers[1..], borrowers := p.borrowers[t := Inspecting(h)]);
    var b := a.(borrowers := p.borrowers[t := Demoting(h)]);
    assert a.borrowers[t := Demoting(h)] == b.borrowers && b.borrowers[t := Waiting] == p.borrowers;
    assert Enabled(a, Inspected(t, false)) && Apply(a, Inspected(t, false)) == b;
    assert Enabled(b, SendToRepair(t));
    ThreeSteps(p, Take(t), a, Inspected(t, false), b, SendToRepair(t), Apply(b, SendToRepair(t)));
  }

  lemma PairLosses(a: Event, b: Event)
    ensures SingleStatuses([a, b]) <==> SingleStatus(a) && SingleStatus(b)
    ensures Losses([a]) == LossOf(a) && Losses([a, b]) == LossOf(a) + LossOf(b)
  {
    assert [a, b][1..] == [b] && [a][1..] == [] && [b][1..] == [];
    assert SingleStatuses([a, b]) ==> SingleStatus([a, b][0]) && SingleStatus([a, b][1]);
  }

  lemma JoinLosses(es: seq<Event>, fs: seq<Event>)
    ensures Losses(es + fs) == Losses(es) + Losses(fs)
    ensures SingleStatuses(es + fs) <==> SingleStatuses(es) && SingleStatuses(fs)
  {
    LossesAdd(es, fs);
    if SingleStatuses(es + fs) {
      forall i | 0 <= i < |es| ensures SingleStatus(es[i]) { assert (es + fs)[i] == es[i]; }
      forall i | 0 <= i < |fs| ensures SingleStatus(fs[i]) { assert (es + fs)[|es| + i] == fs[i]; }
    }
  }

  lemma GoesOn(p: Pool, es: seq<Event>, m: Pool, fs: seq<Event>, p': Pool)
    requires Executes(p, es, m) && Executes(m, fs, p')
    ensures Executes(p, es + fs, p') && Losses(es + fs) == Losses(es) + Losses(fs)
    ensures SingleStatuses(es + fs) <==> SingleStatuses(es) && SingleStatuses(fs)
  {
    Continue(p, es, m, fs, p');
    JoinLosses(es, fs);
  }

  /** It does so with the first `k` handles. */
  function DemoteAll(t: Tid, k: nat): seq<Event> { if k == 0 then [] else DemoteAll(t, k - 1) + DemoteEvents(t) }

  function Demoted(p: Pool, k: nat): Pool
    requires k <= |p.workers|
  {
    p.(workers := p.workers[k..], repair := p.repair + p.workers[..k])
  }

  lemma DemotedMore(p: Pool, k: nat)
    requires k < |p.workers|
    ensures var m := Demoted(p, k);
            m.(workers := m.workers[1..], repair := m.repair + [m.workers[0]]) == Demoted(p, k + 1)
  {
    assert p.workers[k..][1..] == p.workers[k + 1..] && p.workers[k..][0] == p.workers[k];
    assert p.repair + p.workers[..k] + [p.workers[k]] == p.repair + p.workers[..k + 1];
  }

  lemma DemotesQuietly(t: Tid)
    ensures SingleStatuses(DemoteEvents(t)) && Losses(DemoteEvents(t)) == 0
  {
    PairLosses(Inspected(t, false), SendToRepair(t));
    assert DemoteEvents(t)[1..] == [Inspected(t, false), SendToRepair(t)];
  }

  lemma {:induction false} DemotesAll(p: Pool, t: Tid, k: nat)
    requires At(p, t, Waiting) && k <= |p.workers| && |p.workers| + |p.repair| <= p.cap
    ensures Executes(p, DemoteAll(t, k), Demoted(p, k))
    ensures SingleStatuses(DemoteAll(t, k)) && Losses(DemoteAll(t, k)) == 0
  {
    if k == 0 {
      assert Demoted(p, 0) == p;
    } else {
      var m := Demoted(p, k - 1);
      DemotesAll(p, t, k - 1);
      Demotes(m, t);
      DemotedMore(p, k - 1);
      DemotesQuietly(t);
      GoesOn(p, DemoteAll(t, k - 1), m, DemoteEvents(t), Demoted(p, k));
    }
  }

  /** It finds that the container runs. */
  lemma Succeeds(p: Pool, t: Tid)
    requires At(p, t, Waiting) && p.workers != []
    ensures Executes(p, [Take(t), Inspected(t, true)],
                     p.(workers := p.workers[1..], borrowers := p.borrowers[t := Using(p.workers[0])]))
  {
    var h := p.workers[0];
    TakeEffect(p, t);
    var a := p.(workers := p.workers[1..], borrowers := p.borrowers[t := Inspecting(h)]);
    assert a.borrowers[t := Using(h)] == p.borrowers[t := Using(h)];
    TwoSteps(p, Take(t), a, Inspected(t, true), Apply(a, Inspected(t, true)));
  }

  /** The inspection fails. */
  lemma Fails(p: Pool, t: Tid)
    requires At(p, t, Waiting) && p.workers != []
    ensures Executes(p, [Take(t), InspectFails(t)],
                     p.(workers := p.workers[1..], borrowers := p.borrowers - {t},
                        lost := p.lost + multiset{p.workers[0]}))
  {
    var h := p.workers[0];
    TakeEffect(p, t);
    var a := p.(workers := p.workers[1..], borrowers := p.borrowers[t := Inspecting(h)]);
    assert a.borrowers - {t} == p.borrowers - {t};
    TwoSteps(p, Take(t), a, InspectFails(t), Apply(a, InspectFails(t)));
  }

  /** A whole call of `BorrowWorker`. */
  function BorrowEvents(t: Tid, k: nat, last: seq<Event>): seq<Event> { [Call(t)] + DemoteAll(t, k) + last }

  lemma Borrows(p: Pool, t: Tid, k: nat, last: seq<Event>, p': Pool)
    requires t !in p.borrowers && k <= |p.workers| && |p.workers| + |p.repair| <= p.cap
    requires Executes(Demoted(Move(p, t, Waiting), k), last, p') && SingleStatuses(last)
    ensures Executes(p, BorrowEvents(t, k, last), p')
    ensures SingleStatuses(BorrowEvents(t, k, last)) && Losses(BorrowEvents(t, k, last)) == Losses(last)
  {
    var q := Move(p, t, Waiting);
    OneStep(p, Call(t), q);
    PairLosses(Call(t), Call(t));
    DemotesAll(q, t, k);
    GoesOn(p, [Call(t)], q, DemoteAll(t, k), Demoted(q, k));
    GoesOn(p, [Call(t)] + DemoteAll(t, k), Demoted(q, k), last, p');
  }

  /** `processWorkerInfo`: what the repair loop does with an inspected handle. */
  function InfoEvents(st: Status): seq<Event> {
    if st.running && st.Broken() then [FixInspected(st), FixSendsWorker, FixSendsRepair]
    else if st.running then [FixInspected(st), FixSendsWorker]
    else if st.Broken() then [FixInspected(st), FixSendsRepair]
    else [FixInspected(st)]
  }

  /** Where the handle in hand goes. */
  function Informed(p: Pool, st: Status): Pool
    requires p.fixer.Checking?
  {
    var h := p.fixer.h;
    p.(workers := if st.running then p.workers + [h] else p.workers,
       repair := if st.Broken() then p.repair + [h] else p.repair,
       lost := if st.running || st.Broken() then p.lost else p.lost + multiset{h},
       fixer := Idle)
  }

  lemma InfoExecutes(p: Pool, st: Status)
    requires InfoFits(p, st)
    ensures ProcessInfo(p, st) == Informed(p, st) && Executes(p, InfoEvents(st), Informed(p, st))
  {
    var a, p' := Apply(p, FixInspected(st)), ProcessInfo(p, st);
    if st.running && st.Broken() {
      ThreeSteps(p, FixInspected(st), a, FixSendsWorker, Apply(a, FixSendsWorker), FixSendsRepair, p');
    } else if st.running {
      TwoSteps(p, FixInspected(st), a, FixSendsWorker, p');
    } else if st.Broken() {
      TwoSteps(p, FixInspected(st), a, FixSendsRepair, p');
    } else {
      OneStep(p, FixInspected(st), p');
    }
  }

  lemma InfoLosses(st: Status)
    ensures Losses(InfoEvents(st)) == if st.running || st.Broken() then 0 else 1
    ensures SingleStatuses(InfoEvents(st)) <==> !(st.running && st.Broken())
  {
    var es := InfoEvents(st);
    PairLosses(FixInspected(st), FixSendsWorker);
    PairLosses(FixInspected(st), FixSendsRepair);
    PairLosses(FixSendsWorker, FixSendsRepair);
    assert es[0] == FixInspected(st);
    if st.running && st.Broken() { assert es[1..] == [FixSendsWorker, FixSendsRepair]; }
  }

  /** The handle is in one place at most afterwards, if and only if the status is not both. */
  lemma InfoKeepsPoolIff(p: Pool, st: Status)
    requires PoolInv(p) && p.fixer.Checking?
    ensures |p.workers| + |p.repair| < p.cap
    ensures PoolInv(Informed(p, st)) <==> !(st.running && st.Broken())
  {
    HolderLeavesRoom(p, InRepair(p.fixer), Collect(p.borrowers, Held));
    ProcessInfoConservesIff(p, st);
    InfoExecutes(p, st);
    InfoLosses(st);
    if !(st.running && st.Broken()) { RunKeepsPool(p, InfoEvents(st), ProcessInfo(p, st)); }
  }

  /** A container that cannot be inspected is replaced by a new one, if one comes up. */
  function ReplaceEvents(up: bool): seq<Event> {
    if up then [FixInspectFails, FixStarts(true), FixSendsNew] else [FixInspectFails, FixStarts(false)]
  }

  function Replaced(p: Pool, up: bool): Pool
    requires p.fixer.Checking?
  {
    var a := p.(fixer := Idle, lost := p.lost + multiset{p.fixer.h});
    if up then a.(workers := p.workers + [p.made], made := p.made + 1) else a
  }

  lemma ReplaceExecutes(p: Pool, up: bool)
    requires p.fixer.Checking? && (up ==> Room(p, p.workers))
    ensures Executes(p, ReplaceEvents(up), Replaced(p, up))
  {
    var a := Apply(p, FixInspectFails);
    if up {
      ThreeSteps(p, FixInspectFails, a, FixStarts(true), Apply(a, FixStarts(true)), FixSendsNew, Replaced(p, up));
    } else {
      TwoSteps(p, FixInspectFails, a, FixStarts(false), Replaced(p, up));
    }
  }

  lemma ReplaceLosses(up: bool)
    ensures SingleStatuses(ReplaceEvents(up)) && Losses(ReplaceEvents(up)) == if up then 0 else 1
  {
    PairLosses(FixInspectFails, FixStarts(false));
    PairLosses(FixStarts(true), FixSendsNew);
    if up { assert ReplaceEvents(up)[1..] == [FixStarts(true), FixSendsNew]; }
  }

  /** A whole round of the repair loop. */
  function RoundEvents(found: Inspection): seq<Event> {
    [FixTakes] + match found case Unknown(up) => ReplaceEvents(up) case Known(st) => InfoEvents(st)
  }

  /** The oldest handle of the repair channel is taken, and replaced or sent where its status says. */
  function Round(p: Pool, found: Inspection): Pool
    requires p.repair != []
  {
    var m := p.(fixer := Checking(p.repair[0]), repair := p.repair[1..]);
    match found case Unknown(up) => Replaced(m, up) case Known(st) => Informed(m, st)
  }

  lemma RoundExecutes(p: Pool, found: Inspection)
    requires p.fixer.Idle? && p.repair != [] && |p.repair| <= p.cap && (found.Sends() ==> Room(p, p.workers))
    ensures Executes(p, RoundEvents(found), Round(p, found))
  {
    var m, p' := p.(fixer := Checking(p.repair[0]), repair := p.repair[1..]), Round(p, found);
    OneStep(p, FixTakes, m);
    match found {
      case Unknown(up) =>
        ReplaceExecutes(m, up);
        Continue(p, [FixTakes], m, ReplaceEvents(up), p');
      case Known(st) =>
        InfoExecutes(m, st);
        Continue(p, [FixTakes], m, InfoEvents(st), p');
    }
  }

  /** A round costs the pool a worker if a replacement does not come up, or if the handle goes nowhere. */
  lemma RoundLosses(found: Inspection)
    ensures SingleStatuses(RoundEvents(found)) <==> found.Single()
    ensures Losses(RoundEvents(found))
         == match found case Unknown(up) => (if up then 0 else 1)
                        case Known(st) => if st.running || st.Broken() then 0 else 1
  {
    PairLosses(FixTakes, FixTakes);
    match found {
      case Unknown(up) =>
        ReplaceLosses(up);
        JoinLosses([FixTakes], ReplaceEvents(up));
      case Known(st) =>
        InfoLosses(st);
        JoinLosses([FixTakes], InfoEvents(st));
    }
  }

  lemma RoundFits(p: Pool, found: Inspection)
    requires p.repair != [] && |p.repair| <= p.cap
    ensures |Round(p, found).repair| <= p.cap && Round(p, found).fixer.Idle?
    ensures found.Single() && |p.workers| + |p.repair| <= p.cap
            ==> |Round(p, found).workers| + |Round(p, found).repair| <= p.cap
  {
  }

  lemma RoundGoesOn(p: Pool, es: seq<Event>, m: Pool, found: seq<Inspection>, n: nat, p': Pool)
    requires n < |found| && Executes(p, es, m) && Executes(m, RoundEvents(found[n]), p')
    requires SingleStatuses(es) <==> AllSingle(found[..n])
    ensures Executes(p, es + RoundEvents(found[n]), p')
    ensures SingleStatuses(es + RoundEvents(found[n])) <==> AllSingle(found[..n + 1])
  {
    RoundLosses(found[n]);
    GoesOn(p, es, m, RoundEvents(found[n]), p');
    AllSingleSnoc(found, n);
  }

  lemma RoundsKeepPool(p: Pool, es: seq<Event>, found: seq<Inspection>, k: nat, p': Pool)
    requires k <= |found| && Executes(p, es, p') && (SingleStatuses(es) <==> AllSingle(found[..k]))
    ensures PoolInv(p) && AllSingle(found[..k]) ==> PoolInv(p') && Strength(p) == Strength(p') + Losses(es)
  {
    if PoolInv(p) && AllSingle(found[..k]) { RunKeepsPool(p, es, p'); }
  }

  /** What the methods ask for is what the invariant of the pool gives. */
  lemma ChannelsFit(p: Pool, t: Tid)
    requires PoolInv(p)
    ensures |p.workers| + |p.repair| <= p.cap
    ensures t in p.borrowers && p.borrowers[t].Using? ==> |p.workers| + |p.repair| < p.cap
    ensures p.fixer.Checking? ==> |p.workers| + |p.repair| < p.cap
  {
    assert |Circulating(p)| >= |multiset(p.workers)| + |multiset(p.repair)|;
    if t in p.borrowers && p.borrowers[t].Using? {
      CollectSplit(p.borrowers, Held, t);
      HolderLeavesRoom(p, Held(p.borrowers[t]), Collect(p.borrowers - {t}, Held) + InRepair(p.fixer));
    }
    if p.fixer.Checking? { HolderLeavesRoom(p, InRepair(p.fixer), Collect(p.borrowers, Held)); }
  }

  class Watcher {
    const cap: nat
    var workers: seq<Handle>
    var repair: seq<Handle>
    var borrowers: map<Tid, Borrow>
    var fixer: Fixer
    var made: nat
    var cancelled: bool
    var closed: bool
    ghost var lost: multiset<Handle>

    ghost function Value(): Pool
      reads this
    {
      Pool(cap, workers, repair, borrowers, fixer, made, lost, cancelled, closed)
    }

    /** What the invariant of the pool says of the channels alone. */
    ghost predicate Valid()
      reads this
    {
      |workers| + |repair| <= cap
    }

    /** The repair loop does not run before `Init` has started it. */
    constructor (cap: nat)
      ensures this.cap == cap && Value() == Initial(0).(cap := cap, fixer := Stopped)
    {
      this.cap := cap;
      workers, repair, borrowers, made, lost := [], [], map[], 0, multiset{};
      fixer, cancelled, closed := Stopped, false, false;
    }

    /** `startNewWorker`: `up` says whether a port, a container and its start are to be had. */
    method StartNewWorker(up: bool) returns (ok: bool)
      requires up ==> |workers| < cap
      modifies `workers, `made
      ensures ok == up
      ensures workers == if up then old(workers) + [old(made)] else old(workers)
      ensures made == if up then old(made) + 1 else old(made)
    {
      if !up {
        return false;
      }
      workers := workers + [made];
      made := made + 1;
      return true;
    }

    /** The loop of `Init`: it stops at the first container that does not come up, and then closes the channels. */
    method Init(ups: seq<bool>) returns (ok: bool)
      requires Value() == Initial(0).(cap := cap, fixer := Stopped) && |ups| == cap
      modifies this
      ensures ok <==> forall i :: 0 <= i < cap ==> ups[i]
      ensures ok ==> Value() == Initial(cap)
      ensures !ok ==> closed && fixer.Stopped? && repair == [] && borrowers == map[]
      ensures !ok ==> workers == seq(|workers|, i => i) && |workers| == made < cap && !ups[|workers|]
    {
      assert Initial(0).workers == seq(0, j => j);
      for i := 0 to cap
        invariant workers == seq(i, j => j) && made == i && !closed
        invariant repair == [] && borrowers == map[] && fixer.Stopped? && lost == multiset{} && !cancelled
        invariant forall j :: 0 <= j < i ==> ups[j]
      {
        var up := StartNewWorker(ups[i]);
        if !up {
          Stop();
          return false;
        }
      }
      fixer := Idle;
      return true;
    }

    /** `Stop`, once the repair loop has returned. */
    method Stop()
      requires fixer.Stopped? && !closed
      modifies `closed
      ensures Enabled(old(Value()), CloseChannels) && Value() == Apply(old(Value()), CloseChannels)
    {
      closed := true;
    }

    /**
     * `BorrowWorker`: handles are taken from the front; those whose container does not run go to the repair
     * channel, which has room for each, and the first one that runs is returned. A handle whose inspection fails
     * is dropped.
     */
    method BorrowWorker(t: Tid, answers: seq<Answer>)
      returns (r: Option<Handle>, err: Option<BorrowError>, ghost k: nat, ghost es: seq<Event>)
      requires Valid() && t !in borrowers
      modifies `workers, `repair, `borrowers, `lost
      ensures Valid() && Executes(old(Value()), es, Value()) && SingleStatuses(es)
      ensures Losses(es) == if err == Some(InspectionFailed) then 1 else 0
      ensures k <= |old(workers)| && k <= |answers| && repair == old(repair) + old(workers)[..k]
      ensures forall i :: 0 <= i < k ==> answers[i] == Container(false)
      ensures r.Some? <==> err.None?
      ensures err != Some(NoRunningWorker) ==> k < |old(workers)| && workers == old(workers)[k + 1..] && k < |answers|
      ensures r.Some? ==> answers[k] == Container(true) && r.value == old(workers)[k]
      ensures borrowers == if r.Some? then old(borrowers)[t := Using(r.value)] else old(borrowers)
      ensures err == Some(InspectionFailed) ==> answers[k] == InspectionError
      ensures lost == if err == Some(InspectionFailed) then old(lost) + multiset{old(workers)[k]} else old(lost)
      ensures err == Some(NoRunningWorker) ==> workers == old(workers)[k..]
      ensures err == Some(NoRunningWorker) ==> k == |answers| || answers[k] == DeadlinePassed || workers == []
    {
      ghost var p := Value();
      borrowers := borrowers[t := Waiting];
      var n := Demote(answers);
      k := n;
      ghost var last;
      r, err, last := BorrowEnds(t, if n < |answers| then answers[n] else DeadlinePassed);
      es := BorrowEvents(t, k, last);
      Borrows(p, t, k, last, Value());
      assert p.borrowers[t := Waiting] - {t} == p.borrowers;
    }

    /** The rounds of the loop in `BorrowWorker` that find no running container. */
    method Demote(answers: seq<Answer>) returns (n: nat)
      requires Valid()
      modifies `workers, `repair
      ensures n <= |old(workers)| && n <= |answers| && Value() == Demoted(old(Value()), n)
      ensures forall i :: 0 <= i < n ==> answers[i] == Container(false)
      ensures n == |answers| || answers[n] != Container(false) || workers == []
    {
      n := 0;
      while n < |answers| && answers[n] == Container(false) && |workers| > 0
        invariant n <= |answers| && n <= |old(workers)|
        invariant workers == old(workers)[n..] && repair == old(repair) + old(workers)[..n]
        invariant forall i :: 0 <= i < n ==> answers[i] == Container(false)
        decreases |answers| - n
      {
        repair := repair + [workers[0]];  // the send does not block: there are at most `cap` handles
        workers := workers[1..];
        n := n + 1;
      }
    }

    /** What a waiting caller does when no handle is left, or the next one decides. */
    method BorrowEnds(t: Tid, answer: Answer)
      returns (r: Option<Handle>, err: Option<BorrowError>, ghost es: seq<Event>)
      requires t in borrowers && borrowers[t].Waiting? && (workers == [] || answer != Container(false))
      modifies `workers, `borrowers, `lost
      ensures Executes(old(Value()), es, Value()) && SingleStatuses(es)
      ensures Losses(es) == if err == Some(InspectionFailed) then 1 else 0
      ensures r.Some? <==> err.None?
      ensures err == Some(NoRunningWorker) <==> old(workers) == [] || answer.DeadlinePassed?
      ensures err == Some(InspectionFailed) <==> old(workers) != [] && answer.InspectionError?
      ensures r.Some? ==> r.value == old(workers)[0]
      ensures borrowers == if r.Some? then old(borrowers)[t := Using(r.value)] else old(borrowers) - {t}
      ensures workers == if err == Some(NoRunningWorker) then old(workers) else old(workers)[1..]
      ensures lost == if err == Some(InspectionFailed) then old(lost) + multiset{old(workers)[0]} else old(lost)
    {
      ghost var p := Value();
      r, err := None, None;
      PairLosses(GiveUp(t), GiveUp(t));
      PairLosses(Take(t), Inspected(t, true));
      PairLosses(Take(t), InspectFails(t));
      if answer.DeadlinePassed? || |workers| == 0 {
        err := Some(NoRunningWorker);
        borrowers := borrowers - {t};
        es := [GiveUp(t)];
        OneStep(p, GiveUp(t), Value());
      } else if answer.InspectionError? {
        Fails(p, t);
        err := Some(InspectionFailed);
        borrowers := borrowers - {t};
        lost := lost + multiset{workers[0]};
        workers := workers[1..];
        es := [Take(t), InspectFails(t)];
      } else {
        Succeeds(p, t);
        r := Some(workers[0]);
        borrowers := borrowers[t := Using(workers[0])];
        workers := workers[1..];
        es := [Take(t), Inspected(t, true)];
      }
    }

    /** `Return`: puts a borrowed handle back; while it is borrowed there is room for it. */
    method Return(t: Tid)
      requires t in borrowers && borrowers[t].Using? && |workers| + |repair| < cap
      modifies `workers, `borrowers
      ensures Valid() && Executes(old(Value()), [Finish(t), SendBack(t)], Value())
      ensures workers == old(workers) + [old(borrowers)[t].h] && borrowers == old(borrowers) - {t}
    {
      ghost var p := Value();
      var h := borrowers[t].h;
      workers := workers + [h];
      borrowers := borrowers - {t};
      assert p.borrowers[t := Returning(h)] - {t} == borrowers;
      TwoSteps(p, Finish(t), Move(p, t, Returning(h)), SendBack(t), Value());
    }

    /** `processWorkerInfo`: two independent `if`s. */
    method ProcessWorkerInfo(st: Status)
      requires InfoFits(Value(), st)
      modifies this
      ensures Executes(old(Value()), InfoEvents(st), Value())
      ensures Value() == Informed(old(Value()), st)
    {
      ghost var p := Value();
      var h := fixer.h;
      InfoExecutes(p, st);
      if st.running {
        workers := workers + [h];
      }
      if st.paused || st.oomKilled || st.dead {
        repair := repair + [h];
      }
      if !(st.running || st.Broken()) { lost := lost + multiset{h}; }
      fixer := Idle;
    }

    /**
     * One round of `repairLoop`: a handle is taken from the repair channel and inspected. A container that cannot
     * be inspected is replaced by a new one, if one comes up; a handle whose container neither runs nor is broken
     * goes nowhere.
     */
    method RepairOne(found: Inspection)
      requires fixer.Idle? && repair != [] && |repair| <= cap && (found.Sends() ==> |workers| < cap)
      modifies this
      ensures Value() == Round(old(Value()), found) && Executes(old(Value()), RoundEvents(found), Value())
    {
      ghost var p := Value();
      fixer, repair := Checking(repair[0]), repair[1..];
      match found {
        case Unknown(up) => ReplaceWorker(up);
        case Known(st) => ProcessWorkerInfo(st);
      }
      RoundExecutes(p, found);
    }

    /** A worker whose container cannot be inspected is given up for a new one, if one comes up. */
    method ReplaceWorker(up: bool)
      requires fixer.Checking? && (up ==> |workers| < cap)
      modifies `workers, `made, `fixer, `lost
      ensures Value() == Replaced(old(Value()), up)
    {
      lost := lost + multiset{fixer.h};
      var ok := StartNewWorker(up);
      fixer := Idle;
    }

    /**
     * The rounds of `repairLoop` until the context is done, the repair channel is empty, or a send has to wait for
     * room. If no status is both running and broken, no send has to, and the pool has lost as many workers as rounds
     * that lose one.
     */
    method RepairLoop(found: seq<Inspection>) returns (k: nat, ghost es: seq<Event>)
      requires fixer.Idle? && |repair| <= cap
      modifies this
      ensures k <= |found| && (k == |found| || repair == [] || (found[k].Sends() && |workers| >= cap))
      ensures Executes(old(Value()), es, Value()) && (SingleStatuses(es) <==> AllSingle(found[..k]))
      ensures old(Valid()) && AllSingle(found) ==> Valid() && (k == |found| || repair == [])
      ensures PoolInv(old(Value())) && AllSingle(found[..k])
              ==> PoolInv(Value()) && Strength(old(Value())) == Strength(Value()) + Losses(es)
      ensures borrowers == old(borrowers) && fixer.Idle?
    {
      k, es := 0, [];
      ghost var p := Value();
      while k < |found| && repair != [] && (found[k].Sends() ==> |workers| < cap)
        invariant k <= |found| && |repair| <= cap && fixer.Idle? && borrowers == old(borrowers)
        invariant Executes(p, es, Value()) && (SingleStatuses(es) <==> AllSingle(found[..k]))
        invariant old(Valid()) && AllSingle(found) ==> Valid()
      {
        ghost var m := Value();
        RepairOne(found[k]);
        RoundFits(m, found[k]);
        RoundGoesOn(p, es, m, found, k, Value());
        es, k := es + RoundEvents(found[k]), k + 1;
      }
      RoundsKeepPool(p, es, found, k, Value());
    }
  }
}
