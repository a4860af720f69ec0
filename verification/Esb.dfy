/**
 * `runMapper` and `submitToESB` of internal/brokers/esb.go, over the worker pool and the scheduler. What the
 * containers answer, what the mapper's output decodes to, and whether the out-pool is known, are parameters.
 */
module Esb {
  import opened Basics
  import opened TaskScheduler
  import opened EsbPipeline
  import P = WorkerPool
  import W = Watcher
  import O = SchedulerObject

  /** The `k`-th handle is the first to be met with this answer, after containers that do not run. */
  predicate Decides(workers: seq<P.Handle>, answers: seq<W.Answer>, answer: W.Answer, k: nat) {
    && k < |workers| && k < |answers| && answers[k] == answer
    && forall i :: 0 <= i < k ==> answers[i] == W.Container(false)
  }

  lemma NothingElseDecides(workers: seq<P.Handle>, answers: seq<W.Answer>, answer: W.Answer, k: nat)
    requires k <= |workers| && k <= |answers| && forall i :: 0 <= i < k ==> answers[i] == W.Container(false)
    requires k == |workers| || k == |answers| || answers[k] != W.Container(false)
    requires answer != W.Container(false)
    ensures (exists j :: Decides(workers, answers, answer, j)) <==> Decides(workers, answers, answer, k)
  {
    forall j: nat | Decides(workers, answers, answer, j) ensures j == k {}
  }

  /** The first `k` handles have gone to the repair channel. */
  lemma Shifted(w: seq<P.Handle>, r: seq<P.Handle>, k: nat)
    requires k <= |w|
    ensures multiset(w[k..]) + multiset(r + w[..k]) == multiset(w) + multiset(r)
  {
    assert w == w[..k] + w[k..];
  }

  /** And the next one is in hand. */
  lemma Taken(w: seq<P.Handle>, r: seq<P.Handle>, k: nat)
    requires k < |w|
    ensures multiset(w[k + 1..]) + multiset(r + w[..k]) + multiset([w[k]]) == multiset(w) + multiset(r)
  {
    Shifted(w, r, k);
    assert w[k..] == [w[k]] + w[k + 1..];
  }

  lemma Returned(w: seq<P.Handle>, r: seq<P.Handle>, h: P.Handle)
    ensures multiset(w + [h]) + multiset(r) == multiset(w) + multiset(r) + multiset([h])
  {
  }

  /** The handles in the two channels. */
  ghost function InChannels(workers: seq<P.Handle>, repair: seq<P.Handle>): multiset<P.Handle> {
    multiset(workers) + multiset(repair)
  }

  /** `BorrowWorker`, as its outcome is told by the answers. */
  method Borrow(w: W.Watcher, t: P.Tid, answers: seq<W.Answer>)
    returns (h: Option<P.Handle>, ghost lost: seq<P.Handle>, ghost es: seq<P.Event>)
    requires w.Valid() && t !in w.borrowers
    modifies w
    ensures P.Executes(old(w.Value()), es, w.Value()) && P.SingleStatuses(es) && P.Losses(es) == |lost|
    ensures h.Some? <==> exists k :: Decides(old(w.workers), answers, W.Container(true), k)
    ensures lost != [] <==> exists k :: Decides(old(w.workers), answers, W.InspectionError, k)
    ensures w.borrowers == if h.Some? then old(w.borrowers)[t := P.Using(h.value)] else old(w.borrowers)
    ensures InChannels(w.workers, w.repair) + multiset(lost) + multiset(if h.Some? then [h.value] else [])
         == old(InChannels(w.workers, w.repair))
    ensures |w.workers| + |w.repair| <= w.cap && (h.Some? ==> |w.workers| + |w.repair| < w.cap)
  {
    var err; ghost var k;
    ghost var was, broken := w.workers, w.repair;
    h, err, k, es := w.BorrowWorker(t, answers);
    assert w.workers == [] && w.workers == was[k..] ==> k == |was|;
    assert err.Some? ==> err.value.NoRunningWorker? || err.value.InspectionFailed?;
    assert err.None? ==> answers[k] == W.Container(true);
    NothingElseDecides(was, answers, W.Container(true), k);
    NothingElseDecides(was, answers, W.InspectionError, k);
    lost := if err == Some(W.InspectionFailed) then [was[k]] else [];
    if err == Some(W.NoRunningWorker) { Shifted(was, broken, k); } else { Taken(was, broken, k); }
  }

  /** `Return`, after what happened before. */
  method GiveBack(w: W.Watcher, t: P.Tid, ghost p: P.Pool, ghost before: seq<P.Event>)
    returns (ghost es: seq<P.Event>)
    requires t in w.borrowers && w.borrowers[t].Using? && |w.workers| + |w.repair| < w.cap
    requires P.Executes(p, before, w.Value()) && P.SingleStatuses(before)
    modifies w
    ensures w.Valid() && w.borrowers == old(w.borrowers) - {t}
    ensures P.Executes(p, es, w.Value()) && P.SingleStatuses(es) && P.Losses(es) == P.Losses(before)
    ensures InChannels(w.workers, w.repair)
         == old(InChannels(w.workers, w.repair)) + multiset([old(w.borrowers)[t].h])
  {
    ghost var m := w.Value();
    Returned(w.workers, w.repair, w.borrowers[t].h);
    w.Return(t);
    W.PairLosses(P.Finish(t), P.SendBack(t));
    W.GoesOn(p, before, m, [P.Finish(t), P.SendBack(t)], w.Value());
    es := before + [P.Finish(t), P.SendBack(t)];
  }

  /**
   * `runMapper`, by thread `t`: the worker that was borrowed is returned whether or not the script works. A handle is
   * lost exactly if its inspection fails.
   */
  method RunMapper(w: W.Watcher, t: P.Tid, answers: seq<W.Answer>, output: Option<seq<Msg>>)
    returns (mapped: Option<seq<Msg>>, ghost lost: seq<P.Handle>, ghost es: seq<P.Event>)
    requires w.Valid() && t !in w.borrowers
    modifies w
    ensures w.Valid() && w.borrowers == old(w.borrowers)
    ensures P.Executes(old(w.Value()), es, w.Value()) && P.SingleStatuses(es) && P.Losses(es) == |lost|
    ensures mapped == if exists k :: Decides(old(w.workers), answers, W.Container(true), k) then output else None
    ensures InChannels(w.workers, w.repair) + multiset(lost) == old(InChannels(w.workers, w.repair))
    ensures lost != [] <==> exists k :: Decides(old(w.workers), answers, W.InspectionError, k)
  {
    var h;
    ghost var p := w.Value();
    h, lost, es := Borrow(w, t, answers);
    mapped := None;
    if h.Some? {
      mapped := output;
      es := GiveBack(w, t, p, es);
    }
  }

  /** The batch that goes on: as it is under the empty mapper, or what the mapper makes of it. */
  function Onward(plain: bool, msgs: seq<Msg>, mapped: Option<seq<Msg>>): Option<seq<Msg>> {
    if plain then Some(msgs) else mapped
  }

  /**
   * `submitToESB`: on success exactly one write task with the whole batch is submitted, and on failure none. The
   * caller is told of success even if the queue is closed and the task is dropped.
   */
  method SubmitToESB(known: bool, plain: bool, msgs: seq<Msg>, w: W.Watcher, answers: seq<W.Answer>,
                     output: Option<seq<Msg>>, sched: O.Scheduler<WTask>, t: nat)
    returns (ok: bool, ghost out: Option<seq<Msg>>, ghost lost: seq<P.Handle>)
    requires w.Valid() && t !in w.borrowers
    requires sched.Valid() && !sched.panicked && sched.writeTasks.Value().Idle(t)
    modifies w, sched.writeTasks
    ensures w.Valid() && sched.Valid() && w.borrowers == old(w.borrowers)
    ensures InChannels(w.workers, w.repair) + multiset(lost) == old(InChannels(w.workers, w.repair))
    ensures !known || plain ==> w.workers == old(w.workers) && w.repair == old(w.repair)
    ensures ok <==>
              known && (plain || (output.Some? && exists k :: Decides(old(w.workers), answers, W.Container(true), k)))
    ensures ok ==> out == Onward(plain, msgs, output) && out.Some?
    ensures sched.writeTasks.elems == old(sched.writeTasks.elems)
              + if ok && !old(sched.writeTasks.closed) then [Forward(out.value)] else []
    ensures !ok ==> sched.Value() == old(sched.Value())
    ensures ok ==> exists k :: Enabled(old(sched.Value()), PutWrite(Forward(out.value), t, k))
                               && sched.Value() == Apply(old(sched.Value()), PutWrite(Forward(out.value), t, k))
  {
    lost, out := [], None;
    if !known { return false, out, lost; }
    var batch := msgs;
    if !plain {
      var mapped; ghost var es;
      mapped, lost, es := RunMapper(w, t, answers, output);
      if mapped.None? { return false, out, lost; }
      batch := mapped.value;
    }
    out := Some(batch);
    ghost var k := sched.SubmitWriteTask(Forward(batch), t);
    ok := true;
  }
}
