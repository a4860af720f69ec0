/**
 * The scheduler as the mutable object of internal/brokers/mp_task_scheduler.go. Where a goroutine stands is kept in
 * `readers` and `writers`. A method that is one lock-protected section says which step of the machine in
 * TaskScheduler it takes; a method made of several says which run it is, so that all that is proved about runs
 * holds of it.
 */
module SchedulerObject {
  import opened Basics
  import opened Monitor
  import opened TaskScheduler
  import Q = QueueObject
  import S = SyncSet

  lemma ThreeSteps<W>(s: Sched<W>, a: Event<W>, m: Sched<W>, b: Event<W>, n: Sched<W>, c: Event<W>, s': Sched<W>)
    requires Enabled(s, a) && m == Apply(s, a) && Enabled(m, b) && n == Apply(m, b)
    requires Enabled(n, c) && s' == Apply(n, c)
    ensures Executes(s, [a, b, c], s')
  {
    assert Executes(s', [], s') && [c][1..] == [] && [b, c][1..] == [c] && [a, b, c][1..] == [b, c];
    assert Executes(n, [c], s');
    assert Executes(m, [b, c], s');
  }

  predicate Below(ts: set<Tid>, n: nat) { |ts| == n && forall t :: t in ts ==> t < n }

  lemma BelowMore(ts: set<Tid>, n: nat)
    requires Below(ts, n)
    ensures Below(ts + {n}, n + 1)
  {
    assert n !in ts;
  }

  class Scheduler<W> {
    const readTasks: Q.BlockingQueue<TaskId>
    const writeTasks: Q.BlockingQueue<W>
    const running: S.SyncSet<TaskId>
    var readers: map<Tid, Phase<TaskId>>
    var writers: map<Tid, Phase<W>>
    var errors: nat
    var panicked: bool
    var wg: int
    var stage: Stage
    ghost var submitting: multiset<TaskId>
    ghost var stranded: multiset<TaskId>

    ghost function Reads(): ReadSide
      reads this, readTasks, running
    {
      ReadSide(readTasks.Value(), running.buffer, submitting, readers, stranded)
    }

    ghost function Writes(): WriteSide<W>
      reads this, writeTasks
    {
      WriteSide(writeTasks.Value(), writers)
    }

    ghost function Value(): Sched<W>
      reads this, readTasks, writeTasks, running
    {
      Sched(Reads(), Writes(), Control(errors, panicked, wg, stage))
    }

    ghost predicate Valid()
      reads this, readTasks, writeTasks
    {
      && (readTasks as object) != (writeTasks as object)
      && MonitorInv(readTasks.Value()) && MonitorInv(writeTasks.Value())
      && readTasks.maxSize == -1 && writeTasks.maxSize == -1
    }

    /** `Init`. */
    constructor ()
      ensures Valid() && Value() == Fresh()
      ensures fresh(readTasks) && fresh(writeTasks) && fresh(running)
    {
      readTasks := new Q.BlockingQueue.Unbounded();
      writeTasks := new Q.BlockingQueue.Unbounded();
      running := new S.SyncSet();
      readers, writers := map[], map[];
      errors, panicked, wg, stage := 0, false, 0, Up;
      submitting, stranded := multiset{}, multiset{};
    }

    // ----- submitReadTask, submitWriteTask -----

    method InsertId(id: TaskId) returns (ok: bool)
      requires Valid() && !panicked
      modifies `submitting, running
      ensures Valid() && Enabled(old(Value()), InsertRead(id)) && Value() == Apply(old(Value()), InsertRead(id))
      ensures ok <==> id !in old(running.buffer)
      ensures ok ==> id in submitting
      ensures running.buffer == old(running.buffer) + {id}
    {
      ok := running.Insert(id);
      if ok {
        submitting := submitting + multiset{id};
      }
    }

    method PutId(id: TaskId, t: Tid) returns (ghost e: Event<W>)
      requires Valid() && !panicked && id in submitting && readTasks.Value().Idle(t)
      modifies `submitting, `stranded, readTasks
      ensures Valid() && e.PutRead? && Enabled(old(Value()), e) && Value() == Apply(old(Value()), e)
      ensures readTasks.elems == old(readTasks.elems) + if old(readTasks.closed) then [] else [id]
    {
      var res, k := readTasks.Put(t, id);
      submitting := submitting - multiset{id};
      if !res.Accepted? { stranded := stranded + multiset{id}; }
      e := PutRead(id, t, k);
    }

    /** `submitReadTask`: an id that is running already is not queued again. */
    method SubmitReadTask(id: TaskId, t: Tid) returns (r: TaskId, ghost es: seq<Event<W>>)
      requires Valid() && !panicked && readTasks.Value().Idle(t)
      modifies `submitting, `stranded, readTasks, running
      ensures Valid() && Executes(old(Value()), es, Value())
      ensures r == id && running.buffer == old(running.buffer) + {id}
      ensures readTasks.elems
           == old(readTasks.elems) + if id in old(running.buffer) || old(readTasks.closed) then [] else [id]
    {
      ghost var s := Value();
      var ok := InsertId(id);
      es := [InsertRead(id)];
      ghost var m := Value();
      assert Executes(s, es, m);
      if ok {
        ghost var e := PutId(id, t);
        ExecutesSnoc(s, es, m, e);
        es := es + [e];
      }
      r := id;
    }

    /** `submitWriteTask`: whether the queue took the task is not reported. */
    method SubmitWriteTask(task: W, t: Tid) returns (ghost k: Tid)
      requires Valid() && !panicked && writeTasks.Value().Idle(t)
      modifies writeTasks
      ensures Valid() && Enabled(old(Value()), PutWrite(task, t, k))
      ensures Value() == Apply(old(Value()), PutWrite(task, t, k))
      ensures writeTasks.elems == old(writeTasks.elems) + if old(writeTasks.closed) then [] else [task]
    {
      var res;
      res, k := writeTasks.Put(t, task);
    }

    /** `submitError`: the `select` sends if there is room, and panics on the closed channel. */
    method SubmitError()
      requires !panicked
      modifies `errors, `panicked
      ensures Control(errors, panicked, wg, stage) == Report(old(Control(errors, panicked, wg, stage)))
      ensures panicked <==> stage.Rank() >= 3
    {
      if stage.Rank() >= 3 {
        panicked := true;
      } else if errors < MAX_ERRORS {
        errors := errors + 1;
      }
    }

    // ----- Start, Stop -----

    method StartReader(t: Tid)
      requires Valid() && !panicked && stage.Up? && t !in readers && readTasks.Value().Idle(t)
      modifies `readers, `wg
      ensures Valid() && Enabled(old(Value()), SpawnReader(t)) && Value() == Apply(old(Value()), SpawnReader(t))
      ensures readers == old(readers)[t := Getting] && wg == old(wg) + 1
    {
      wg := wg + 1;
      readers := readers[t := Getting];
    }

    method StartWriter(t: Tid)
      requires Valid() && !panicked && stage.Up? && t !in writers && writeTasks.Value().Idle(t)
      modifies `writers, `wg
      ensures Valid() && Enabled(old(Value()), SpawnWriter(t)) && Value() == Apply(old(Value()), SpawnWriter(t))
      ensures writers == old(writers)[t := Getting] && wg == old(wg) + 1
    {
      wg := wg + 1;
      writers := writers[t := Getting];
    }

    method StartReaders(n: nat) returns (ghost es: seq<Event<W>>)
      requires Valid() && !panicked && stage.Up? && readers == map[]
      requires forall t :: readTasks.Value().Idle(t)
      modifies `readers, `wg
      ensures Valid() && Executes(old(Value()), es, Value())
      ensures wg == old(wg) + n && Below(readers.Keys, n)
    {
      es := [];
      ghost var s := Value();
      for i := 0 to n
        invariant Executes(s, es, Value()) && wg == old(wg) + i && Below(readers.Keys, i)
      {
        ghost var m := Value();
        ghost var ts := readers.Keys;
        StartReader(i);
        BelowMore(ts, i);
        assert readers.Keys == ts + {i};
        ExecutesSnoc(s, es, m, SpawnReader(i));
        es := es + [SpawnReader(i)];
      }
    }

    method StartWriters(n: nat) returns (ghost es: seq<Event<W>>)
      requires Valid() && !panicked && stage.Up? && writers == map[]
      requires forall t :: writeTasks.Value().Idle(t)
      modifies `writers, `wg
      ensures Valid() && Executes(old(Value()), es, Value())
      ensures wg == old(wg) + n && Below(writers.Keys, n)
    {
      es := [];
      ghost var s := Value();
      for i := 0 to n
        invariant Executes(s, es, Value()) && wg == old(wg) + i && Below(writers.Keys, i)
      {
        ghost var m := Value();
        ghost var ts := writers.Keys;
        StartWriter(i);
        BelowMore(ts, i);
        assert writers.Keys == ts + {i};
        ExecutesSnoc(s, es, m, SpawnWriter(i));
        es := es + [SpawnWriter(i)];
      }
    }

    /** `Start`, in a scheduler that has no workers yet: the wait group counts every routine before it runs. */
    method Start(readWorkers: nat, writeWorkers: nat) returns (ghost es: seq<Event<W>>)
      requires Valid() && !panicked && stage.Up? && readers == map[] && writers == map[]
      requires forall t :: readTasks.Value().Idle(t) && writeTasks.Value().Idle(t)
      modifies `readers, `writers, `wg
      ensures Valid() && Executes(old(Value()), es, Value())
      ensures wg == old(wg) + readWorkers + writeWorkers
      ensures Below(readers.Keys, readWorkers) && Below(writers.Keys, writeWorkers)
    {
      ghost var s := Value();
      es := StartReaders(readWorkers);
      ghost var m := Value();
      ghost var bs := StartWriters(writeWorkers);
      ExecutesConcat(s, es, m, bs, Value());
      es := es + bs;
    }

    method CloseReadTasks()
      requires Valid() && !panicked && stage.Up?
      modifies `stranded, `stage, readTasks
      ensures Valid() && Enabled(old(Value()), StopReads) && Value() == Apply(old(Value()), StopReads)
      ensures readTasks.closed && readTasks.elems == []
    {
      stranded := stranded + multiset(readTasks.elems);
      readTasks.Close(true);
      stage := ReadsClosed;
    }

    method CloseWriteTasks()
      requires Valid() && !panicked && stage.ReadsClosed?
      modifies `stage, writeTasks
      ensures Valid() && Enabled(old(Value()), StopWrites) && Value() == Apply(old(Value()), StopWrites)
      ensures writeTasks.closed && writeTasks.elems == []
    {
      writeTasks.Close(true);
      stage := WritesClosed;
    }

    method CloseErrors()
      requires Valid() && !panicked && stage.WritesClosed?
      modifies `stage
      ensures Valid() && Enabled(old(Value()), StopErrors) && Value() == Apply(old(Value()), StopErrors)
    {
      stage := ErrorsClosed;
    }

    /** `Stop` up to the point where it waits for the workers: the error channel is closed before the wait. */
    method Stop() returns (ghost es: seq<Event<W>>)
      requires Valid() && !panicked && stage.Up?
      modifies `stranded, `stage, readTasks, writeTasks
      ensures Valid() && es == [StopReads, StopWrites, StopErrors] && Executes(old(Value()), es, Value())
      ensures readTasks.closed && writeTasks.closed && readTasks.elems == [] && writeTasks.elems == []
      ensures stage == ErrorsClosed
    {
      ghost var s := Value();
      CloseReadTasks();
      ghost var m := Value();
      CloseWriteTasks();
      ghost var n := Value();
      CloseErrors();
      ThreeSteps(s, StopReads, m, StopWrites, n, StopErrors, Value());
      es := [StopReads, StopWrites, StopErrors];
    }

    // ----- rWorkerRoutine -----

    /** The head of the loop. */
    method ReaderTakes(t: Tid) returns (r: GetResult<TaskId>, ghost e: Event<W>)
      requires Valid() && !panicked && t in readers && readers[t].Getting? && t !in readTasks.empty.parked
      modifies `readers, `wg, readTasks
      ensures Valid() && e.ReaderGets? && Enabled(old(Value()), e) && Value() == Apply(old(Value()), e)
      ensures readers == old(readers)[t := PhaseAfterGet(r)]
      ensures r.GetParked? <==> !old(readTasks.closed) && old(readTasks.elems) == []
      ensures old(readTasks.elems) != [] ==>
                r == Returned(Some(old(readTasks.elems)[0])) && readTasks.elems == old(readTasks.elems)[1..]
      ensures old(readTasks.elems) == [] ==> readTasks.elems == []
      ensures t in readTasks.empty.parked <==> r.GetParked?
      ensures readTasks.closed == old(readTasks.closed)
    {
      ghost var k;
      r, k := readTasks.Get(t);
      readers := readers[t := PhaseAfterGet(r)];
      if r.Returned? && r.item.None? { wg := wg - 1; }
      e := ReaderGets(t, k);
    }

    method ReaderReturn(t: Tid, failed: bool)
      requires Valid() && !panicked && t in readers && readers[t].Busy?
      modifies `readers
      ensures Valid() && Enabled(old(Value()), ReaderReturns(t, failed))
      ensures Value() == Apply(old(Value()), ReaderReturns(t, failed))
      ensures readers == old(readers)[t := if failed then Failing(old(readers)[t].x) else Releasing(old(readers)[t].x)]
    {
      readers := readers[t := if failed then Failing(readers[t].x) else Releasing(readers[t].x)];
    }

    method ReaderReport(t: Tid)
      requires Valid() && !panicked && t in readers && readers[t].Failing?
      modifies `readers, `errors, `panicked
      ensures Valid() && Enabled(old(Value()), ReaderReports(t))
      ensures Value() == Apply(old(Value()), ReaderReports(t))
      ensures readers == old(readers)[t := Releasing(old(readers)[t].x)] && (panicked <==> stage.Rank() >= 3)
    {
      SubmitError();
      readers := readers[t := Releasing(readers[t].x)];
    }

    method ReaderRelease(t: Tid)
      requires Valid() && !panicked && t in readers && readers[t].Releasing?
      modifies `readers, running
      ensures Valid() && Enabled(old(Value()), ReaderReleases(t))
      ensures Value() == Apply(old(Value()), ReaderReleases(t))
      ensures readers == old(readers)[t := Getting] && running.buffer == old(running.buffer) - {old(readers)[t].x}
    {
      running.Remove(readers[t].x);
      readers := readers[t := Getting];
    }

    /** The task runs and returns an error or none; the error is reported. */
    method ReaderTries(t: Tid, failed: bool) returns (ghost es: seq<Event<W>>)
      requires Valid() && !panicked && t in readers && readers[t].Busy? && stage.Rank() < 3
      modifies `readers, `errors, `panicked
      ensures Valid() && !panicked && Executes(old(Value()), es, Value())
      ensures readers == old(readers)[t := Releasing(old(readers)[t].x)]
    {
      ghost var s := Value();
      ReaderReturn(t, failed);
      es := [ReaderReturns(t, failed)];
      if failed {
        ghost var m := Value();
        ReaderReport(t);
        ExecutesSnoc(s, es, m, ReaderReports(t));
        es := es + [ReaderReports(t)];
      }
    }

    /** The rest of one iteration: the task runs, and its id is released. */
    method ReaderRuns(t: Tid, failed: bool) returns (ghost es: seq<Event<W>>)
      requires Valid() && !panicked && t in readers && readers[t].Busy? && stage.Rank() < 3
      modifies `readers, `errors, `panicked, running
      ensures Valid() && !panicked && Executes(old(Value()), es, Value())
      ensures readers == old(readers)[t := Getting] && running.buffer == old(running.buffer) - {old(readers)[t].x}
    {
      ghost var s := Value();
      es := ReaderTries(t, failed);
      ghost var m := Value();
      ReaderRelease(t);
      ExecutesSnoc(s, es, m, ReaderReleases(t));
      es := es + [ReaderReleases(t)];
    }

    /** What `Get` returned; None if the worker is left waiting, or has returned. */
    method ReaderGot(t: Tid) returns (item: Option<TaskId>, ghost es: seq<Event<W>>)
      requires Valid() && !panicked && t in readers && readers[t].Getting? && t !in readTasks.empty.parked
      modifies `readers, `wg, readTasks
      ensures Valid() && Executes(old(Value()), es, Value())
      ensures old(readTasks.elems) == if item.Some? then [item.value] + readTasks.elems else readTasks.elems
      ensures item.Some? <==> old(readTasks.elems) != []
      ensures item.Some? ==> readers == old(readers)[t := Busy(item.value)]
      ensures item.None? ==> readers == old(readers)[t := if readTasks.closed then Exited else Getting]
      ensures t in readTasks.empty.parked <==> item.None? && !readTasks.closed
      ensures readTasks.closed == old(readTasks.closed)
    {
      var r; ghost var e;
      r, e := ReaderTakes(t);
      es := [e];
      item := if r.GetParked? then None else r.item;
    }

    /** One iteration of the loop of `rWorkerRoutine`. */
    method ReaderIterates(t: Tid, failed: bool) returns (item: Option<TaskId>, ghost es: seq<Event<W>>)
      requires Valid() && !panicked && t in readers && readers[t].Getting? && t !in readTasks.empty.parked
      requires stage.Rank() >= 3 ==> readTasks.elems == []
      modifies `readers, `errors, `panicked, `wg, readTasks, running
      ensures Valid() && !panicked && Executes(old(Value()), es, Value())
      ensures old(readTasks.elems) == if item.Some? then [item.value] + readTasks.elems else readTasks.elems
      ensures item.Some? <==> old(readTasks.elems) != []
      ensures running.buffer == old(running.buffer) - if item.Some? then {item.value} else {}
      ensures readers == old(readers)[t := if item.None? && readTasks.closed then Exited else Getting]
      ensures t in readTasks.empty.parked <==> item.None? && !readTasks.closed
      ensures readTasks.closed == old(readTasks.closed)
    {
      ghost var s := Value();
      item, es := ReaderGot(t);
      if item.Some? {
        ghost var m := Value();
        ghost var more := ReaderRuns(t, failed);
        ExecutesConcat(s, es, m, more, Value());
        es := es + more;
      }
    }

    /**
     * The loop of `rWorkerRoutine` for as long as the worker runs alone: it takes every queued task, in order, and
     * releases each id; then it returns if the queue is closed, and waits otherwise.
     */
    method RunReader(t: Tid, fails: nat -> bool) returns (done: seq<TaskId>, ghost es: seq<Event<W>>)
      requires Valid() && !panicked && t in readers && readers[t].Getting? && t !in readTasks.empty.parked
      requires stage.Rank() >= 3 ==> readTasks.elems == []
      modifies `readers, `errors, `panicked, `wg, readTasks, running
      ensures Valid() && !panicked && Executes(old(Value()), es, Value())
      ensures done == old(readTasks.elems) && readTasks.elems == []
      ensures forall id :: id in running.buffer <==> id in old(running.buffer) && id !in done
      ensures readers == old(readers)[t := if readTasks.closed then Exited else Getting]
      ensures readTasks.closed == old(readTasks.closed) && (t in readTasks.empty.parked <==> !readTasks.closed)
    {
      done, es := [], [];
      ghost var s := Value();
      while true
        invariant Valid() && !panicked && Executes(s, es, Value()) && stage == old(stage)
        invariant done + readTasks.elems == old(readTasks.elems) && readTasks.closed == old(readTasks.closed)
        invariant forall id :: id in running.buffer <==> id in old(running.buffer) && id !in done
        invariant readers == old(readers)[t := Getting] && t !in readTasks.empty.parked
        invariant stage.Rank() >= 3 ==> readTasks.elems == []
        decreases |readTasks.elems|
      {
        ghost var m := Value();
        var item; ghost var more;
        item, more := ReaderIterates(t, fails(|done|));
        ExecutesConcat(s, es, m, more, Value());
        es := es + more;
        if item.None? { return; }
        Associative(done, [item.value], readTasks.elems);
        done := done + [item.value];
      }
    }

    // ----- wWorkerRoutine -----

    method WriterTakes(t: Tid) returns (item: Option<W>, ghost e: Event<W>)
      requires Valid() && !panicked && t in writers && writers[t].Getting? && t !in writeTasks.empty.parked
      modifies `writers, `wg, writeTasks
      ensures Valid() && e.WriterGets? && Enabled(old(Value()), e) && Value() == Apply(old(Value()), e)
      ensures old(writeTasks.elems) == if item.Some? then [item.value] + writeTasks.elems else writeTasks.elems
      ensures item.Some? <==> old(writeTasks.elems) != []
      ensures item.Some? ==> writers == old(writers)[t := Busy(item.value)]
      ensures item.None? ==> writers == old(writers)[t := if writeTasks.closed then Exited else Getting]
      ensures t in writeTasks.empty.parked <==> item.None? && !writeTasks.closed
      ensures writeTasks.closed == old(writeTasks.closed)
    {
      var r; ghost var k;
      r, k := writeTasks.Get(t);
      writers := writers[t := PhaseAfterGet(r)];
      if r.Returned? && r.item.None? { wg := wg - 1; }
      item := if r.GetParked? then None else r.item;
      e := WriterGets(t, k);
    }

    method WriterReturn(t: Tid, failed: bool)
      requires Valid() && !panicked && t in writers && writers[t].Busy?
      modifies `writers
      ensures Valid() && Enabled(old(Value()), WriterReturns(t, failed))
      ensures Value() == Apply(old(Value()), WriterReturns(t, failed))
      ensures writers == old(writers)[t := if failed then Failing(old(writers)[t].x) else Getting]
    {
      writers := writers[t := if failed then Failing(writers[t].x) else Getting];
    }

    method WriterReport(t: Tid)
      requires Valid() && !panicked && t in writers && writers[t].Failing?
      modifies `writers, `errors, `panicked
      ensures Valid() && Enabled(old(Value()), WriterReports(t))
      ensures Value() == Apply(old(Value()), WriterReports(t))
      ensures writers == old(writers)[t := Getting] && (panicked <==> stage.Rank() >= 3)
    {
      SubmitError();
      writers := writers[t := Getting];
    }

    method WriterRuns(t: Tid, failed: bool) returns (ghost es: seq<Event<W>>)
      requires Valid() && !panicked && t in writers && writers[t].Busy? && stage.Rank() < 3
      modifies `writers, `errors, `panicked
      ensures Valid() && !panicked && Executes(old(Value()), es, Value())
      ensures writers == old(writers)[t := Getting]
    {
      ghost var s := Value();
      WriterReturn(t, failed);
      es := [WriterReturns(t, failed)];
      if failed {
        ghost var m := Value();
        WriterReport(t);
        ExecutesSnoc(s, es, m, WriterReports(t));
        es := es + [WriterReports(t)];
      }
    }

    method WriterIterates(t: Tid, failed: bool) returns (item: Option<W>, ghost es: seq<Event<W>>)
      requires Valid() && !panicked && t in writers && writers[t].Getting? && t !in writeTasks.empty.parked
      requires stage.Rank() >= 3 ==> writeTasks.elems == []
      modifies `writers, `errors, `panicked, `wg, writeTasks
      ensures Valid() && !panicked && Executes(old(Value()), es, Value())
      ensures old(writeTasks.elems) == if item.Some? then [item.value] + writeTasks.elems else writeTasks.elems
      ensures item.Some? <==> old(writeTasks.elems) != []
      ensures writers == old(writers)[t := if item.None? && writeTasks.closed then Exited else Getting]
      ensures t in writeTasks.empty.parked <==> item.None? && !writeTasks.closed
      ensures writeTasks.closed == old(writeTasks.closed)
    {
      ghost var s := Value();
      ghost var e;
      item, e := WriterTakes(t);
      es := [e];
      assert Executes(s, es, Value());
      if item.Some? {
        ghost var m := Value();
        ghost var more := WriterRuns(t, failed);
        ExecutesConcat(s, es, m, more, Value());
        es := es + more;
      }
    }

    /** The loop of `wWorkerRoutine` for as long as the worker runs alone: every queued task, in order. */
    method RunWriter(t: Tid, fails: nat -> bool) returns (done: seq<W>, ghost es: seq<Event<W>>)
      requires Valid() && !panicked && t in writers && writers[t].Getting? && t !in writeTasks.empty.parked
      requires stage.Rank() >= 3 ==> writeTasks.elems == []
      modifies `writers, `errors, `panicked, `wg, writeTasks
      ensures Valid() && !panicked && Executes(old(Value()), es, Value())
      ensures done == old(writeTasks.elems) && writeTasks.elems == []
      ensures writers == old(writers)[t := if writeTasks.closed then Exited else Getting]
      ensures writeTasks.closed == old(writeTasks.closed) && (t in writeTasks.empty.parked <==> !writeTasks.closed)
    {
      done, es := [], [];
      ghost var s := Value();
      while true
        invariant Valid() && !panicked && Executes(s, es, Value()) && stage == old(stage)
        invariant done + writeTasks.elems == old(writeTasks.elems) && writeTasks.closed == old(writeTasks.closed)
        invariant writers == old(writers)[t := Getting] && t !in writeTasks.empty.parked
        invariant stage.Rank() >= 3 ==> writeTasks.elems == []
        decreases |writeTasks.elems|
      {
        ghost var m := Value();
        var item; ghost var more;
        item, more := WriterIterates(t, fails(|done|));
        ExecutesConcat(s, es, m, more, Value());
        es := es + more;
        if item.None? { return; }
        Associative(done, [item.value], writeTasks.elems);
        done := done + [item.value];
      }
    }
  }
}
