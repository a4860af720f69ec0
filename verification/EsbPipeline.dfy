/**
 * One ESB pair on top of the scheduler: the read loops of internal/brokers/rabbitmq.go and internal/brokers/kafka.go
 * on the in-pool, `submitToESB`, and the write loops of either on the out-pool, interleaved with everything else the
 * scheduler does. Broker, database and mapper calls may succeed or fail at any time. A message is consumed when a
 * read loop receives it from its channel or poll; that includes the empty messages that RabbitMQ's channel yields
 * once the broker has closed it.
 */
module EsbPipeline {
  import opened Basics
  import opened Monitor
  import opened TaskScheduler
  import I = TaskIds

  type Msg = string

  /** The read task's id and broker, whether the ESB record has the empty mapper, and the out-pool's broker. */
  datatype Config = Config(rid: TaskId, broker: I.Broker, plain: bool, outBroker: I.Broker)

  /** A write task: a batch forwarded by this pair, or any other write task of the server. */
  datatype WTask = Forward(msgs: seq<Msg>) | Other

  /** Where a read loop is: before it, at its head, in `Poll`, storing a message, or past its end. */
  datatype Loop = Starting | AtHead | InPoll | Logging(m: Msg) | Ended

  datatype Reader = Reader(buf: seq<Msg>, loop: Loop, run: bool, expired: bool,
                           failed: bool, logFailed: bool, hasRecord: bool)

  /**
   * The in-side: active readers, and what happened so far: messages consumed, messages logged, failed log writes,
   * readers that ended because of one, messages forwarded to `submitToESB`, messages dropped.
   */
  datatype In = In(readers: map<Tid, Reader>, consumed: seq<Msg>, log: seq<Msg>, missed: nat, endedByLog: nat,
                   forwarded: multiset<Msg>, lost: multiset<Msg>)

  /**
   * What a busy writer has not brought to the broker: the rest of its messages, those that Kafka's producer has taken
   * and not delivered, and whether one of those has been given up.
   */
  datatype Job = Job(rest: seq<Msg>, flight: seq<Msg>, bad: bool)

  /** The out-side: the jobs of the busy writers, and messages emitted, published and dropped. */
  datatype Out = Out(writing: map<Tid, Job>, emitted: multiset<Msg>, published: seq<Msg>, lost: multiset<Msg>)

  datatype Pipe = Pipe(s: Sched<WTask>, i: In, o: Out)

  datatype Step =
    | Sch(e: Event<WTask>)
    | BeginRead(t: Tid, hasRecord: bool)
    | BeginFails(t: Tid)
    | Poll(t: Tid)
    | PollIdle(t: Tid)
    | PollFails(t: Tid)
    | Deliver(t: Tid, m: Msg)
    | LogMessage(t: Tid, ok: bool)
    | FlushOk(t: Tid, out: seq<Msg>, u: Tid, k: Tid)
    | FlushFails(t: Tid)
    | Deadline(t: Tid)
    | LoopExits(t: Tid)
    | ReadReturns(t: Tid)
    | Publish(t: Tid)
    | Arrive(t: Tid)
    | Vanish(t: Tid, n: nat)
    | WriteReturns(t: Tid, failed: bool)

  function Idle(): Pipe {
    Pipe(Fresh(), In(map[], [], [], 0, 0, multiset{}, multiset{}), Out(map[], multiset{}, [], multiset{}))
  }

  // ----- the read loops -----

  /** RabbitMQ receives at the head of its `select`; Kafka's goroutine receives inside `Poll`. */
  predicate Receiving(b: I.Broker, r: Reader) { match b case RabbitMQ => r.loop.AtHead? case Kafka => r.loop.InPoll? }

  predicate HasBatch(r: Reader) { r.hasRecord && r.buf != [] }

  predicate ReaderMay(c: Config, r: Reader, e: Step) {
    match e
    case BeginRead(_, _) => r.loop.Starting?
    case BeginFails(_) => r.loop.Starting?
    case Poll(_) => c.broker.Kafka? && r.loop.AtHead? && r.run
    case LoopExits(_) => c.broker.Kafka? && r.loop.AtHead? && !r.run
    case PollIdle(_) => c.broker.Kafka? && r.loop.InPoll? && !HasBatch(r)
    case PollFails(_) => c.broker.Kafka? && r.loop.InPoll?
    case Deliver(_, _) => Receiving(c.broker, r)
    case LogMessage(_, _) => r.loop.Logging?
    case FlushOk(_, out, _, _) => Receiving(c.broker, r) && HasBatch(r) && (c.plain ==> out == r.buf)
    case FlushFails(_) => Receiving(c.broker, r) && HasBatch(r)
    case Deadline(_) => if c.broker.RabbitMQ? then r.loop.AtHead? else !r.loop.Starting? && !r.expired
    case ReadReturns(_) => r.loop.Ended? && (c.broker.Kafka? ==> r.expired)
    case _ => false
  }

  /** The reader after one step of its loop. */
  function ReaderNext(c: Config, r: Reader, e: Step): Reader
    requires ReaderMay(c, r, e)
  {
    match e
    case BeginRead(_, has) => r.(loop := AtHead, hasRecord := has)
    case BeginFails(_) => r.(loop := Ended, failed := true, expired := true)
    case Poll(_) => r.(loop := InPoll)
    case LoopExits(_) => r.(loop := Ended)
    case PollIdle(_) => r.(loop := AtHead)
    case PollFails(_) => r.(loop := AtHead, run := false, failed := true)
    case Deliver(_, m) => r.(buf := r.buf + [m], loop := Logging(m))
    case LogMessage(_, ok) =>
      // Kafka tests the wrong error variable: a failed log write goes unnoticed.
      if ok || c.broker.Kafka? then r.(loop := AtHead) else r.(loop := Ended, failed := true, logFailed := true)
    case FlushOk(_, _, _, _) => r.(buf := [], loop := AtHead)
    case FlushFails(_) =>
      if c.broker.RabbitMQ? then r.(loop := Ended, failed := true)
      else r.(buf := [], loop := AtHead, run := false, failed := true)
    case Deadline(_) => if c.broker.RabbitMQ? then r.(loop := Ended) else r.(run := false, expired := true)
    case ReadReturns(_) => r
  }

  /** The in-side after a step of reader `t`. */
  function InNext(c: Config, i: In, t: Tid, e: Step): In
    requires t in i.readers && ReaderMay(c, i.readers[t], e)
  {
    var r := i.readers[t];
    if e.ReadReturns? then
      i.(readers := i.readers - {t}, lost := i.lost + multiset(r.buf),
         endedByLog := i.endedByLog + if r.logFailed then 1 else 0)
    else
      var i' := i.(readers := i.readers[t := ReaderNext(c, r, e)]);
      match e
      case Deliver(_, m) => i'.(consumed := i.consumed + [m])
      case LogMessage(_, ok) =>
        if ok then i'.(log := i.log + [r.loop.m]) else i'.(missed := i.missed + 1)
      case FlushOk(_, _, _, _) => i'.(forwarded := i.forwarded + multiset(r.buf))
      case FlushFails(_) => if c.broker.Kafka? then i'.(lost := i.lost + multiset(r.buf)) else i'
      case _ => i'
  }

  function NewReader(): Reader { Reader([], Starting, true, false, false, false, false) }

  // ----- the out-side -----

  function TaskMsgs(task: WTask): seq<Msg> { if task.Forward? then task.msgs else [] }

  /** The forwarded messages waiting in the write queue, oldest first. */
  function Queued(tasks: seq<WTask>): seq<Msg> {
    if tasks == [] then [] else TaskMsgs(tasks[0]) + Queued(tasks[1..])
  }

  function Emit(o: Out, out: seq<Msg>, accepted: bool): Out {
    o.(emitted := o.emitted + multiset(out), lost := if accepted then o.lost else o.lost + multiset(out))
  }

  function NewJob(msgs: seq<Msg>): Job { Job(msgs, [], false) }

  predicate WriteMove(e: Step) { e.Publish? || e.Arrive? || e.Vanish? }

  /** RabbitMQ publishes message by message, and nothing is ever in flight; Kafka's producer takes them all first. */
  predicate WriterMay(c: Config, j: Job, e: Step) {
    match e
    case Publish(_) => j.rest != [] && (c.outBroker.RabbitMQ? ==> j.flight == [])
    case Arrive(_) => c.outBroker.Kafka? && j.flight != []
    case Vanish(_, n) => c.outBroker.Kafka? && n < |j.flight|
    case _ => false
  }

  /** The out-side after a step of writer `t`'s loop. */
  function WriterMoves(c: Config, o: Out, t: Tid, e: Step): Out
    requires t in o.writing && WriterMay(c, o.writing[t], e)
  {
    var j := o.writing[t];
    match e
    case Publish(_) =>
      if c.outBroker.RabbitMQ? then
        o.(published := o.published + [j.rest[0]], writing := o.writing[t := j.(rest := j.rest[1..])])
      else o.(writing := o.writing[t := j.(rest := j.rest[1..], flight := j.flight + [j.rest[0]])])
    case Arrive(_) =>
      o.(published := o.published + [j.flight[0]], writing := o.writing[t := j.(flight := j.flight[1..])])
    case Vanish(_, n) =>
      o.(lost := o.lost + multiset{j.flight[n]},
         writing := o.writing[t := j.(flight := j.flight[..n] + j.flight[n + 1..], bad := true)])
  }

  /** A write that succeeds has brought every message to the broker. */
  predicate MayReturn(j: Job, failed: bool) { failed || (j.rest == [] && j.flight == [] && !j.bad) }

  /** The write task of `t` is over; what has not reached the broker is dropped. */
  function FinishWrite(o: Out, t: Tid): Out
    requires t in o.writing
  {
    var j := o.writing[t];
    o.(writing := o.writing - {t}, lost := o.lost + (multiset(j.flight) + multiset(j.rest)))
  }

  // ----- steps of the pair -----

  predicate ReadingHere(c: Config, p: Pipe, t: Tid) {
    t in p.i.readers && t in p.s.r.workers && p.s.r.workers[t].Busy?
  }

  predicate WritingHere(p: Pipe, t: Tid) {
    t in p.o.writing && t in p.s.w.workers && p.s.w.workers[t].Busy?
  }

  /** Scheduler events of this pair's own tasks happen through the steps below. */
  predicate NotOurs(p: Pipe, e: Event<WTask>) {
    match e
    case PutWrite(task, _, _) => task.Other?
    case ReaderReturns(t, _) => t !in p.i.readers
    case WriterReturns(t, _) => t !in p.o.writing
    case _ => true
  }

  predicate May(c: Config, p: Pipe, e: Step) {
    && !p.s.c.panicked
    && match e {
      case Sch(se) => NotOurs(p, se) && Enabled(p.s, se)
      case Publish(t) => WritingHere(p, t) && WriterMay(c, p.o.writing[t], e)
      case Arrive(t) => WritingHere(p, t) && WriterMay(c, p.o.writing[t], e)
      case Vanish(t, _) => WritingHere(p, t) && WriterMay(c, p.o.writing[t], e)
      case WriteReturns(t, failed) => WritingHere(p, t) && MayReturn(p.o.writing[t], failed)
      case FlushOk(t, out, u, k) =>
        ReadingHere(c, p, t) && ReaderMay(c, p.i.readers[t], e) && Enabled(p.s, PutWrite(Forward(out), u, k))
      case _ => ReadingHere(c, p, e.t) && ReaderMay(c, p.i.readers[e.t], e)
    }
  }

  function AfterSched(c: Config, p: Pipe, e: Event<WTask>): Pipe
    requires Enabled(p.s, e)
  {
    var s' := Apply(p.s, e);
    match e
    case ReaderGets(t, _) =>
      if s'.r.workers[t] == Busy(c.rid)
      then p.(s := s', i := p.i.(readers := p.i.readers[t := NewReader()]))
      else p.(s := s')
    case WriterGets(t, _) =>
      var ph := s'.w.workers[t];
      if ph.Busy? && ph.x.Forward? then p.(s := s', o := p.o.(writing := p.o.writing[t := NewJob(ph.x.msgs)]))
      else p.(s := s')
    case StopWrites => p.(s := s', o := p.o.(lost := p.o.lost + multiset(Queued(p.s.w.q.elems))))
    case _ => p.(s := s')
  }

  function Next(c: Config, p: Pipe, e: Step): Pipe
    requires May(c, p, e)
  {
    match e
    case Sch(se) => AfterSched(c, p, se)
    case Publish(t) => p.(o := WriterMoves(c, p.o, t, e))
    case Arrive(t) => p.(o := WriterMoves(c, p.o, t, e))
    case Vanish(t, _) => p.(o := WriterMoves(c, p.o, t, e))
    case WriteReturns(t, failed) => p.(s := Apply(p.s, WriterReturns(t, failed)), o := FinishWrite(p.o, t))
    case FlushOk(t, out, u, k) =>
      p.(s := Apply(p.s, PutWrite(Forward(out), u, k)), i := InNext(c, p.i, t, e),
         o := Emit(p.o, out, !p.s.w.q.closed))
    case ReadReturns(t) =>
      p.(s := Apply(p.s, ReaderReturns(t, p.i.readers[t].failed)), i := InNext(c, p.i, t, e))
    case _ => p.(i := InNext(c, p.i, e.t, e))
  }

  ghost predicate Runs(c: Config, p: Pipe, es: seq<Step>, p': Pipe)
    decreases |es|
  {
    if es == [] then p' == p else May(c, p, es[0]) && Runs(c, Next(c, p, es[0]), es[1..], p')
  }

  // ----- the pair stays in step with the scheduler -----

  /** Readers are exactly the read workers running the pair's read task; writers those with a forwarded batch. */
  ghost predicate ReadersMatch(rid: TaskId, readers: map<Tid, Reader>, workers: map<Tid, Phase<TaskId>>) {
    forall t :: t in readers <==> t in workers && workers[t] == Busy(rid)
  }

  ghost predicate WritersMatch(writing: map<Tid, Job>, workers: map<Tid, Phase<WTask>>) {
    forall t :: t in writing <==> t in workers && workers[t].Busy? && workers[t].x.Forward?
  }

  ghost predicate InStep(c: Config, p: Pipe) {
    && ReadersMatch(c.rid, p.i.readers, p.s.r.workers)
    && WritersMatch(p.o.writing, p.s.w.workers)
    && ReadInv(p.s.r)
    && p.s.w.q.maxSize == -1
  }

  /** The step of the scheduler that a step of the pair makes, if any. */
  function SchedStep(p: Pipe, e: Step): (se: seq<Event<WTask>>)
    requires e.ReadReturns? ==> e.t in p.i.readers
  {
    match e
    case Sch(se) => [se]
    case ReadReturns(t) => [ReaderReturns(t, p.i.readers[t].failed)]
    case FlushOk(t, out, u, k) => [PutWrite(Forward(out), u, k)]
    case WriteReturns(t, failed) => [WriterReturns(t, failed)]
    case _ => []
  }

  lemma NextSteps(c: Config, p: Pipe, e: Step)
    requires May(c, p, e)
    ensures (e.ReadReturns? ==> e.t in p.i.readers) && |SchedStep(p, e)| <= 1
    ensures SchedStep(p, e) == [] ==> Next(c, p, e).s == p.s
    ensures SchedStep(p, e) != [] ==>
              Enabled(p.s, SchedStep(p, e)[0]) && Next(c, p, e).s == Apply(p.s, SchedStep(p, e)[0])
  {
  }

  lemma NextKeepsReads(c: Config, p: Pipe, e: Step)
    requires ReadInv(p.s.r) && p.s.w.q.maxSize == -1 && May(c, p, e)
    ensures ReadInv(Next(c, p, e).s.r) && Next(c, p, e).s.w.q.maxSize == -1
  {
    NextSteps(c, p, e);
    if SchedStep(p, e) != [] { StepKeepsReads(p.s, SchedStep(p, e)[0]); }
  }

  lemma SchedKeepsReaders(c: Config, p: Pipe, e: Event<WTask>)
    requires ReadersMatch(c.rid, p.i.readers, p.s.r.workers) && NotOurs(p, e) && Enabled(p.s, e)
    ensures var p' := AfterSched(c, p, e); ReadersMatch(c.rid, p'.i.readers, p'.s.r.workers)
  {
  }

  lemma SchedKeepsWriters(c: Config, p: Pipe, e: Event<WTask>)
    requires WritersMatch(p.o.writing, p.s.w.workers) && NotOurs(p, e) && Enabled(p.s, e)
    ensures var p' := AfterSched(c, p, e); WritersMatch(p'.o.writing, p'.s.w.workers)
  {
  }

  lemma NextKeepsReaders(c: Config, p: Pipe, e: Step)
    requires ReadersMatch(c.rid, p.i.readers, p.s.r.workers) && May(c, p, e)
    ensures ReadersMatch(c.rid, Next(c, p, e).i.readers, Next(c, p, e).s.r.workers)
  {
    var p' := Next(c, p, e);
    match e {
      case Sch(se) => SchedKeepsReaders(c, p, se);
      case ReadReturns(t) =>
      case Publish(_) => assert p'.i == p.i && p'.s == p.s;
      case Arrive(_) => assert p'.i == p.i && p'.s == p.s;
      case Vanish(_, _) => assert p'.i == p.i && p'.s == p.s;
      case WriteReturns(_, _) => assert p'.i == p.i && p'.s.r == p.s.r;
      case _ => assert p'.i.readers.Keys == p.i.readers.Keys && p'.s.r == p.s.r;
    }
  }

  lemma NextKeepsWriters(c: Config, p: Pipe, e: Step)
    requires WritersMatch(p.o.writing, p.s.w.workers) && May(c, p, e)
    ensures WritersMatch(Next(c, p, e).o.writing, Next(c, p, e).s.w.workers)
  {
    var p' := Next(c, p, e);
    match e {
      case Sch(se) => SchedKeepsWriters(c, p, se);
      case WriteReturns(_, _) =>
      case Publish(_) => assert p'.s == p.s && p'.o.writing.Keys == p.o.writing.Keys;
      case Arrive(_) => assert p'.s == p.s && p'.o.writing.Keys == p.o.writing.Keys;
      case Vanish(_, _) => assert p'.s == p.s && p'.o.writing.Keys == p.o.writing.Keys;
      case _ => assert p'.s.w.workers == p.s.w.workers && p'.o.writing == p.o.writing;
    }
  }

  lemma NextKeepsStep(c: Config, p: Pipe, e: Step)
    requires InStep(c, p) && May(c, p, e)
    ensures InStep(c, Next(c, p, e))
  {
    NextKeepsReads(c, p, e);
    NextKeepsReaders(c, p, e);
    NextKeepsWriters(c, p, e);
  }
}

/** No message of the pair is lost or duplicated beyond the drops that are accounted for. */
module EsbConservation {
  import opened Basics
  import opened Monitor
  import opened TaskScheduler
  import opened EsbPipeline

  function BufferOf(r: Reader): multiset<Msg> { multiset(r.buf) }

  function RestOf(j: Job): multiset<Msg> { multiset(j.flight) + multiset(j.rest) }

  /** What was consumed was forwarded, is buffered, or was dropped by a reader. */
  ghost predicate InBalance(i: In) {
    multiset(i.consumed) == i.forwarded + Collect(i.readers, BufferOf) + i.lost
  }

  /** What was emitted to the out-pool is published, held by a writer, queued, or dropped. */
  ghost predicate OutBalance(o: Out, tasks: seq<WTask>) {
    o.emitted == multiset(o.published) + Collect(o.writing, RestOf) + multiset(Queued(tasks)) + o.lost
  }

  // ----- in-side -----

  /** Reader `t` now holds `r`: what left its buffer was forwarded or dropped. */
  lemma BufferLeaves(i: In, t: Tid, r: Reader, gone: multiset<Msg>)
    requires InBalance(i) && t in i.readers && multiset(i.readers[t].buf) == multiset(r.buf) + gone
    ensures multiset(i.consumed) == (i.forwarded + gone) + Collect(i.readers[t := r], BufferOf) + i.lost
    ensures multiset(i.consumed) == i.forwarded + Collect(i.readers[t := r], BufferOf) + (i.lost + gone)
  {
    CollectPut(i.readers, BufferOf, t, r);
  }

  lemma BufferGains(i: In, t: Tid, r: Reader, m: Msg)
    requires InBalance(i) && t in i.readers && r.buf == i.readers[t].buf + [m]
    ensures multiset(i.consumed + [m]) == i.forwarded + Collect(i.readers[t := r], BufferOf) + i.lost
  {
    CollectPut(i.readers, BufferOf, t, r);
  }

  lemma ReadReturnBalances(c: Config, i: In, t: Tid, e: Step)
    requires InBalance(i) && t in i.readers && e.ReadReturns? && ReaderMay(c, i.readers[t], e)
    ensures InBalance(InNext(c, i, t, e))
  {
    CollectPut(i.readers, BufferOf, t, i.readers[t]);
  }

  /** Any other step empties the buffer, into `submitToESB` or into nothing, or leaves it. */
  lemma LeavingEffect(c: Config, i: In, t: Tid, e: Step)
    requires t in i.readers && ReaderMay(c, i.readers[t], e) && !e.ReadReturns? && !e.Deliver?
    ensures var i', r, r' := InNext(c, i, t, e), i.readers[t], ReaderNext(c, i.readers[t], e);
            && i'.consumed == i.consumed && i'.readers == i.readers[t := r']
            && (r'.buf == (if e.FlushOk? || (e.FlushFails? && c.broker.Kafka?) then [] else r.buf))
            && (i'.forwarded == if e.FlushOk? then i.forwarded + multiset(r.buf) else i.forwarded)
            && (i'.lost == if e.FlushFails? && c.broker.Kafka? then i.lost + multiset(r.buf) else i.lost)
  {
  }

  lemma LeavingBalances(c: Config, i: In, t: Tid, e: Step)
    requires InBalance(i) && t in i.readers && ReaderMay(c, i.readers[t], e) && !e.ReadReturns? && !e.Deliver?
    ensures InBalance(InNext(c, i, t, e))
  {
    var i', r, r' := InNext(c, i, t, e), i.readers[t], ReaderNext(c, i.readers[t], e);
    LeavingEffect(c, i, t, e);
    if e.FlushOk? || (e.FlushFails? && c.broker.Kafka?) {
      BufferLeaves(i, t, r', multiset(r.buf));
    } else {
      BufferLeaves(i, t, r', multiset{});
      assert i.forwarded + multiset{} == i.forwarded;
    }
  }

  lemma InNextBalances(c: Config, i: In, t: Tid, e: Step)
    requires InBalance(i) && t in i.readers && ReaderMay(c, i.readers[t], e)
    ensures InBalance(InNext(c, i, t, e))
  {
    if e.ReadReturns? {
      ReadReturnBalances(c, i, t, e);
    } else if e.Deliver? {
      BufferGains(i, t, ReaderNext(c, i.readers[t], e), e.m);
    } else {
      LeavingBalances(c, i, t, e);
    }
  }

  lemma NewReaderBalances(i: In, t: Tid)
    requires InBalance(i) && t !in i.readers
    ensures InBalance(i.(readers := i.readers[t := NewReader()]))
  {
    CollectPut(i.readers, BufferOf, t, NewReader());
  }

  // ----- out-side -----

  lemma {:induction false} QueuedSnoc(tasks: seq<WTask>, task: WTask)
    ensures Queued(tasks + [task]) == Queued(tasks) + TaskMsgs(task)
  {
    if tasks == [] {
      assert Queued([task]) == TaskMsgs(task) + Queued([]);
    } else {
      QueuedSnoc(tasks[1..], task);
      Associative(TaskMsgs(tasks[0]), Queued(tasks[1..]), TaskMsgs(task));
      assert (tasks + [task])[0] == tasks[0];
      assert (tasks + [task])[1..] == tasks[1..] + [task];
    }
  }

  lemma EmitBalances(o: Out, tasks: seq<WTask>, out: seq<Msg>, accepted: bool)
    requires OutBalance(o, tasks)
    ensures OutBalance(Emit(o, out, accepted), if accepted then tasks + [Forward(out)] else tasks)
  {
    QueuedSnoc(tasks, Forward(out));
  }

  lemma OtherBalances(o: Out, tasks: seq<WTask>)
    requires OutBalance(o, tasks)
    ensures OutBalance(o, tasks + [Other])
  {
    QueuedSnoc(tasks, Other);
  }

  lemma TakeBalances(o: Out, tasks: seq<WTask>, t: Tid)
    requires OutBalance(o, tasks) && tasks != [] && t !in o.writing
    ensures tasks[0].Forward? ==> OutBalance(o.(writing := o.writing[t := NewJob(tasks[0].msgs)]), tasks[1..])
    ensures tasks[0].Other? ==> OutBalance(o, tasks[1..])
  {
    if tasks[0].Forward? {
      CollectPut(o.writing, RestOf, t, NewJob(tasks[0].msgs));
      assert RestOf(NewJob(tasks[0].msgs)) == multiset(tasks[0].msgs);
    }
  }

  /** What a step of a write loop brings to the broker, and what it loses. */
  function Came(c: Config, j: Job, e: Step): seq<Msg>
    requires WriterMay(c, j, e)
  {
    if e.Publish? && c.outBroker.RabbitMQ? then [j.rest[0]] else if e.Arrive? then [j.flight[0]] else []
  }

  function Fell(c: Config, j: Job, e: Step): multiset<Msg>
    requires WriterMay(c, j, e)
  {
    if e.Vanish? then multiset{j.flight[e.n]} else multiset{}
  }

  lemma MoveEffect(c: Config, o: Out, t: Tid, e: Step)
    requires t in o.writing && WriterMay(c, o.writing[t], e)
    ensures var o' := WriterMoves(c, o, t, e);
            o' == Out(o.writing[t := o'.writing[t]], o.emitted, o.published + Came(c, o.writing[t], e),
                      o.lost + Fell(c, o.writing[t], e))
  {
    assert o.published + [] == o.published && o.lost + multiset{} == o.lost;
  }

  lemma PublishTakes(c: Config, o: Out, t: Tid, e: Step)
    requires t in o.writing && WriterMay(c, o.writing[t], e) && e.Publish?
    ensures var j := o.writing[t];
            RestOf(j) == RestOf(WriterMoves(c, o, t, e).writing[t]) + multiset(Came(c, j, e)) + Fell(c, j, e)
  {
    HeadTail(o.writing[t].rest);
  }

  lemma ArriveTakes(c: Config, o: Out, t: Tid, e: Step)
    requires t in o.writing && WriterMay(c, o.writing[t], e) && e.Arrive?
    ensures var j := o.writing[t];
            RestOf(j) == RestOf(WriterMoves(c, o, t, e).writing[t]) + multiset(Came(c, j, e)) + Fell(c, j, e)
  {
    HeadTail(o.writing[t].flight);
  }

  lemma VanishTakes(c: Config, o: Out, t: Tid, e: Step)
    requires t in o.writing && WriterMay(c, o.writing[t], e) && e.Vanish?
    ensures var j := o.writing[t];
            RestOf(j) == RestOf(WriterMoves(c, o, t, e).writing[t]) + multiset(Came(c, j, e)) + Fell(c, j, e)
  {
    TakeOut(o.writing[t].flight, e.n);
  }

  lemma MoveTakes(c: Config, o: Out, t: Tid, e: Step)
    requires t in o.writing && WriterMay(c, o.writing[t], e)
    ensures var j := o.writing[t];
            RestOf(j) == RestOf(WriterMoves(c, o, t, e).writing[t]) + multiset(Came(c, j, e)) + Fell(c, j, e)
  {
    match e {
      case Publish(_) => PublishTakes(c, o, t, e);
      case Arrive(_) => ArriveTakes(c, o, t, e);
      case Vanish(_, _) => VanishTakes(c, o, t, e);
    }
  }

  lemma MoveBalances(c: Config, o: Out, tasks: seq<WTask>, t: Tid, e: Step)
    requires OutBalance(o, tasks) && t in o.writing && WriterMay(c, o.writing[t], e)
    ensures OutBalance(WriterMoves(c, o, t, e), tasks) && WriterMoves(c, o, t, e).emitted == o.emitted
  {
    var o' := WriterMoves(c, o, t, e);
    var came := Came(c, o.writing[t], e);
    MoveEffect(c, o, t, e);
    MoveTakes(c, o, t, e);
    CollectPut(o.writing, RestOf, t, o'.writing[t]);
    var others := Collect(o.writing - {t}, RestOf);
    assert multiset(o'.published) == multiset(o.published) + multiset(came);
  }

  lemma FinishBalances(o: Out, tasks: seq<WTask>, t: Tid)
    requires OutBalance(o, tasks) && t in o.writing
    ensures OutBalance(FinishWrite(o, t), tasks)
  {
    CollectPut(o.writing, RestOf, t, o.writing[t]);
  }

  lemma ClearBalances(o: Out, tasks: seq<WTask>)
    requires OutBalance(o, tasks)
    ensures OutBalance(o.(lost := o.lost + multiset(Queued(tasks))), [])
  {
  }

  // ----- runs -----

  ghost predicate Balanced(c: Config, p: Pipe) {
    && InBalance(p.i)
    && OutBalance(p.o, p.s.w.q.elems)
    && (c.plain ==> p.o.emitted == p.i.forwarded)
  }

  lemma SchedInBalances(c: Config, p: Pipe, e: Event<WTask>)
    requires ReadersMatch(c.rid, p.i.readers, p.s.r.workers) && InBalance(p.i) && Enabled(p.s, e)
    ensures InBalance(AfterSched(c, p, e).i)
    ensures AfterSched(c, p, e).i.forwarded == p.i.forwarded && AfterSched(c, p, e).o.emitted == p.o.emitted
  {
    if e.ReaderGets? { NewReaderBalances(p.i, e.t); }
  }

  lemma WriterGetsEffect(c: Config, p: Pipe, t: Tid, k: Tid)
    requires Enabled(p.s, WriterGets(t, k))
    ensures var p', tasks := AfterSched(c, p, WriterGets(t, k)), p.s.w.q.elems;
            && p'.s.w.q.elems == (if tasks == [] then [] else tasks[1..])
            && p'.o == if tasks != [] && tasks[0].Forward?
                       then p.o.(writing := p.o.writing[t := NewJob(tasks[0].msgs)]) else p.o
  {
  }

  lemma WriterGetsBalances(c: Config, p: Pipe, t: Tid, k: Tid)
    requires t !in p.o.writing && OutBalance(p.o, p.s.w.q.elems) && Enabled(p.s, WriterGets(t, k))
    ensures var p' := AfterSched(c, p, WriterGets(t, k)); OutBalance(p'.o, p'.s.w.q.elems)
  {
    WriterGetsEffect(c, p, t, k);
    if p.s.w.q.elems != [] { TakeBalances(p.o, p.s.w.q.elems, t); }
  }

  lemma SchedOutBalances(c: Config, p: Pipe, e: Event<WTask>)
    requires WritersMatch(p.o.writing, p.s.w.workers) && OutBalance(p.o, p.s.w.q.elems) && p.s.w.q.maxSize == -1
    requires NotOurs(p, e) && Enabled(p.s, e)
    ensures var p' := AfterSched(c, p, e); OutBalance(p'.o, p'.s.w.q.elems)
  {
    var p' := AfterSched(c, p, e);
    if e.WriterGets? {
      WriterGetsBalances(c, p, e.t, e.k);
    } else if e.PutWrite? {
      OtherBalances(p.o, p.s.w.q.elems);
    } else if e.StopWrites? {
      ClearBalances(p.o, p.s.w.q.elems);
    } else {
      assert p'.s.w.q == p.s.w.q && p'.o == p.o;
    }
  }

  lemma FlushParts(c: Config, p: Pipe, e: Step)
    requires e.FlushOk? && May(c, p, e) && p.s.w.q.maxSize == -1
    ensures e.t in p.i.readers && ReaderMay(c, p.i.readers[e.t], e) && (c.plain ==> e.out == p.i.readers[e.t].buf)
    ensures var p', q := Next(c, p, e), p.s.w.q;
            && p'.i == InNext(c, p.i, e.t, e) && p'.o == Emit(p.o, e.out, !q.closed)
            && p'.i.forwarded == p.i.forwarded + multiset(p.i.readers[e.t].buf)
            && p'.s.w.q.elems == if q.closed then q.elems else q.elems + [Forward(e.out)]
  {
  }

  /** A flush that reaches the queue: `out` goes to its end, or is dropped when it is closed. */
  lemma FlushBalances(c: Config, p: Pipe, e: Step)
    requires InStep(c, p) && Balanced(c, p) && e.FlushOk? && May(c, p, e)
    ensures Balanced(c, Next(c, p, e))
  {
    FlushParts(c, p, e);
    InNextBalances(c, p.i, e.t, e);
    EmitBalances(p.o, p.s.w.q.elems, e.out, !p.s.w.q.closed);
  }

  lemma LoopStepParts(c: Config, p: Pipe, e: Step)
    requires May(c, p, e) && !e.Sch? && !e.FlushOk? && !WriteMove(e) && !e.WriteReturns?
    ensures e.t in p.i.readers && ReaderMay(c, p.i.readers[e.t], e)
    ensures Next(c, p, e).i == InNext(c, p.i, e.t, e) && Next(c, p, e).o == p.o && Next(c, p, e).s.w == p.s.w
  {
  }

  /** The remaining steps of a read loop leave the out-side alone. */
  lemma LoopStepBalances(c: Config, p: Pipe, e: Step)
    requires Balanced(c, p) && May(c, p, e) && !e.Sch? && !e.FlushOk? && !WriteMove(e) && !e.WriteReturns?
    ensures Balanced(c, Next(c, p, e))
  {
    LoopStepParts(c, p, e);
    InNextBalances(c, p.i, e.t, e);
  }

  lemma SchedBalances(c: Config, p: Pipe, e: Step)
    requires InStep(c, p) && Balanced(c, p) && May(c, p, e) && e.Sch?
    ensures Balanced(c, Next(c, p, e))
  {
    SchedInBalances(c, p, e.e);
    SchedOutBalances(c, p, e.e);
  }

  lemma WriteStepParts(c: Config, p: Pipe, e: Step)
    requires May(c, p, e) && (WriteMove(e) || e.WriteReturns?)
    ensures e.t in p.o.writing && (WriteMove(e) ==> WriterMay(c, p.o.writing[e.t], e))
    ensures Next(c, p, e).i == p.i && Next(c, p, e).s.w.q == p.s.w.q
    ensures Next(c, p, e).o == if WriteMove(e) then WriterMoves(c, p.o, e.t, e) else FinishWrite(p.o, e.t)
  {
  }

  lemma WriteStepBalances(c: Config, p: Pipe, e: Step)
    requires Balanced(c, p) && May(c, p, e) && (WriteMove(e) || e.WriteReturns?)
    ensures Balanced(c, Next(c, p, e))
  {
    WriteStepParts(c, p, e);
    if WriteMove(e) {
      MoveBalances(c, p.o, p.s.w.q.elems, e.t, e);
    } else {
      FinishBalances(p.o, p.s.w.q.elems, e.t);
    }
  }

  lemma NextBalances(c: Config, p: Pipe, e: Step)
    requires InStep(c, p) && Balanced(c, p) && May(c, p, e)
    ensures Balanced(c, Next(c, p, e))
  {
    if e.Sch? {
      SchedBalances(c, p, e);
    } else if e.FlushOk? {
      FlushBalances(c, p, e);
    } else if WriteMove(e) || e.WriteReturns? {
      WriteStepBalances(c, p, e);
    } else {
      LoopStepBalances(c, p, e);
    }
  }

  lemma {:induction false} RunBalances(c: Config, p: Pipe, es: seq<Step>, p': Pipe)
    requires InStep(c, p) && Balanced(c, p) && Runs(c, p, es, p')
    ensures InStep(c, p') && Balanced(c, p')
    decreases |es|
  {
    if es != [] {
      NextKeepsStep(c, p, es[0]);
      NextBalances(c, p, es[0]);
      RunBalances(c, Next(c, p, es[0]), es[1..], p');
    }
  }

  lemma IdleBalances(c: Config)
    ensures InStep(c, Idle()) && Balanced(c, Idle())
  {
    FreshReads<WTask>();
    assert Collect(Idle().i.readers, BufferOf) == multiset{};
    assert Collect(Idle().o.writing, RestOf) == multiset{};
  }

  /**
   * End to end, for any number of readers' lifetimes, write workers and interleavings: with the empty mapper every
   * consumed message is published, held by a writer or in flight, queued, buffered, or counted as dropped, exactly
   * once, whichever brokers the two pools are on.
   */
  lemma EsbConserves(c: Config, es: seq<Step>, p: Pipe)
    requires Runs(c, Idle(), es, p)
    ensures multiset(p.i.consumed) == p.i.forwarded + Collect(p.i.readers, BufferOf) + p.i.lost
    ensures p.o.emitted
         == multiset(p.o.published) + Collect(p.o.writing, RestOf) + multiset(Queued(p.s.w.q.elems)) + p.o.lost
    ensures c.plain ==> (multiset(p.i.consumed)
                      == multiset(p.o.published) + Collect(p.o.writing, RestOf) + multiset(Queued(p.s.w.q.elems))
                       + Collect(p.i.readers, BufferOf) + p.o.lost + p.i.lost)
  {
    IdleBalances(c);
    RunBalances(c, Idle(), es, p);
  }
}

/** The order of messages, which rests on the scheduler running at most one reader of the in-pool at a time. */
module EsbOrder {
  import opened Basics
  import opened Monitor
  import opened TaskScheduler
  import opened EsbPipeline
  import opened EsbConservation

  ghost predicate AtMostOne<K, V>(m: map<K, V>) { forall t, u :: t in m && u in m ==> t == u }

  /** At most one write worker exists. */
  ghost predicate OneWriter(p: Pipe) { AtMostOne(p.s.w.workers) }

  /** The scheduler's exclusion makes the reader of the in-pool unique. */
  lemma OneReader(c: Config, p: Pipe)
    requires InStep(c, p)
    ensures AtMostOne(p.i.readers)
  {
    forall t, u | t in p.i.readers && u in p.i.readers ensures t == u {
      NeverHeldTwice(p.s.r, t, u, c.rid);
    }
  }

  lemma OneRest(c: Config, p: Pipe)
    requires InStep(c, p) && OneWriter(p)
    ensures AtMostOne(p.o.writing)
  {
  }

  // ----- the line of messages from the in-pool to the out-pool -----

  /** What the writer has not brought to the broker, in order: those in flight come first. */
  function Unsent(j: Job): seq<Msg> { j.flight + j.rest }

  ghost function SoleRest(writing: map<Tid, Job>): seq<Msg> {
    if writing == map[] then [] else Unsent(writing[Pick(writing)])
  }

  ghost function SoleBuffer(readers: map<Tid, Reader>): seq<Msg> {
    if readers == map[] then [] else readers[Pick(readers)].buf
  }

  function Chain(published: seq<Msg>, rest: seq<Msg>, queued: seq<Msg>, buffer: seq<Msg>): seq<Msg> {
    published + rest + queued + buffer
  }

  /** Published messages, then the rest of the task being written, the queued tasks, and the reader's buffer. */
  ghost function Line(p: Pipe): seq<Msg> {
    Chain(p.o.published, SoleRest(p.o.writing), Queued(p.s.w.q.elems), SoleBuffer(p.i.readers))
  }

  ghost predicate InOrder(p: Pipe) { Subseq(Line(p), p.i.consumed) }

  lemma ChainDropsRest(a: seq<Msg>, b: seq<Msg>, c: seq<Msg>, d: seq<Msg>, all: seq<Msg>)
    requires Subseq(Chain(a, b, c, d), all)
    ensures Subseq(Chain(a, [], c, d), all)
  {
    assert Chain(a, b, c, d) == a + b + (c + d) && Chain(a, [], c, d) == a + (c + d);
    SubseqCut(a, b, c + d, all);
  }

  lemma ChainDropsQueued(a: seq<Msg>, b: seq<Msg>, c: seq<Msg>, d: seq<Msg>, all: seq<Msg>)
    requires Subseq(Chain(a, b, c, d), all)
    ensures Subseq(Chain(a, b, [], d), all)
  {
    assert Chain(a, b, c, d) == (a + b) + c + d && Chain(a, b, [], d) == (a + b) + d;
    SubseqCut(a + b, c, d, all);
  }

  lemma ChainDropsBuffer(a: seq<Msg>, b: seq<Msg>, c: seq<Msg>, d: seq<Msg>, all: seq<Msg>)
    requires Subseq(Chain(a, b, c, d), all)
    ensures Subseq(Chain(a, b, c, []), all)
  {
    assert Chain(a, b, c, d) == (a + b + c) + d + [] && Chain(a, b, c, []) == (a + b + c) + [];
    SubseqCut(a + b + c, d, [], all);
  }

  lemma ChainGrows(a: seq<Msg>, b: seq<Msg>, c: seq<Msg>, d: seq<Msg>, all: seq<Msg>, m: Msg)
    requires Subseq(Chain(a, b, c, d), all)
    ensures Subseq(Chain(a, b, c, d + [m]), all + [m])
  {
    assert Chain(a, b, c, d + [m]) == Chain(a, b, c, d) + [m];
    SubseqSnocBoth(Chain(a, b, c, d), all, m);
  }

  lemma ChainFlushes(a: seq<Msg>, b: seq<Msg>, c: seq<Msg>, d: seq<Msg>)
    ensures Chain(a, b, c + d, []) == Chain(a, b, c, d)
  {
  }

  lemma ChainTakes(a: seq<Msg>, b: seq<Msg>, c: seq<Msg>, d: seq<Msg>)
    ensures Chain(a, b, c, d) == Chain(a, [], b + c, d)
  {
  }

  lemma ChainPublishes(a: seq<Msg>, b: seq<Msg>, c: seq<Msg>, d: seq<Msg>)
    requires b != []
    ensures Chain(a + [b[0]], b[1..], c, d) == Chain(a, b, c, d)
  {
    assert a + [b[0]] + b[1..] == a + b;
  }

  /** What a loop step does to the buffer: it stays, it is emptied, or one consumed message joins it. */
  lemma LoopStepEffect(c: Config, i: In, t: Tid, e: Step)
    requires t in i.readers && ReaderMay(c, i.readers[t], e) && !e.ReadReturns?
    ensures InNext(c, i, t, e).readers == i.readers[t := ReaderNext(c, i.readers[t], e)]
    ensures e.Deliver? ==> ReaderNext(c, i.readers[t], e).buf == i.readers[t].buf + [e.m]
    ensures !e.Deliver? ==> ReaderNext(c, i.readers[t], e).buf in {i.readers[t].buf, []}
    ensures InNext(c, i, t, e).consumed == if e.Deliver? then i.consumed + [e.m] else i.consumed
  {
  }

  lemma LoopStepKeepsChain(c: Config, i: In, t: Tid, e: Step, a: seq<Msg>, b: seq<Msg>, q: seq<Msg>)
    requires AtMostOne(i.readers) && t in i.readers && ReaderMay(c, i.readers[t], e)
    requires !e.FlushOk? && !e.ReadReturns?
    requires Subseq(Chain(a, b, q, SoleBuffer(i.readers)), i.consumed)
    ensures var i' := InNext(c, i, t, e); Subseq(Chain(a, b, q, SoleBuffer(i'.readers)), i'.consumed)
  {
    var r, r' := i.readers[t], ReaderNext(c, i.readers[t], e);
    LoopStepEffect(c, i, t, e);
    assert SoleBuffer(i.readers) == r.buf && SoleBuffer(i.readers[t := r']) == r'.buf;
    if e.Deliver? {
      ChainGrows(a, b, q, r.buf, i.consumed, e.m);
    } else if r'.buf != r.buf {
      ChainDropsBuffer(a, b, q, r.buf, i.consumed);
    }
  }

  lemma ReadReturnKeepsChain(c: Config, i: In, t: Tid, e: Step, a: seq<Msg>, b: seq<Msg>, q: seq<Msg>)
    requires AtMostOne(i.readers) && t in i.readers && ReaderMay(c, i.readers[t], e) && e.ReadReturns?
    requires Subseq(Chain(a, b, q, SoleBuffer(i.readers)), i.consumed)
    ensures var i' := InNext(c, i, t, e); Subseq(Chain(a, b, q, SoleBuffer(i'.readers)), i'.consumed)
  {
    assert i.readers - {t} == map[];
    ChainDropsBuffer(a, b, q, SoleBuffer(i.readers), i.consumed);
  }

  lemma LoopStepKeepsOrder(c: Config, p: Pipe, e: Step)
    requires AtMostOne(p.i.readers) && InOrder(p)
    requires May(c, p, e) && !e.Sch? && !e.FlushOk? && !WriteMove(e) && !e.WriteReturns?
    ensures InOrder(Next(c, p, e))
  {
    if e.ReadReturns? {
      ReadReturnKeepsChain(c, p.i, e.t, e, p.o.published, SoleRest(p.o.writing), Queued(p.s.w.q.elems));
    } else {
      LoopStepKeepsChain(c, p.i, e.t, e, p.o.published, SoleRest(p.o.writing), Queued(p.s.w.q.elems));
    }
    LoopStepParts(c, p, e);
  }

  lemma FlushKeepsOrder(c: Config, p: Pipe, e: Step)
    requires p.s.w.q.maxSize == -1 && AtMostOne(p.i.readers) && InOrder(p) && c.plain
    requires e.FlushOk? && May(c, p, e)
    ensures InOrder(Next(c, p, e))
  {
    var p', r := Next(c, p, e), p.i.readers[e.t];
    var a, b, q := p.o.published, SoleRest(p.o.writing), Queued(p.s.w.q.elems);
    assert SoleBuffer(p.i.readers) == r.buf;
    assert p'.i.readers == p.i.readers[e.t := ReaderNext(c, r, e)] && SoleBuffer(p'.i.readers) == [];
    if p.s.w.q.closed {
      ChainDropsBuffer(a, b, q, r.buf, p.i.consumed);
    } else {
      QueuedSnoc(p.s.w.q.elems, Forward(e.out));
      ChainFlushes(a, b, q, r.buf);
    }
  }

  lemma PublishKeepsChain(c: Config, o: Out, t: Tid, e: Step, q: seq<Msg>, d: seq<Msg>)
    requires t in o.writing && WriterMay(c, o.writing[t], e) && e.Publish?
    ensures var o' := WriterMoves(c, o, t, e);
            Chain(o'.published, Unsent(o'.writing[t]), q, d) == Chain(o.published, Unsent(o.writing[t]), q, d)
  {
    var j := o.writing[t];
    if c.outBroker.RabbitMQ? {
      assert Unsent(j) == j.rest && [] + j.rest[1..] == j.rest[1..];
      ChainPublishes(o.published, j.rest, q, d);
    } else {
      assert (j.flight + [j.rest[0]]) + j.rest[1..] == Unsent(j);
    }
  }

  lemma ArriveKeepsChain(c: Config, o: Out, t: Tid, e: Step, q: seq<Msg>, d: seq<Msg>)
    requires t in o.writing && WriterMay(c, o.writing[t], e) && e.Arrive?
    ensures var o' := WriterMoves(c, o, t, e);
            Chain(o'.published, Unsent(o'.writing[t]), q, d) == Chain(o.published, Unsent(o.writing[t]), q, d)
  {
    var j := o.writing[t];
    assert j.flight[1..] + j.rest == Unsent(j)[1..] && Unsent(j)[0] == j.flight[0];
    ChainPublishes(o.published, Unsent(j), q, d);
  }

  lemma VanishLosesOne(c: Config, o: Out, t: Tid, e: Step, q: seq<Msg>, d: seq<Msg>, all: seq<Msg>)
    requires t in o.writing && WriterMay(c, o.writing[t], e) && e.Vanish?
    requires Subseq(Chain(o.published, Unsent(o.writing[t]), q, d), all)
    ensures var o' := WriterMoves(c, o, t, e); Subseq(Chain(o'.published, Unsent(o'.writing[t]), q, d), all)
  {
    var j, n := o.writing[t], e.n;
    var front, back := j.flight[..n], j.flight[n + 1..] + j.rest;
    assert Unsent(j) == front + [j.flight[n]] + back;
    ChainLoses(o.published, front, j.flight[n], back, q, d, all);
    assert j.flight[..n] + j.flight[n + 1..] + j.rest == front + back;
  }

  /** A step of a write loop leaves the order alone, or takes one message out of it. */
  lemma MoveKeepsChain(c: Config, o: Out, t: Tid, e: Step, q: seq<Msg>, d: seq<Msg>, all: seq<Msg>)
    requires t in o.writing && WriterMay(c, o.writing[t], e)
    requires Subseq(Chain(o.published, Unsent(o.writing[t]), q, d), all)
    ensures var o' := WriterMoves(c, o, t, e); Subseq(Chain(o'.published, Unsent(o'.writing[t]), q, d), all)
  {
    if e.Publish? {
      PublishKeepsChain(c, o, t, e, q, d);
    } else if e.Arrive? {
      ArriveKeepsChain(c, o, t, e, q, d);
    } else {
      VanishLosesOne(c, o, t, e, q, d, all);
    }
  }

  lemma ChainLoses(a: seq<Msg>, b: seq<Msg>, x: Msg, b': seq<Msg>, c: seq<Msg>, d: seq<Msg>, all: seq<Msg>)
    ensures Subseq(Chain(a, b + [x] + b', c, d), all) ==> Subseq(Chain(a, b + b', c, d), all)
  {
    assert Chain(a, b + [x] + b', c, d) == (a + b) + [x] + (b' + c + d);
    assert Chain(a, b + b', c, d) == (a + b) + (b' + c + d);
    if Subseq(Chain(a, b + [x] + b', c, d), all) {
      SubseqCut(a + b, [x], b' + c + d, all);
    }
  }

  lemma SoleUnsent(writing: map<Tid, Job>, t: Tid)
    requires AtMostOne(writing) && t in writing
    ensures SoleRest(writing) == Unsent(writing[t])
  {
  }

  lemma MoveKeepsOrder(c: Config, p: Pipe, e: Step)
    requires AtMostOne(p.o.writing) && InOrder(p) && WriteMove(e) && May(c, p, e)
    ensures InOrder(Next(c, p, e))
  {
    WriteStepParts(c, p, e);
    MoveEffect(c, p.o, e.t, e);
    SoleUnsent(p.o.writing, e.t);
    SoleUnsent(Next(c, p, e).o.writing, e.t);
    MoveKeepsChain(c, p.o, e.t, e, Queued(p.s.w.q.elems), SoleBuffer(p.i.readers), p.i.consumed);
  }

  lemma WriteReturnKeepsOrder(c: Config, p: Pipe, e: Step)
    requires AtMostOne(p.o.writing) && InOrder(p) && e.WriteReturns? && May(c, p, e)
    ensures InOrder(Next(c, p, e))
  {
    var p' := Next(c, p, e);
    assert p'.o.writing == map[] && p'.s.w.q.elems == p.s.w.q.elems;
    ChainDropsRest(p.o.published, SoleRest(p.o.writing), Queued(p.s.w.q.elems), SoleBuffer(p.i.readers), p.i.consumed);
  }

  lemma ReaderGetsKeepsOrder(c: Config, p: Pipe, t: Tid, k: Tid)
    requires InStep(c, p) && InOrder(p) && !p.s.c.panicked && Enabled(p.s, ReaderGets(t, k))
    ensures InOrder(AfterSched(c, p, ReaderGets(t, k)))
  {
    var p' := AfterSched(c, p, ReaderGets(t, k));
    NextKeepsStep(c, p, Sch(ReaderGets(t, k)));
    OneReader(c, p');
    if p'.i != p.i {
      assert t in p'.i.readers && t !in p.i.readers;
      forall u ensures u !in p.i.readers { assert u in p'.i.readers ==> u == t; }
      assert p.i.readers == map[] && SoleBuffer(p'.i.readers) == [];
    }
  }

  lemma GettingWriterIsAlone(p: Pipe, t: Tid)
    requires WritersMatch(p.o.writing, p.s.w.workers) && OneWriter(p)
    requires t in p.s.w.workers && p.s.w.workers[t].Getting?
    ensures p.o.writing == map[]
  {
  }

  lemma SoleRestOf(t: Tid, ms: seq<Msg>)
    ensures SoleRest(map[t := NewJob(ms)]) == ms
  {
    assert t in map[t := NewJob(ms)];
  }

  lemma WriterGetsKeepsOrder(c: Config, p: Pipe, t: Tid, k: Tid)
    requires WritersMatch(p.o.writing, p.s.w.workers) && OneWriter(p) && InOrder(p) && Enabled(p.s, WriterGets(t, k))
    ensures InOrder(AfterSched(c, p, WriterGets(t, k)))
  {
    var p' := AfterSched(c, p, WriterGets(t, k));
    var tasks := p.s.w.q.elems;
    GettingWriterIsAlone(p, t);
    WriterGetsEffect(c, p, t, k);
    assert p'.i == p.i;
    if tasks != [] {
      var ms := TaskMsgs(tasks[0]);
      ChainTakes(p.o.published, ms, Queued(tasks[1..]), SoleBuffer(p.i.readers));
      if tasks[0].Forward? {
        assert p'.o.writing == map[t := NewJob(ms)];
        SoleRestOf(t, ms);
      } else {
        assert p'.o.writing == map[] && ms + Queued(tasks[1..]) == Queued(tasks[1..]);
      }
    }
  }

  lemma StopWritesKeepsOrder(c: Config, p: Pipe)
    requires InOrder(p) && Enabled(p.s, StopWrites)
    ensures InOrder(AfterSched(c, p, StopWrites))
  {
    ChainDropsQueued(p.o.published, SoleRest(p.o.writing), Queued(p.s.w.q.elems), SoleBuffer(p.i.readers),
                     p.i.consumed);
  }

  lemma PutOtherKeepsOrder(c: Config, p: Pipe, t: Tid, k: Tid)
    requires InOrder(p) && Enabled(p.s, PutWrite(Other, t, k))
    ensures InOrder(AfterSched(c, p, PutWrite(Other, t, k)))
  {
    QueuedSnoc(p.s.w.q.elems, Other);
    assert Queued(p.s.w.q.elems) + [] == Queued(p.s.w.q.elems);
  }

  lemma SchedKeepsOrder(c: Config, p: Pipe, e: Event<WTask>)
    requires InStep(c, p) && OneWriter(p) && InOrder(p) && !p.s.c.panicked && NotOurs(p, e) && Enabled(p.s, e)
    ensures InOrder(AfterSched(c, p, e))
  {
    if e.ReaderGets? {
      ReaderGetsKeepsOrder(c, p, e.t, e.k);
    } else if e.WriterGets? {
      WriterGetsKeepsOrder(c, p, e.t, e.k);
    } else if e.StopWrites? {
      StopWritesKeepsOrder(c, p);
    } else if e.PutWrite? {
      PutOtherKeepsOrder(c, p, e.t, e.k);
    } else {
      var p' := AfterSched(c, p, e);
      assert p'.i == p.i && p'.o == p.o && p'.s.w.q.elems == p.s.w.q.elems;
    }
  }

  lemma NextKeepsOrder(c: Config, p: Pipe, e: Step)
    requires InStep(c, p) && OneWriter(p) && InOrder(p) && c.plain && May(c, p, e)
    ensures InOrder(Next(c, p, e))
  {
    OneReader(c, p);
    OneRest(c, p);
    if e.Sch? {
      SchedKeepsOrder(c, p, e.e);
    } else if e.FlushOk? {
      FlushKeepsOrder(c, p, e);
    } else if WriteMove(e) {
      MoveKeepsOrder(c, p, e);
    } else if e.WriteReturns? {
      WriteReturnKeepsOrder(c, p, e);
    } else {
      LoopStepKeepsOrder(c, p, e);
    }
  }

  // ----- runs -----

  /** Workers never disappear, so a run that ends with one write worker never had two. */
  lemma NextKeepsWorkers(c: Config, p: Pipe, e: Step)
    requires May(c, p, e)
    ensures p.s.w.workers.Keys <= Next(c, p, e).s.w.workers.Keys
  {
  }

  lemma {:induction false} RunKeepsWorkers(c: Config, p: Pipe, es: seq<Step>, p': Pipe)
    requires Runs(c, p, es, p')
    ensures p.s.w.workers.Keys <= p'.s.w.workers.Keys
    decreases |es|
  {
    if es != [] {
      NextKeepsWorkers(c, p, es[0]);
      RunKeepsWorkers(c, Next(c, p, es[0]), es[1..], p');
    }
  }

  lemma FewerWriters(p: Pipe, p': Pipe)
    requires p.s.w.workers.Keys <= p'.s.w.workers.Keys && OneWriter(p')
    ensures OneWriter(p)
  {
    forall t, u | t in p.s.w.workers && u in p.s.w.workers ensures t == u {
      assert t in p'.s.w.workers.Keys && u in p'.s.w.workers.Keys;
    }
  }

  lemma {:induction false} RunKeepsOrder(c: Config, p: Pipe, es: seq<Step>, p': Pipe)
    requires InStep(c, p) && InOrder(p) && c.plain && Runs(c, p, es, p') && OneWriter(p')
    ensures InOrder(p')
    decreases |es|
  {
    if es != [] {
      var m := Next(c, p, es[0]);
      RunKeepsWorkers(c, p, es, p');
      FewerWriters(p, p');
      NextKeepsStep(c, p, es[0]);
      NextKeepsOrder(c, p, es[0]);
      RunKeepsOrder(c, m, es[1..], p');
    }
  }

  lemma SoleSizes(p: Pipe)
    requires AtMostOne(p.i.readers) && AtMostOne(p.o.writing)
    ensures Collect(p.i.readers, BufferOf) == multiset(SoleBuffer(p.i.readers))
    ensures Collect(p.o.writing, RestOf) == multiset(SoleRest(p.o.writing))
  {
    if p.i.readers != map[] { assert p.i.readers - {Pick(p.i.readers)} == map[]; }
    if p.o.writing != map[] { assert p.o.writing - {Pick(p.o.writing)} == map[]; }
  }

  lemma ChainSize(a: seq<Msg>, b: seq<Msg>, c: seq<Msg>, d: seq<Msg>)
    ensures |Chain(a, b, c, d)| == |multiset(a) + multiset(b) + multiset(c) + multiset(d)|
  {
  }

  /**
   * With the empty mapper and one write worker, whatever was dropped on the way, the messages published and still
   * under way are an order-preserving subsequence of those consumed; and if nothing was dropped they are exactly
   * those, so that the published sequence is a prefix of the consumed one.
   */
  lemma EsbPreservesOrder(c: Config, es: seq<Step>, p: Pipe)
    requires Runs(c, Idle(), es, p) && c.plain && OneWriter(p)
    ensures Subseq(Line(p), p.i.consumed)
    ensures p.i.lost == multiset{} && p.o.lost == multiset{} ==>
              Line(p) == p.i.consumed && p.o.published <= p.i.consumed
  {
    IdleBalances(c);
    RunKeepsOrder(c, Idle(), es, p);
    RunBalances(c, Idle(), es, p);
    if p.i.lost == multiset{} && p.o.lost == multiset{} {
      OneReader(c, p);
      OneRest(c, p);
      SoleSizes(p);
      ChainSize(p.o.published, SoleRest(p.o.writing), Queued(p.s.w.q.elems), SoleBuffer(p.i.readers));
      assert |p.i.consumed| == |multiset(p.i.consumed)|;
      SubseqLength(Line(p), p.i.consumed);
    }
  }
}

/** The read log of the in-pool across the lifetimes of its readers. */
module EsbReadLog {
  import opened Basics
  import opened Monitor
  import opened TaskScheduler
  import opened EsbPipeline
  import opened EsbConservation
  import opened EsbOrder
  import X = SchedulerShutdown

  /** The message consumed but not yet stored by the reader, if any. */
  ghost function SolePending(readers: map<Tid, Reader>): seq<Msg> {
    if readers == map[] then [] else PendingOf(readers[Pick(readers)])
  }

  function PendingOf(r: Reader): seq<Msg> { if r.loop.Logging? then [r.loop.m] else [] }

  /** The log is the deliveries in order, but for those whose log write failed. */
  ghost predicate LogInOrder(i: In) {
    && Subseq(i.log + SolePending(i.readers), i.consumed)
    && |i.consumed| == |i.log| + |SolePending(i.readers)| + i.missed
  }

  /** For RabbitMQ every failed log write ended its reader, and a reader that ended does nothing more. */
  ghost predicate FailuresEndReaders(c: Config, i: In) {
    c.broker.RabbitMQ? ==>
      && i.missed == i.endedByLog + (if SoleFailed(i.readers) then 1 else 0)
      && (forall t :: t in i.readers && i.readers[t].logFailed ==> i.readers[t].loop.Ended?)
  }

  ghost predicate SoleFailed(readers: map<Tid, Reader>) { readers != map[] && readers[Pick(readers)].logFailed }

  lemma SoleParts(readers: map<Tid, Reader>, t: Tid)
    requires AtMostOne(readers) && t in readers
    ensures SolePending(readers) == PendingOf(readers[t]) && SoleFailed(readers) == readers[t].logFailed
    ensures AtMostOne(readers[t := readers[t]]) && readers - {t} == map[]
  {
  }

  lemma DeliveryKeepsLog(c: Config, i: In, t: Tid, e: Step)
    requires AtMostOne(i.readers) && t in i.readers && ReaderMay(c, i.readers[t], e) && LogInOrder(i) && e.Deliver?
    ensures LogInOrder(InNext(c, i, t, e))
  {
    SoleParts(i.readers, t);
    SoleParts(i.readers[t := ReaderNext(c, i.readers[t], e)], t);
    assert i.log + [] == i.log;
    SubseqSnocBoth(i.log, i.consumed, e.m);
  }

  lemma StoreEffect(c: Config, i: In, t: Tid, e: Step)
    requires t in i.readers && ReaderMay(c, i.readers[t], e) && e.LogMessage?
    ensures var i', m := InNext(c, i, t, e), i.readers[t].loop.m;
            && i'.consumed == i.consumed && i'.readers == i.readers[t := ReaderNext(c, i.readers[t], e)]
            && PendingOf(i.readers[t]) == [m] && PendingOf(i'.readers[t]) == []
            && i'.log == (if e.ok then i.log + [m] else i.log)
            && i'.missed == if e.ok then i.missed else i.missed + 1
  {
  }

  lemma StoreKeepsLog(c: Config, i: In, t: Tid, e: Step)
    requires AtMostOne(i.readers) && t in i.readers && ReaderMay(c, i.readers[t], e) && LogInOrder(i) && e.LogMessage?
    ensures LogInOrder(InNext(c, i, t, e))
  {
    var m := i.readers[t].loop.m;
    StoreEffect(c, i, t, e);
    SoleParts(i.readers, t);
    SoleParts(i.readers[t := ReaderNext(c, i.readers[t], e)], t);
    if e.ok {
      assert (i.log + [m]) + [] == i.log + [m];
    } else {
      assert i.log + [m] == i.log + [m] + [];
      SubseqCut(i.log, [m], [], i.consumed);
    }
  }

  lemma StepKeepsLog(c: Config, i: In, t: Tid, e: Step)
    requires AtMostOne(i.readers) && t in i.readers && ReaderMay(c, i.readers[t], e) && LogInOrder(i)
    ensures LogInOrder(InNext(c, i, t, e))
  {
    if e.ReadReturns? {
      SoleParts(i.readers, t);
      assert i.log + [] == i.log;
    } else if e.Deliver? {
      DeliveryKeepsLog(c, i, t, e);
    } else if e.LogMessage? {
      StoreKeepsLog(c, i, t, e);
    } else {
      SoleParts(i.readers, t);
      SoleParts(i.readers[t := ReaderNext(c, i.readers[t], e)], t);
    }
  }

  lemma StepKeepsFailures(c: Config, i: In, t: Tid, e: Step)
    requires AtMostOne(i.readers) && t in i.readers && ReaderMay(c, i.readers[t], e) && FailuresEndReaders(c, i)
    ensures FailuresEndReaders(c, InNext(c, i, t, e))
  {
    SoleParts(i.readers, t);
    if !e.ReadReturns? {
      SoleParts(i.readers[t := ReaderNext(c, i.readers[t], e)], t);
    }
  }

  ghost predicate LogInv(c: Config, i: In) { LogInOrder(i) && FailuresEndReaders(c, i) }

  lemma NewReaderKeepsLog(c: Config, p: Pipe, t: Tid, k: Tid)
    requires InStep(c, p) && LogInv(c, p.i) && !p.s.c.panicked && Enabled(p.s, ReaderGets(t, k))
    ensures LogInv(c, AfterSched(c, p, ReaderGets(t, k)).i)
  {
    var p' := AfterSched(c, p, ReaderGets(t, k));
    NextKeepsStep(c, p, Sch(ReaderGets(t, k)));
    OneReader(c, p');
    if p'.i != p.i {
      assert t in p'.i.readers && t !in p.i.readers;
      forall u ensures u !in p.i.readers { assert u in p'.i.readers ==> u == t; }
      assert p.i.readers == map[];
      SoleParts(p'.i.readers, t);
    }
  }

  lemma InSideStep(c: Config, p: Pipe, e: Step)
    requires May(c, p, e) && !e.Sch? && !WriteMove(e) && !e.WriteReturns?
    ensures e.t in p.i.readers && ReaderMay(c, p.i.readers[e.t], e) && Next(c, p, e).i == InNext(c, p.i, e.t, e)
  {
  }

  lemma OutSideStep(c: Config, p: Pipe, e: Step)
    requires May(c, p, e) && (WriteMove(e) || e.WriteReturns? || (e.Sch? && !e.e.ReaderGets?))
    ensures Next(c, p, e).i == p.i
  {
  }

  lemma NextKeepsLog(c: Config, p: Pipe, e: Step)
    requires InStep(c, p) && LogInv(c, p.i) && May(c, p, e)
    ensures LogInv(c, Next(c, p, e).i)
  {
    if e.Sch? && e.e.ReaderGets? {
      NewReaderKeepsLog(c, p, e.e.t, e.e.k);
    } else if e.Sch? || WriteMove(e) || e.WriteReturns? {
      OutSideStep(c, p, e);
    } else {
      OneReader(c, p);
      InSideStep(c, p, e);
      StepKeepsLog(c, p.i, e.t, e);
      StepKeepsFailures(c, p.i, e.t, e);
    }
  }

  lemma {:induction false} RunKeepsLog(c: Config, p: Pipe, es: seq<Step>, p': Pipe)
    requires InStep(c, p) && LogInv(c, p.i) && Runs(c, p, es, p')
    ensures InStep(c, p') && LogInv(c, p'.i)
    decreases |es|
  {
    if es != [] {
      NextKeepsStep(c, p, es[0]);
      NextKeepsLog(c, p, es[0]);
      RunKeepsLog(c, Next(c, p, es[0]), es[1..], p');
    }
  }

  /**
   * Across any sequence of reader lifetimes the read log is an order-preserving subsequence of the deliveries,
   * short of exactly the failed log writes (and of one message being stored); for RabbitMQ at most one message is
   * missing per reader, and only for readers that ended because of it.
   */
  lemma ReadLogIsOrdered(c: Config, es: seq<Step>, p: Pipe)
    requires Runs(c, Idle(), es, p)
    ensures Subseq(p.i.log, p.i.consumed)
    ensures |p.i.consumed| == |p.i.log| + |SolePending(p.i.readers)| + p.i.missed
    ensures c.broker.RabbitMQ? ==> p.i.missed == p.i.endedByLog + (if SoleFailed(p.i.readers) then 1 else 0)
    ensures p.i.missed == 0 && SolePending(p.i.readers) == [] <==> p.i.log == p.i.consumed
  {
    IdleBalances(c);
    RunKeepsLog(c, Idle(), es, p);
    var pending := SolePending(p.i.readers);
    assert p.i.log + pending + [] == p.i.log + pending && p.i.log + [] == p.i.log;
    SubseqCut(p.i.log, pending, [], p.i.consumed);
    SubseqLength(p.i.log, p.i.consumed);
  }

  // ----- a log write that fails unnoticed -----

  lemma {:induction false} RunsSnoc(c: Config, p: Pipe, es: seq<Step>, m: Pipe, e: Step)
    requires Runs(c, p, es, m) && May(c, m, e)
    ensures Runs(c, p, es + [e], Next(c, m, e))
    decreases |es|
  {
    if es == [] {
      assert es + [e] == [e];
    } else {
      RunsSnoc(c, Next(c, p, es[0]), es[1..], m, e);
      assert (es + [e])[0] == es[0] && (es + [e])[1..] == es[1..] + [e];
    }
  }

  ghost predicate Reachable(c: Config, p: Pipe) { exists es :: Runs(c, Idle(), es, p) }

  lemma ReachableNext(c: Config, p: Pipe, e: Step)
    requires Reachable(c, p) && May(c, p, e)
    ensures Reachable(c, Next(c, p, e))
  {
    var es :| Runs(c, Idle(), es, p);
    RunsSnoc(c, Idle(), es, p, e);
  }

  /** The state of the pair while its only worker reads. */
  function Reading(rid: TaskId, r: Reader, consumed: seq<Msg>, missed: nat): Pipe {
    Idle().(s := X.OneWorker(rid, Busy(rid), Up),
            i := Idle().i.(readers := map[0 := r], consumed := consumed, missed := missed))
  }

  lemma WorkerStarts(c: Config, n: nat)
    requires n <= 3
    ensures Reachable(c, Idle().(s := X.Starting(c.rid, n)))
  {
    if n == 0 {
      assert Runs(c, Idle(), [], Idle());
    } else {
      var p := Idle().(s := X.Starting<WTask>(c.rid, n - 1));
      WorkerStarts(c, n - 1);
      X.StartStep<WTask>(c.rid, n - 1);
      ReachableNext(c, p, Sch(X.StartEvent(c.rid, n - 1)));
    }
  }

  lemma TaskIsTaken(c: Config)
    ensures Reachable(c, Reading(c.rid, NewReader(), [], 0))
  {
    var p := Idle().(s := X.Starting<WTask>(c.rid, 3));
    WorkerStarts(c, 3);
    X.StartStep<WTask>(c.rid, 3);
    ReachableNext(c, p, Sch(X.StartEvent(c.rid, 3)));
  }

  /** One step of its loop in which nothing is logged or flushed. */
  lemma ReadingStep(c: Config, r: Reader, consumed: seq<Msg>, missed: nat, e: Step)
    requires ReaderMay(c, r, e) && !e.FlushOk? && !e.FlushFails? && !e.ReadReturns? && e.t == 0
    requires e.LogMessage? ==> !e.ok
    ensures May(c, Reading(c.rid, r, consumed, missed), e)
    ensures Next(c, Reading(c.rid, r, consumed, missed), e)
         == Reading(c.rid, ReaderNext(c, r, e), if e.Deliver? then consumed + [e.m] else consumed,
                    if e.LogMessage? then missed + 1 else missed)
  {
  }

  lemma ReadingGoesOn(c: Config, r: Reader, consumed: seq<Msg>, missed: nat, e: Step)
    requires Reachable(c, Reading(c.rid, r, consumed, missed))
    requires ReaderMay(c, r, e) && !e.FlushOk? && !e.FlushFails? && !e.ReadReturns? && e.t == 0
    requires e.LogMessage? ==> !e.ok
    ensures Reachable(c, Reading(c.rid, ReaderNext(c, r, e), if e.Deliver? then consumed + [e.m] else consumed,
                                 if e.LogMessage? then missed + 1 else missed))
  {
    ReadingStep(c, r, consumed, missed, e);
    ReachableNext(c, Reading(c.rid, r, consumed, missed), e);
  }

  /** It polls one message, fails to log it, and does not notice; the deadline passes and the goroutine is joined. */
  lemma LogWriteFails(c: Config, m: Msg)
    requires c.broker.Kafka?
    ensures Reachable(c, Reading(c.rid, Reader([m], Ended, false, true, false, false, false), [m], 1))
  {
    var r := NewReader();
    TaskIsTaken(c);
    ReadingGoesOn(c, r, [], 0, BeginRead(0, false));
    ReadingGoesOn(c, r.(loop := AtHead), [], 0, Poll(0));
    ReadingGoesOn(c, r.(loop := InPoll), [], 0, Deliver(0, m));
    assert [] + [m] == [m];
    ReadingGoesOn(c, r.(buf := [m], loop := Logging(m)), [m], 0, LogMessage(0, false));
    ReadingGoesOn(c, r.(buf := [m], loop := AtHead), [m], 1, Deadline(0));
    ReadingGoesOn(c, r.(buf := [m], loop := AtHead, run := false, expired := true), [m], 1, LoopExits(0));
  }

  /** A Kafka reader can end without an error, and with a log that lacks the message it read. */
  lemma KafkaLogIsShort(c: Config, m: Msg) returns (p: Pipe)
    requires c.broker.Kafka?
    ensures Reachable(c, p)
    ensures p.s.r.workers == map[0 := Releasing(c.rid)] && p.s.c.errors == 0
    ensures p.i.readers == map[] && p.i.consumed == [m] && p.i.log == []
  {
    var p0 := Reading(c.rid, Reader([m], Ended, false, true, false, false, false), [m], 1);
    LogWriteFails(c, m);
    ReachableNext(c, p0, ReadReturns(0));
    p := Next(c, p0, ReadReturns(0));
  }
}
